/**
  The commerce page: a product grid, a cart of product lines with
  quantities, its total, checkout, and the paged order history.
 */
module Commerce {
  import opened Seqs
  import opened Paging

  datatype Product = Product(id: int, name: string, price: int, image: string)

  /** A cart line: the product's fields and how many of it. */
  datatype CartLine = CartLine(id: int, name: string, price: int, image: string, quantity: int)

  datatype Order = Order(id: int, product: string, quantity: int, total: int, date: string, status: string)

  const Placeholder := "/placeholder.svg?height=100&width=100"

  const Products: seq<Product> := [
    Product(1, "BARK T-Shirt", 25, Placeholder),
    Product(2, "BARK Hoodie", 50, Placeholder),
    Product(3, "BARK Cap", 20, Placeholder),
    Product(4, "BARK Mug", 15, Placeholder),
    Product(5, "BARK Sticker Pack", 10, Placeholder)
  ]

  const Orders: seq<Order> := [
    Order(1, "BARK T-Shirt", 2, 50, "2023-05-01", "Shipped"),
    Order(2, "BARK Hoodie", 1, 50, "2023-04-30", "Processing"),
    Order(3, "BARK Cap", 3, 60, "2023-04-29", "Delivered")
  ]

  const OrdersPerPage: nat := 3

  predicate InCart(cart: seq<CartLine>, id: int) {
    exists i :: 0 <= i < |cart| && cart[i].id == id
  }

  /** What the handlers keep true: one line per product id, each with at least one item. */
  predicate WellFormed(cart: seq<CartLine>) {
    (forall i, j :: 0 <= i < j < |cart| ==> cart[i].id != cart[j].id)
    && (forall i :: 0 <= i < |cart| ==> cart[i].quantity >= 1)
  }

  /** How many items with this id the cart holds. */
  function QuantityOf(cart: seq<CartLine>, id: int): int {
    if |cart| == 0 then 0
    else (if cart[0].id == id then cart[0].quantity else 0) + QuantityOf(cart[1..], id)
  }

  /** `cart.reduce((total, item) => total + item.price * item.quantity, 0)`. */
  function TotalPrice(cart: seq<CartLine>): int {
    if |cart| == 0 then 0 else cart[0].price * cart[0].quantity + TotalPrice(cart[1..])
  }

  /** The `map` branch of adding: the line with this id gets one more item. */
  function Bump(cart: seq<CartLine>, id: int): (r: seq<CartLine>)
    ensures |r| == |cart|
    ensures forall i :: 0 <= i < |r| ==> r[i].id == cart[i].id && r[i].price == cart[i].price
    ensures forall i :: 0 <= i < |r| ==> r[i].quantity == cart[i].quantity + (if cart[i].id == id then 1 else 0)
    ensures forall i :: 0 <= i < |r| ==> r[i] == cart[i].(quantity := r[i].quantity)
  {
    seq(|cart|, i requires 0 <= i < |cart| =>
      if cart[i].id == id then cart[i].(quantity := cart[i].quantity + 1) else cart[i])
  }

  /**
    "Add to Cart": a product already in the cart gets one more item on its
    line; a new product gets a line of its own at the end, with one item.
   */
  function AddToCart(cart: seq<CartLine>, p: Product): (r: seq<CartLine>)
    ensures InCart(cart, p.id) ==> |r| == |cart|
    ensures InCart(cart, p.id) ==> r == Bump(cart, p.id)
    ensures !InCart(cart, p.id) ==> r == cart + [CartLine(p.id, p.name, p.price, p.image, 1)]
    ensures InCart(r, p.id)
  {
    if InCart(cart, p.id) then Bump(cart, p.id)
    else
      var r := cart + [CartLine(p.id, p.name, p.price, p.image, 1)];
      assert r[|cart|].id == p.id;
      r
  }

  /** Being in the cart, split at the first line. */
  lemma InCartCons(cart: seq<CartLine>, id: int)
    requires |cart| > 0
    ensures InCart(cart, id) <==> cart[0].id == id || InCart(cart[1..], id)
  {
    if InCart(cart[1..], id) {
      var i :| 0 <= i < |cart[1..]| && cart[1..][i].id == id;
      assert cart[i + 1].id == id;
    }
    if cart[0].id != id && InCart(cart, id) {
      var i :| 0 <= i < |cart| && cart[i].id == id;
      assert cart[1..][i - 1].id == id;
    }
  }

  lemma {:induction false} QuantityAppend(cart: seq<CartLine>, line: CartLine, id: int)
    ensures QuantityOf(cart + [line], id) == QuantityOf(cart, id) + (if line.id == id then line.quantity else 0)
  {
    if |cart| > 0 {
      assert (cart + [line])[1..] == cart[1..] + [line];
      QuantityAppend(cart[1..], line, id);
    }
  }

  lemma {:induction false} QuantityBump(cart: seq<CartLine>, id: int, other: int)
    requires WellFormed(cart)
    ensures QuantityOf(Bump(cart, id), other)
            == QuantityOf(cart, other) + (if id == other && InCart(cart, id) then 1 else 0)
  {
    if |cart| > 0 {
      QuantityBump(cart[1..], id, other);
      assert Bump(cart, id)[1..] == Bump(cart[1..], id);
      InCartCons(cart, id);
      if cart[0].id == id {
        assert !InCart(cart[1..], id);
      }
    }
  }

  /** Adding a product raises its count by one and leaves every other count alone. */
  lemma AddCountsOneMore(cart: seq<CartLine>, p: Product, other: int)
    requires WellFormed(cart)
    ensures QuantityOf(AddToCart(cart, p), other) == QuantityOf(cart, other) + (if other == p.id then 1 else 0)
  {
    if InCart(cart, p.id) {
      QuantityBump(cart, p.id, other);
    } else {
      QuantityAppend(cart, CartLine(p.id, p.name, p.price, p.image, 1), other);
    }
  }

  /** Adding keeps one line per product with at least one item on each. */
  lemma AddKeepsWellFormed(cart: seq<CartLine>, p: Product)
    requires WellFormed(cart)
    ensures WellFormed(AddToCart(cart, p))
  {
  }

  /** The cart's price for this product id matches the product's price. */
  predicate PricedAs(cart: seq<CartLine>, p: Product) {
    forall i :: 0 <= i < |cart| && cart[i].id == p.id ==> cart[i].price == p.price
  }

  /** A cart of non-negative prices and quantities never totals below zero. */
  lemma {:induction false} TotalPriceNonNegative(cart: seq<CartLine>)
    requires forall i :: 0 <= i < |cart| ==> cart[i].price >= 0 && cart[i].quantity >= 0
    ensures TotalPrice(cart) >= 0
  {
    if |cart| > 0 {
      TotalPriceNonNegative(cart[1..]);
      assert cart[0].price * cart[0].quantity >= 0;
    }
  }

  lemma {:induction false} TotalAppend(cart: seq<CartLine>, line: CartLine)
    ensures TotalPrice(cart + [line]) == TotalPrice(cart) + line.price * line.quantity
  {
    if |cart| > 0 {
      assert (cart + [line])[1..] == cart[1..] + [line];
      TotalAppend(cart[1..], line);
    }
  }

  /** Dropping the first line keeps a cart well formed and priced as before. */
  lemma TailFacts(cart: seq<CartLine>, p: Product)
    requires |cart| > 0 && PricedAs(cart, p) && WellFormed(cart)
    ensures PricedAs(cart[1..], p) && WellFormed(cart[1..])
    ensures cart[0].id == p.id ==> !InCart(cart[1..], p.id)
  {
    var t := cart[1..];
    assert forall i :: 0 <= i < |t| ==> t[i] == cart[i + 1];
  }

  lemma {:induction false} TotalBump(cart: seq<CartLine>, p: Product)
    requires PricedAs(cart, p) && WellFormed(cart)
    ensures TotalPrice(Bump(cart, p.id)) == TotalPrice(cart) + (if InCart(cart, p.id) then p.price else 0)
  {
    if |cart| > 0 {
      TailFacts(cart, p);
      TotalBump(cart[1..], p);
      var b := Bump(cart, p.id);
      assert b[1..] == Bump(cart[1..], p.id);
      assert TotalPrice(b) == b[0].price * b[0].quantity + TotalPrice(b[1..]);
      InCartCons(cart, p.id);
      if cart[0].id == p.id {
        var c := cart[0];
        assert b[0].quantity == c.quantity + 1 && b[0].price == c.price == p.price;
        assert c.price * (c.quantity + 1) == c.price * c.quantity + c.price;
      } else {
        assert b[0] == cart[0];
      }
    }
  }

  /** Adding a product raises the total by exactly its price. */
  lemma AddRaisesTotal(cart: seq<CartLine>, p: Product)
    requires WellFormed(cart) && PricedAs(cart, p)
    ensures TotalPrice(AddToCart(cart, p)) == TotalPrice(cart) + p.price
  {
    if InCart(cart, p.id) {
      TotalBump(cart, p);
    } else {
      TotalAppend(cart, CartLine(p.id, p.name, p.price, p.image, 1));
    }
  }

  /** The lines that survive removing `id`. */
  function OtherThan(id: int): CartLine -> bool {
    (l: CartLine) => l.id != id
  }

  /** "Remove": every line with this id goes, the others stay in order. */
  function RemoveFromCart(cart: seq<CartLine>, id: int): (r: seq<CartLine>)
    ensures !InCart(r, id)
    ensures IsSubsequence(r, cart)
    ensures forall l :: l in r <==> l in cart && l.id != id
  {
    var r := Filter(cart, OtherThan(id));
    assert forall i :: 0 <= i < |r| ==> r[i] in r;
    r
  }

  /** Removing a product that was just added for the first time gives the old cart back. */
  lemma RemoveUndoesFirstAdd(cart: seq<CartLine>, p: Product)
    requires !InCart(cart, p.id)
    ensures RemoveFromCart(AddToCart(cart, p), p.id) == cart
  {
    var line := CartLine(p.id, p.name, p.price, p.image, 1);
    FilterAppend(cart, [line], OtherThan(p.id));
    FilterAll(cart, OtherThan(p.id));
  }

  /** Removing an id the cart does not hold changes nothing. */
  lemma RemoveAbsentIsNoOp(cart: seq<CartLine>, id: int)
    requires !InCart(cart, id)
    ensures RemoveFromCart(cart, id) == cart
  {
    assert forall l :: l in cart ==> OtherThan(id)(l);
    FilterAll(cart, OtherThan(id));
  }

  /** Removing keeps one line per product with at least one item on each. */
  lemma {:induction false} RemoveKeepsWellFormed(cart: seq<CartLine>, id: int)
    requires WellFormed(cart)
    ensures WellFormed(RemoveFromCart(cart, id))
  {
    if |cart| > 0 {
      var tail := cart[1..];
      WellFormedTail(cart);
      RemoveKeepsWellFormed(tail, id);
      var t := RemoveFromCart(tail, id);
      if cart[0].id != id {
        assert RemoveFromCart(cart, id) == [cart[0]] + t;
        assert forall l :: l in t ==> l.id != cart[0].id;
        ConsWellFormed(cart[0], t);
      } else {
        assert RemoveFromCart(cart, id) == t;
      }
    }
  }

  /** The tail of a well-formed cart is well formed and shares no id with the head. */
  lemma WellFormedTail(cart: seq<CartLine>)
    requires |cart| > 0 && WellFormed(cart)
    ensures WellFormed(cart[1..])
    ensures forall l :: l in cart[1..] ==> l.id != cart[0].id
  {
    var tail := cart[1..];
    assert forall i :: 0 <= i < |tail| ==> tail[i] == cart[i + 1];
  }

  /** A line with a new id and at least one item can go in front of a well-formed cart. */
  lemma ConsWellFormed(x: CartLine, t: seq<CartLine>)
    requires WellFormed(t) && x.quantity >= 1
    requires forall l :: l in t ==> l.id != x.id
    ensures WellFormed([x] + t)
  {
    var r := [x] + t;
    forall i, j | 0 <= i < j < |r|
      ensures r[i].id != r[j].id
    {
      assert r[j] == t[j - 1];
      if i > 0 {
        assert r[i] == t[i - 1];
      }
    }
    assert forall i :: 0 < i < |r| ==> r[i] == t[i - 1];
  }

  /** Removing a line takes its price times quantity off the total. */
  lemma {:induction false} RemoveLowersTotal(cart: seq<CartLine>, id: int)
    requires WellFormed(cart)
    ensures TotalPrice(RemoveFromCart(cart, id))
            == TotalPrice(cart) - (if InCart(cart, id) then LineOf(cart, id).price * LineOf(cart, id).quantity else 0)
  {
    if |cart| > 0 {
      RemoveLowersTotal(cart[1..], id);
      InCartCons(cart, id);
      if cart[0].id == id {
        assert !InCart(cart[1..], id);
      }
    }
  }

  /** The first line with this id. */
  function LineOf(cart: seq<CartLine>, id: int): (l: CartLine)
    requires InCart(cart, id)
    ensures l in cart && l.id == id
  {
    if cart[0].id == id then cart[0]
    else
      var i :| 0 <= i < |cart| && cart[i].id == id;
      assert cart[1..][i - 1].id == id;
      LineOf(cart[1..], id)
  }

  /** The checkout button is enabled only with something in the cart. */
  predicate CheckoutEnabled(cart: seq<CartLine>) {
    |cart| != 0
  }

  /** After checkout settles the cart is empty: nothing to pay, and the button is disabled again. */
  function Checkout(cart: seq<CartLine>): (r: seq<CartLine>)
    ensures TotalPrice(r) == 0 && !CheckoutEnabled(r)
  {
    []
  }

  lemma AddEnablesCheckout(cart: seq<CartLine>, p: Product)
    ensures CheckoutEnabled(AddToCart(cart, p))
  {
  }

  /** The order history page `page` (from 1). */
  function OrderPage(page: int): (r: seq<Order>)
    ensures |r| <= OrdersPerPage
    ensures page >= 1 ==> r == PageFromZero(Orders, page - 1, OrdersPerPage)
  {
    PageFromOne(Orders, page, OrdersPerPage)
  }

  /** The three mock orders fill exactly one page. */
  lemma OrdersFitOnePage()
    ensures TotalPages(|Orders|, OrdersPerPage) == 1
    ensures OrderPage(1) == Orders
    ensures OrderPage(2) == []
  {
  }
}
