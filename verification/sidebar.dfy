/**
  The layout sidebar: navigation items with their active highlighting, the
  theme switch, and the collapse toggle with its keyboard handler.
 */
module Sidebar {
  import opened Wrappers
  import opened Text

  datatype SubItem = SubItem(name: string, href: string)

  /** A navigation item; an item with sub-items is rendered as a collapsible group. */
  datatype NavItem = NavItem(name: string, href: string, subItems: Option<seq<SubItem>>)

  const NavItems: seq<NavItem> := [
    NavItem("Overview", "/blinkboard", None),
    NavItem("Assets", "/blinkboard/assets", Some([
      SubItem("NFT", "/blinkboard/assets/nft"),
      SubItem("Tokens", "/blinkboard/assets/tokens")])),
    NavItem("Payments", "/blinkboard/payments", None),
    NavItem("Donations", "/blinkboard/donations", None),
    NavItem("Commerce", "/blinkboard/commerce", None),
    NavItem("Gift", "/blinkboard/gift", None),
    NavItem("Swap", "/blinkboard/swap", None),
    NavItem("Staking", "/blinkboard/staking", None),
    NavItem("DAO", "/blinkboard/dao", None),
    NavItem("Settings", "/blinkboard/settings", None)
  ]

  /** A group is highlighted for every path that starts with its link; a plain link only for its own path. */
  predicate ItemActive(item: NavItem, pathname: string)
    ensures pathname == item.href ==> ItemActive(item, pathname)
    ensures ItemActive(item, pathname) ==> |pathname| >= |item.href| && pathname[..|item.href|] == item.href
  {
    if item.subItems.Some? then StartsWith(pathname, item.href) else pathname == item.href
  }

  /** A sub-item is highlighted only on its own path: its link is a prefix of the path and as long as it. */
  predicate SubItemActive(sub: SubItem, pathname: string)
    ensures SubItemActive(sub, pathname) ==> StartsWith(pathname, sub.href) && |pathname| == |sub.href|
  {
    pathname == sub.href
  }

  /** A group stays highlighted on every deeper path below an active one. */
  lemma GroupActiveOnDeeperPaths(item: NavItem, pathname: string, rest: string)
    requires item.subItems.Some? && ItemActive(item, pathname)
    ensures ItemActive(item, pathname + rest)
  {
    assert (pathname + rest)[..|item.href|] == pathname[..|item.href|];
  }

  /** Every sub-item's link extends its group's link. */
  predicate Nested(item: NavItem) {
    item.subItems.Some? ==>
      forall i :: 0 <= i < |item.subItems.value| ==> StartsWith(item.subItems.value[i].href, item.href)
  }

  lemma NavItemsNested()
    ensures forall i :: 0 <= i < |NavItems| ==> Nested(NavItems[i])
  {
    var assets := NavItems[1];
    assert StartsWith(assets.subItems.value[0].href, assets.href);
    assert StartsWith(assets.subItems.value[1].href, assets.href);
  }

  /** On a nested item, an active sub-item always lights up its group as well. */
  lemma ActiveSubItemActivatesGroup(item: NavItem, i: int, pathname: string)
    requires Nested(item) && item.subItems.Some? && 0 <= i < |item.subItems.value|
    requires SubItemActive(item.subItems.value[i], pathname)
    ensures ItemActive(item, pathname)
  {
  }

  /** Plain links have distinct paths, so at most one of them is highlighted at a time. */
  lemma AtMostOneLinkActive(pathname: string, i: int, j: int)
    requires 0 <= i < j < |NavItems|
    requires NavItems[i].subItems.None? && NavItems[j].subItems.None?
    ensures !(ItemActive(NavItems[i], pathname) && ItemActive(NavItems[j], pathname))
  {
  }

  /**
    The group test compares characters, not path segments: a sibling path
    that merely begins with the group's link highlights the group too, and
    the overview link is not highlighted on any page below it.
   */
  lemma PrefixIsNotSegmentAware()
    ensures ItemActive(NavItems[1], "/blinkboard/assetsX")
    ensures ItemActive(NavItems[1], "/blinkboard/assets")
    ensures !ItemActive(NavItems[0], "/blinkboard/payments")
  {
    assert "/blinkboard/assetsX"[..|"/blinkboard/assets"|] == "/blinkboard/assets";
  }

  /** `theme === 'dark' ? 'light' : 'dark'`: any theme other than dark, unset included, becomes dark. */
  function ToggleTheme(theme: Option<string>): (r: Option<string>)
    ensures r == Some("light") <==> theme == Some("dark")
    ensures r == Some("light") || r == Some("dark")
  {
    if theme == Some("dark") then Some("light") else Some("dark")
  }

  /** Switching twice returns to the start exactly for the two named themes; "system" ends as light. */
  lemma ToggleThemeTwice(theme: Option<string>)
    ensures ToggleTheme(ToggleTheme(theme)) == theme <==> theme == Some("dark") || theme == Some("light")
    ensures ToggleTheme(ToggleTheme(Some("system"))) == Some("light")
  {
  }

  /** The theme button's label names the theme it switches to. */
  function ThemeLabel(theme: Option<string>): (r: string)
    ensures theme == Some("dark") <==> r == "Switch to light mode"
    ensures r == "Switch to light mode" || r == "Switch to dark mode"
  {
    if theme == Some("dark") then "Switch to light mode" else "Switch to dark mode"
  }

  /** The collapse button: a click flips the state. */
  function Click(collapsed: bool): (r: bool)
    ensures r != collapsed
  {
    !collapsed
  }

  /** The button's key handler flips the state on Enter and on Space, and ignores every other key. */
  function KeyDown(collapsed: bool, key: string): (r: bool)
    ensures r != collapsed <==> key == "Enter" || key == " "
  {
    if key == "Enter" || key == " " then !collapsed else collapsed
  }

  /**
    Enter and Space also make the browser click the button, so both handlers
    can run for one key press. When each runs on the state the other left,
    the two flips cancel. Whether React renders between the two events, so
    that the click reads the state the key handler wrote, is not modelled.
   */
  lemma KeyThenClickCancels(collapsed: bool, key: string)
    requires key == "Enter" || key == " "
    ensures Click(KeyDown(collapsed, key)) == collapsed
  {
  }

  /** The sidebar's width class. */
  function WidthClass(collapsed: bool): (r: string)
    ensures r == "w-20" <==> collapsed
    ensures r == "w-20" || r == "w-64"
  {
    if collapsed then "w-20" else "w-64"
  }
}
