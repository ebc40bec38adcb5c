/**
  The staking page: an amount, a pool chosen from a `<select>`, a
  stake/unstake switch, and the (single-page) pool table.
 */
module Staking {
  import opened Wrappers
  import opened Text
  import opened Amount
  import opened Paging

  datatype Pool = Pool(id: int, name: string, apr: string, totalStaked: string, yourStake: string)

  const Pools: seq<Pool> := [
    Pool(1, "BARK Staking", "12%", "1,000,000 BARK", "1,000 BARK"),
    Pool(2, "SOL-BARK LP", "20%", "500,000 LP", "100 LP"),
    Pool(3, "USDC-BARK LP", "15%", "750,000 LP", "50 LP")
  ]

  const PoolsPerPage: nat := 3

  datatype Form = Form(amount: string, selectedPool: Pool, isStaking: bool, isLoading: bool)

  /** First render: no amount, the first pool, staking mode. */
  const InitialForm := Form("", Pools[0], true, false)

  /** The stake/unstake button needs a positive amount and nothing else. */
  predicate IsFormValid(f: Form)
    ensures IsFormValid(f) <==> IsPositiveAmount(f.amount)
    ensures IsFormValid(f) ==> f.amount[0] != '-'
  {
    PositiveFieldIsParse(f.amount);
    PositiveField(f.amount)
  }

  /** The switch button flips the mode and keeps the amount and pool. */
  function ToggleMode(f: Form): (r: Form)
    ensures r.isStaking != f.isStaking
    ensures r == f.(isStaking := r.isStaking)
  {
    f.(isStaking := !f.isStaking)
  }

  lemma ToggleModeTwice(f: Form)
    ensures ToggleMode(ToggleMode(f)) == f
    ensures IsFormValid(ToggleMode(f)) == IsFormValid(f)
  {
  }

  /** The verb in the confirmation toast. */
  function ActionLabel(isStaking: bool): (r: string)
    ensures r == "Staked" <==> isStaking
    ensures r == "Staked" || r == "Unstaked"
  {
    if isStaking then "Staked" else "Unstaked"
  }

  /** The label of the switch button names the other mode. */
  function SwitchLabel(isStaking: bool): (r: string)
    ensures r == "Switch to Unstake" <==> isStaking
    ensures r == "Switch to Unstake" || r == "Switch to Stake"
  {
    if isStaking then "Switch to Unstake" else "Switch to Stake"
  }

  /** Pool `i` is the first one with the id `id`. */
  predicate FirstWithId(pools: seq<Pool>, id: int, i: int) {
    0 <= i < |pools| && pools[i].id == id && forall j :: 0 <= j < i ==> pools[j].id != id
  }

  /** `pools.find(p => p.id === id)`: the first pool whose id is `id`. */
  function FindPool(pools: seq<Pool>, id: int): (r: Option<Pool>)
    ensures r.Some? ==> r.value in pools && r.value.id == id
    ensures r.None? ==> forall i :: 0 <= i < |pools| ==> pools[i].id != id
    ensures r.Some? ==> exists i :: FirstWithId(pools, id, i) && pools[i] == r.value
  {
    if |pools| == 0 then None
    else if pools[0].id == id then
      assert FirstWithId(pools, id, 0);
      Some(pools[0])
    else
      var r := FindPool(pools[1..], id);
      if r.Some? then
        var i :| FirstWithId(pools[1..], id, i) && pools[1..][i] == r.value;
        assert FirstWithId(pools, id, i + 1);
        r
      else r
  }

  /**
    The pool `<select>`: the pool whose id equals `parseInt(value)`, falling
    back to the first pool when nothing matches (a `NaN` matches nothing).
   */
  function SelectPool(f: Form, value: string): (r: Form)
    ensures r.selectedPool in Pools
    ensures r == f.(selectedPool := r.selectedPool)
    ensures ParseInt(value).Some? && FindPool(Pools, ParseInt(value).value).Some? ==> r.selectedPool.id == ParseInt(value).value
    ensures ParseInt(value).None? ==> r.selectedPool == Pools[0]
    ensures ParseInt(value).Some? && FindPool(Pools, ParseInt(value).value).None? ==> r.selectedPool == Pools[0]
  {
    var found := match ParseInt(value)
      case Some(id) => FindPool(Pools, id)
      case None => None;
    f.(selectedPool := found.GetOr(Pools[0]))
  }

  /** Every option the select renders selects its own pool; an unknown value selects the first. */
  lemma SelectRoundTrip(f: Form, k: nat)
    ensures 1 <= k <= 3 ==> SelectPool(f, NatToString(k)).selectedPool == Pools[k - 1]
    ensures k > 3 || k == 0 ==> SelectPool(f, NatToString(k)).selectedPool == Pools[0]
  {
    ParseIntNatString(k);
  }

  /** After the simulated call settles only the amount is cleared: pool and mode are kept. */
  function StakeSettled(f: Form): (r: Form)
    ensures r.amount == "" && !r.isLoading
    ensures r.selectedPool == f.selectedPool && r.isStaking == f.isStaking
  {
    f.(amount := "", isLoading := false)
  }

  lemma SettledFormIsInvalid(f: Form)
    ensures !IsFormValid(StakeSettled(f))
    ensures !IsFormValid(InitialForm)
  {
  }

  function PoolPage(page: int): (r: seq<Pool>)
    ensures |r| <= PoolsPerPage
    ensures page >= 1 ==> r == PageFromZero(Pools, page - 1, PoolsPerPage)
  {
    PageFromOne(Pools, page, PoolsPerPage)
  }

  lemma PoolsFitOnePage()
    ensures TotalPages(|Pools|, PoolsPerPage) == 1
    ensures PoolPage(1) == Pools
  {
  }
}
