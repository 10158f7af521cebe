/** Selecting a sub-group of an aggregate: weighted rotation until one is found that may and can serve. */
module SubGroupSelection {
  import opened Wrappers
  import opened Sums
  import Failover

  /** `models` are the models a sub-group is known to serve; `until` is the end of its last cooldown. */
  datatype Item = Item(name: string, id: nat, priority: int, models: Option<set<string>>, until: Option<int>, current: int)

  /** A request for `model`, or for any if it is "". `keyed` are the sub-groups that have active keys. */
  datatype Query = Query(model: string, excluded: set<string>, keyed: set<nat>, now: int)

  // ----- Specification -----

  predicate Wanted(q: Query, it: Item) {
    it.name !in q.excluded && (q.model != "" ==> it.models.Some? && q.model in it.models.value)
  }

  predicate Ready(q: Query, it: Item) {
    Wanted(q, it) && it.id in q.keyed
  }

  predicate Cooling(q: Query, it: Item) {
    it.until.Some? && q.now < it.until.value
  }

  predicate Open(q: Query, it: Item) {
    Ready(q, it) && !Cooling(q, it)
  }

  predicate Tiered(items: seq<Item>) {
    exists i :: 0 <= i < |items| && items[i].priority != items[0].priority
  }

  const NO_TIER := -1

  /** The most preferred tier with an open sub-group. */
  function Tier(q: Query, items: seq<Item>): int {
    if items == [] then NO_TIER
    else
      var best, it := Tier(q, items[..|items| - 1]), items[|items| - 1];
      if Open(q, it) && (best == NO_TIER || it.priority < best) then it.priority else best
  }

  predicate InTier(q: Query, items: seq<Item>, it: Item) {
    Tiered(items) ==> it.priority == Tier(q, items)
  }

  predicate Eligible(q: Query, items: seq<Item>, it: Item) {
    Ready(q, it) && InTier(q, items, it)
  }

  predicate SomeOpen(q: Query, items: seq<Item>) {
    exists i :: 0 <= i < |items| && Eligible(q, items, items[i]) && !Cooling(q, items[i])
  }

  /** An eligible sub-group that is not cooling, else the eligible one whose cooldown ends first. */
  predicate IsChoice(q: Query, items: seq<Item>, r: Option<nat>) {
    if |items| == 1 then r == (if Ready(q, items[0]) then Some(0) else None)
    else
      && (r.Some? ==> r.value < |items| && Eligible(q, items, items[r.value]))
      && (r.None? ==> forall i :: 0 <= i < |items| ==> !Eligible(q, items, items[i]))
      && (r.Some? && Cooling(q, items[r.value]) ==>
            && !SomeOpen(q, items)
            && forall i :: 0 <= i < |items| && Eligible(q, items, items[i]) && items[i].until.Some? ==>
                 items[r.value].until.value <= items[i].until.value)
  }

  // ----- One pick of the rotation -----

  function Currents(items: seq<Item>): seq<int> {
    seq(|items|, i requires 0 <= i < |items| => items[i].current)
  }

  predicate AllPositive(eff: seq<int>) {
    forall i :: 0 <= i < |eff| ==> eff[i] > 0
  }

  predicate DistinctIds(items: seq<Item>) {
    forall i, j :: 0 <= i < j < |items| ==> items[i].id != items[j].id
  }

  /** Only the balances differ. */
  predicate SameItems(us: seq<Item>, vs: seq<Item>) {
    |us| == |vs| && forall i :: 0 <= i < |us| ==> vs[i] == us[i].(current := vs[i].current)
  }

  /** All balances are raised by the weights; `b` has the largest, or is preferred among the largest, and pays the total. */
  predicate IsPick(us: seq<Item>, eff: seq<int>, vs: seq<Item>, b: nat) {
    && |us| == |eff| == |vs| && b < |us| && SameItems(us, vs)
    && (forall i :: 0 <= i < |us| ==> vs[i].current == us[i].current + eff[i] - (if i == b then Sum(eff) else 0))
    && IsFavourite(us, eff, |us|, b)
  }

  /** Among the first n, `b` has the largest raised balance, then the smallest priority, then the first position. */
  predicate IsFavourite(us: seq<Item>, eff: seq<int>, n: nat, b: nat) {
    && n <= |us| == |eff| && b < n
    && (forall i :: 0 <= i < n ==> us[i].current + eff[i] <= us[b].current + eff[b])
    && (forall i :: 0 <= i < n && us[i].current + eff[i] == us[b].current + eff[b] ==> us[b].priority <= us[i].priority)
    && (forall i :: 0 <= i < b && us[i].current + eff[i] == us[b].current + eff[b] ==> us[b].priority < us[i].priority)
  }

  lemma {:induction false} FavouriteStep(us: seq<Item>, eff: seq<int>, n: nat, b: nat)
    requires n < |us| == |eff| && if n == 0 then b == 0 else IsFavourite(us, eff, n, b)
    ensures var x, y := us[n].current + eff[n], us[b].current + eff[b];
            IsFavourite(us, eff, n + 1, if n == 0 || x > y || (x == y && us[n].priority < us[b].priority) then n else b)
  {
  }

  function Raised(it: Item, w: int): Item {
    it.(current := it.current + w)
  }

  /** The loop has raised the first n balances, whose favourite is `best`. */
  ghost predicate Halfway(us: seq<Item>, eff: seq<int>, cs: seq<Item>, n: nat, total: int, best: nat) {
    && |cs| == |us| == |eff| && n <= |us| && best < |us| && total == Sum(eff[..n])
    && (forall i :: 0 <= i < n ==> cs[i] == Raised(us[i], eff[i]))
    && (forall i :: n <= i < |us| ==> cs[i] == us[i])
    && (if n == 0 then best == 0 else IsFavourite(us, eff, n, best))
  }

  lemma {:induction false} HalfwayStarts(us: seq<Item>, eff: seq<int>)
    requires 0 < |us| == |eff|
    ensures Halfway(us, eff, us, 0, 0, 0)
  {
  }

  lemma {:induction false} HalfwayOn(us: seq<Item>, eff: seq<int>, cs: seq<Item>, n: nat, total: int, best: nat, ds: seq<Item>)
    requires Halfway(us, eff, cs, n, total, best) && n < |us| && ds == cs[n := Raised(cs[n], eff[n])]
    ensures Halfway(us, eff, ds, n + 1, total + eff[n],
                    if n == 0 || ds[n].current > ds[best].current
                       || (ds[n].current == ds[best].current && ds[n].priority < ds[best].priority) then n else best)
  {
    FavouriteStep(us, eff, n, best);
    assert eff[..n + 1] == eff[..n] + [eff[n]];
    SumPush(eff[..n], eff[n]);
    hide Sum, IsFavourite;
  }

  lemma {:induction false} PickMade(us: seq<Item>, eff: seq<int>, cs: seq<Item>, total: int, b: nat, vs: seq<Item>)
    requires 0 < |us| && Halfway(us, eff, cs, |us|, total, b) && vs == cs[b := Raised(cs[b], -total)]
    ensures IsPick(us, eff, vs, b)
  {
    assert eff[..|us|] == eff;
    hide Sum, IsFavourite;
  }

  lemma {:induction false} PickKeepsSum(us: seq<Item>, eff: seq<int>, vs: seq<Item>, b: nat)
    requires IsPick(us, eff, vs, b)
    ensures Sum(Currents(vs)) == Sum(Currents(us))
  {
    hide Sum;
    var cs := Currents(us);
    var raised := seq(|us|, i requires 0 <= i < |us| => us[i].current + eff[i]);
    assert forall i :: 0 <= i < |us| ==> cs[i] == us[i].current;
    assert Currents(vs) == raised[b := raised[b] - Sum(eff)];
    hide *;
    SumAdd(cs, eff, raised);
    SumUpdate(raised, b, raised[b] - Sum(eff));
  }

  // ----- The rotation ends -----

  /** Balances of sub-groups not seen since the start have only grown, and no other has fallen far below. */
  ghost predicate Bounded(vs: seq<Item>, eff: seq<int>, low: int, sum: int, unseen: set<nat>) {
    && |vs| == |eff| && AllPositive(eff) && Sum(Currents(vs)) == sum
    && (forall i :: 0 <= i < |vs| ==> vs[i].current >= low - Sum(eff))
    && (forall i :: i in unseen ==> i < |vs| && vs[i].current >= low)
  }

  function Ceiling(n: nat, eff: seq<int>, low: int, sum: int): int {
    sum - (n - 1) * (low - Sum(eff))
  }

  /** A sub-group cannot be passed over for ever: its balance grows, but no further than the others allow. */
  lemma {:induction false} BelowCeiling(vs: seq<Item>, eff: seq<int>, low: int, sum: int, unseen: set<nat>, u: nat)
    requires Bounded(vs, eff, low, sum, unseen) && u in unseen
    ensures vs[u].current <= Ceiling(|vs|, eff, low, sum)
  {
    SumRest(Currents(vs), u, low - Sum(eff));
  }

  lemma {:induction false} StillBounded(us: seq<Item>, vs: seq<Item>, eff: seq<int>, low: int, sum: int, unseen: set<nat>, b: nat)
    requires Bounded(us, eff, low, sum, unseen) && unseen != {} && IsPick(us, eff, vs, b)
    ensures Bounded(vs, eff, low, sum, unseen - {b})
    ensures forall u :: u in unseen && u != b ==> vs[u].current > us[u].current
  {
    PickKeepsSum(us, eff, vs, b);
    var u :| u in unseen;
    hide Sum, Currents;
    assert us[u].current + eff[u] <= us[b].current + eff[b];
  }

  lemma {:induction false} Lowest(us: seq<Item>) returns (low: int)
    ensures forall i :: 0 <= i < |us| ==> low <= us[i].current
  {
    low := 0;
    if us != [] {
      var rest := Lowest(us[..|us| - 1]);
      low := if us[|us| - 1].current < rest then us[|us| - 1].current else rest;
    }
  }

  lemma {:induction false} AtStart(us: seq<Item>, eff: seq<int>, low: int, unseen: set<nat>)
    requires |us| == |eff| && AllPositive(eff) && forall i :: 0 <= i < |us| ==> low <= us[i].current
    requires forall i :: i in unseen ==> i < |us|
    ensures Bounded(us, eff, low, Sum(Currents(us)), unseen)
  {
    SumAtLeast(eff, 0);
  }

  // ----- The search -----

  /** What is known of the sub-groups seen so far, none of which was open. */
  predicate Searched(q: Query, us: seq<Item>, unseen: set<nat>, fallback: Option<nat>) {
    && (forall i :: 0 <= i < |us| && i !in unseen && Eligible(q, us, us[i]) ==>
          Cooling(q, us[i]) && fallback.Some? && fallback.value < |us|)
    && (fallback.Some? ==>
          && fallback.value < |us| && fallback.value !in unseen
          && Eligible(q, us, us[fallback.value]) && Cooling(q, us[fallback.value])
          && forall i :: 0 <= i < |us| && i !in unseen && Eligible(q, us, us[i]) && us[i].until.Some? ==>
               us[fallback.value].until.value <= us[i].until.value)
  }

  lemma {:induction false} SearchStep(q: Query, us: seq<Item>, unseen: set<nat>, fallback: Option<nat>, b: nat)
    requires Searched(q, us, unseen, fallback) && b in unseen && b < |us|
    requires Eligible(q, us, us[b]) ==> Cooling(q, us[b])
    ensures var better := fallback.None? || (us[b].until.Some? && us[b].until.value < us[fallback.value].until.value);
            Searched(q, us, unseen - {b}, if Eligible(q, us, us[b]) && better then Some(b) else fallback)
  {
    hide Eligible;
  }

  /** Everything was seen and nothing was open. */
  lemma {:induction false} SearchDone(q: Query, us: seq<Item>, fallback: Option<nat>)
    requires Searched(q, us, {}, fallback) && |us| != 1
    ensures IsChoice(q, us, fallback)
  {
    hide Eligible;
  }

  lemma {:induction false} OpenIsChoice(q: Query, us: seq<Item>, b: nat)
    requires b < |us| && |us| != 1 && Eligible(q, us, us[b]) && !Cooling(q, us[b])
    ensures IsChoice(q, us, Some(b))
  {
  }

  /** The sub-groups seen are those whose ids are in `visited`. */
  ghost predicate Tracks(us: seq<Item>, unseen: set<nat>, visited: set<nat>) {
    && |visited| + |unseen| == |us|
    && (forall i :: i in unseen ==> i < |us|)
    && (forall i :: 0 <= i < |us| ==> (i in unseen <==> us[i].id !in visited))
  }

  lemma {:induction false} TrackNone(us: seq<Item>) returns (unseen: set<nat>)
    ensures Tracks(us, unseen, {})
    ensures forall i :: i in unseen <==> 0 <= i < |us|
  {
    unseen := {};
    for k := 0 to |us|
      invariant |unseen| == k && forall i :: i in unseen <==> 0 <= i < k
    {
      unseen := unseen + {k};
    }
  }

  lemma {:induction false} TrackOne(us: seq<Item>, unseen: set<nat>, visited: set<nat>, b: nat)
    requires Tracks(us, unseen, visited) && DistinctIds(us) && b in unseen
    ensures Tracks(us, unseen - {b}, visited + {us[b].id})
  {
  }

  lemma {:induction false} TrackedSeen(us: seq<Item>, unseen: set<nat>, visited: set<nat>, b: nat)
    requires Tracks(us, unseen, visited) && b < |us| && us[b].id in visited
    ensures unseen - {b} == unseen
  {
  }

  lemma {:induction false} TrackedUnseen(us: seq<Item>, unseen: set<nat>, visited: set<nat>, b: nat)
    requires Tracks(us, unseen, visited) && b < |us| && us[b].id !in visited
    ensures b in unseen
  {
  }

  lemma {:induction false} PickIs(us: seq<Item>, vs: seq<Item>, eff: seq<int>, ws: seq<Item>, b: nat)
    requires SameItems(us, vs) && IsPick(vs, eff, ws, b)
    ensures SameItems(us, ws) && b < |us| == |ws|
  {
  }

  /** Where the search stands: `us` were the sub-groups at its start and `vs` are those now. */
  ghost predicate Going(q: Query, us: seq<Item>, vs: seq<Item>, eff: seq<int>, low: int, sum: int,
                        unseen: set<nat>, visited: set<nat>, fallback: Option<nat>) {
    && SameItems(us, vs) && DistinctIds(us)
    && Tracks(us, unseen, visited) && Bounded(vs, eff, low, sum, unseen) && Searched(q, us, unseen, fallback)
  }

  lemma {:induction false} GoingStarts(q: Query, us: seq<Item>, eff: seq<int>) returns (low: int, unseen: set<nat>)
    requires |us| == |eff| && AllPositive(eff) && DistinctIds(us)
    ensures Going(q, us, us, eff, low, Sum(Currents(us)), unseen, {}, None)
    ensures forall i :: i in unseen <==> 0 <= i < |us|
  {
    low := Lowest(us);
    unseen := TrackNone(us);
    AtStart(us, eff, low, unseen);
    hide Bounded, Tracks, Eligible, Sum;
  }

  lemma {:induction false} GoingOn(q: Query, us: seq<Item>, vs: seq<Item>, eff: seq<int>, low: int, sum: int,
                                   unseen: set<nat>, visited: set<nat>, fallback: Option<nat>)
    requires Going(q, us, vs, eff, low, sum, unseen, visited, fallback)
    ensures |vs| == |us| == |eff| && |visited| + |unseen| == |us|
    ensures Searched(q, us, unseen, fallback)
    ensures forall i :: i in unseen ==> i < |us| && vs[i].current <= Ceiling(|us|, eff, low, sum)
    ensures fallback.Some? ==> fallback.value < |us| && us[fallback.value].until.Some? && vs[fallback.value].until == us[fallback.value].until
  {
    hide Eligible, Sum, Currents, Ceiling;
    forall i | i in unseen
      ensures vs[i].current <= Ceiling(|us|, eff, low, sum)
    {
      BelowCeiling(vs, eff, low, sum, unseen, i);
    }
  }

  /** A sub-group seen before was picked again: the others have caught up. */
  lemma {:induction false} PickedAgain(q: Query, us: seq<Item>, vs: seq<Item>, ws: seq<Item>, eff: seq<int>, low: int, sum: int,
                                       unseen: set<nat>, visited: set<nat>, fallback: Option<nat>, b: nat)
    requires Going(q, us, vs, eff, low, sum, unseen, visited, fallback) && unseen != {}
    requires IsPick(vs, eff, ws, b) && ws[b].id in visited
    ensures b < |us| && b !in unseen
    ensures Going(q, us, ws, eff, low, sum, unseen, visited, fallback)
    ensures forall u :: u in unseen ==> ws[u].current > vs[u].current
  {
    StillBounded(vs, ws, eff, low, sum, unseen, b);
    PickIs(us, vs, eff, ws, b);
    hide Bounded, Searched, IsPick;
    TrackedSeen(us, unseen, visited, b);
  }

  /** A new sub-group was picked, and it is not open. */
  lemma {:induction false} PickedNew(q: Query, us: seq<Item>, vs: seq<Item>, ws: seq<Item>, eff: seq<int>, low: int, sum: int,
                                     unseen: set<nat>, visited: set<nat>, fallback: Option<nat>, b: nat)
    requires Going(q, us, vs, eff, low, sum, unseen, visited, fallback)
    requires IsPick(vs, eff, ws, b) && ws[b].id !in visited
    requires b < |us| && (Eligible(q, us, us[b]) ==> Cooling(q, us[b]))
    ensures b in unseen
    ensures var better := fallback.None? || (us[b].until.Some? && us[b].until.value < us[fallback.value].until.value);
            Going(q, us, ws, eff, low, sum, unseen - {b}, visited + {ws[b].id},
                  if Eligible(q, us, us[b]) && better then Some(b) else fallback)
  {
    PickIs(us, vs, eff, ws, b);
    TrackedUnseen(us, unseen, visited, b);
    StillBounded(vs, ws, eff, low, sum, unseen, b);
    TrackOne(us, unseen, visited, b);
    SearchStep(q, us, unseen, fallback, b);
    hide Bounded, Searched, IsPick, Tracks, Eligible, Cooling;
  }

  lemma {:induction false} GoingEnds(q: Query, us: seq<Item>, vs: seq<Item>, eff: seq<int>, low: int, sum: int,
                                     unseen: set<nat>, visited: set<nat>, fallback: Option<nat>)
    requires Going(q, us, vs, eff, low, sum, unseen, visited, fallback) && |visited| >= |us| && |us| != 1
    ensures IsChoice(q, us, fallback)
  {
    assert unseen == {};
    hide Bounded, Searched, IsChoice;
    SearchDone(q, us, fallback);
  }

  lemma {:induction false} GoingSame(q: Query, us: seq<Item>, vs: seq<Item>, eff: seq<int>, low: int, sum: int,
                                     unseen: set<nat>, visited: set<nat>, fallback: Option<nat>)
    requires Going(q, us, vs, eff, low, sum, unseen, visited, fallback)
    ensures SameItems(us, vs)
  {
  }

  lemma {:induction false} PickedAmong(q: Query, us: seq<Item>, vs: seq<Item>, ws: seq<Item>, eff: seq<int>, low: int, sum: int,
                                       unseen: set<nat>, visited: set<nat>, fallback: Option<nat>, b: nat)
    requires Going(q, us, vs, eff, low, sum, unseen, visited, fallback) && IsPick(vs, eff, ws, b)
    ensures SameItems(us, ws) && b < |us| == |ws|
    ensures fallback.Some? ==> fallback.value < |us| && us[fallback.value].until.Some? && ws[fallback.value].until == us[fallback.value].until
  {
    PickIs(us, vs, eff, ws, b);
    GoingOn(q, us, vs, eff, low, sum, unseen, visited, fallback);
    hide IsPick, Bounded, Searched, Tracks;
  }

  /** What the loop reads off the sub-group picked is what it was at the start. */
  lemma {:induction false} Reads(q: Query, us: seq<Item>, ws: seq<Item>, b: nat, tiered: bool, tier: int)
    requires SameItems(us, ws) && b < |us| && tiered == Tiered(us) && (tiered ==> tier == Tier(q, us))
    ensures ws[b].id == us[b].id && ws[b].until == us[b].until && Cooling(q, ws[b]) == Cooling(q, us[b])
    ensures Eligible(q, us, us[b]) <==> Wanted(q, ws[b]) && (tiered ==> ws[b].priority == tier) && ws[b].id in q.keyed
    ensures Cooling(q, us[b]) ==> us[b].until.Some?
  {
    hide Tier, Tiered;
  }

  // ----- The picks of a selection -----

  /** The pick is one the request is given. */
  predicate OpenTo(q: Query, us: seq<Item>, i: int) {
    0 <= i < |us| && Eligible(q, us, us[i]) && !Cooling(q, us[i])
  }

  /** One pick of the rotation after the other leads from `us` to `vs`. */
  ghost predicate Turns(us: seq<Item>, eff: seq<int>, steps: seq<seq<Item>>, picks: seq<nat>, vs: seq<Item>) {
    && |steps| == |picks| + 1 && steps[0] == us && steps[|picks|] == vs
    && forall k :: 0 <= k < |picks| ==> IsPick(steps[k], eff, steps[k + 1], picks[k])
  }

  /**
   * The rotation stops at the first open sub-group it picks, which is the result; or, when there is none, once
   * it has picked every sub-group, and of those that recover first the one picked first is the result.
   */
  ghost predicate Ends(q: Query, us: seq<Item>, picks: seq<nat>, r: Option<nat>) {
    if |us| <= 1 then picks == []
    else
      && picks != [] && (forall k :: 0 <= k < |picks| ==> picks[k] < |us|)
      && (forall k :: 0 <= k < |picks| - 1 ==> !OpenTo(q, us, picks[k]))
      && if OpenTo(q, us, picks[|picks| - 1]) then r == Some(picks[|picks| - 1])
         else
           && (forall i :: 0 <= i < |us| ==> i in picks)
           && picks[|picks| - 1] !in picks[..|picks| - 1]
           && (r.Some? ==> FirstOfRivals(q, us, picks, r.value))
  }

  /** Both may be fallen back on, and they recover at the same time. */
  predicate Rivals(q: Query, us: seq<Item>, i: nat, j: nat) {
    i < |us| && j < |us| && Eligible(q, us, us[j]) && us[i].until == us[j].until
  }

  ghost predicate FirstOfRivals(q: Query, us: seq<Item>, picks: seq<nat>, i: nat) {
    forall k :: 0 <= k < |picks| && Rivals(q, us, i, picks[k]) ==> CameBy(picks, k, i)
  }

  ghost predicate CameBy(picks: seq<nat>, k: nat, i: nat) {
    exists j :: 0 <= j <= k && j < |picks| && picks[j] == i
  }

  ghost predicate Selection(q: Query, us: seq<Item>, eff: seq<int>, r: Option<nat>, vs: seq<Item>) {
    exists steps, picks :: Turns(us, eff, steps, picks, vs) && Ends(q, us, picks, r)
  }

  /** The picks so far: none was open, and `fallback` came up before its rivals. */
  ghost predicate Logged(q: Query, us: seq<Item>, picks: seq<nat>, unseen: set<nat>, fallback: Option<nat>) {
    && (forall k :: 0 <= k < |picks| ==> picks[k] < |us| && !OpenTo(q, us, picks[k]))
    && (forall i :: 0 <= i < |us| ==> (i in unseen <==> i !in picks))
    && (unseen == {} ==> picks != [] && picks[|picks| - 1] !in picks[..|picks| - 1])
    && (fallback.Some? ==> FirstOfRivals(q, us, picks, fallback.value))
  }

  lemma {:induction false} TurnsNone(us: seq<Item>, eff: seq<int>)
    ensures Turns(us, eff, [us], [], us)
  {
  }

  lemma {:induction false} TurnsOn(us: seq<Item>, eff: seq<int>, steps: seq<seq<Item>>, picks: seq<nat>, vs: seq<Item>, ws: seq<Item>, b: nat)
    requires Turns(us, eff, steps, picks, vs) && IsPick(vs, eff, ws, b)
    ensures Turns(us, eff, steps + [ws], picks + [b], ws)
  {
    hide IsPick;
  }

  lemma {:induction false} LoggedNone(q: Query, us: seq<Item>, unseen: set<nat>)
    requires us != [] && forall i :: i in unseen <==> 0 <= i < |us|
    ensures Logged(q, us, [], unseen, None)
  {
    assert 0 in unseen;
  }

  lemma {:induction false} CameEarlier(picks: seq<nat>, b: nat)
    ensures forall k, i :: 0 <= k < |picks| && CameBy(picks, k, i) ==> CameBy(picks + [b], k, i)
    ensures forall i :: i in picks || i == b ==> CameBy(picks + [b], |picks|, i)
    ensures forall i :: i in picks + [b] <==> i in picks || i == b
    ensures forall k :: 0 <= k < |picks| ==> (picks + [b])[k] == picks[k]
    ensures (picks + [b])[|picks|] == b && (picks + [b])[..|picks|] == picks
  {
    var all := picks + [b];
    assert all[|picks|] == b;
    forall k, i | 0 <= k < |picks| && CameBy(picks, k, i)
      ensures CameBy(all, k, i)
    {
      var j :| 0 <= j <= k && picks[j] == i;
      assert all[j] == i;
    }
    forall i | i in picks
      ensures CameBy(all, |picks|, i)
    {
      var j :| 0 <= j < |picks| && picks[j] == i;
      assert all[j] == i;
    }
  }

  lemma {:induction false} LoggedAgain(q: Query, us: seq<Item>, picks: seq<nat>, unseen: set<nat>, fallback: Option<nat>, b: nat)
    requires Logged(q, us, picks, unseen, fallback) && b < |us| && b !in unseen && unseen != {}
    ensures Logged(q, us, picks + [b], unseen, fallback)
  {
    CameEarlier(picks, b);
    var j :| 0 <= j < |picks| && picks[j] == b;
    assert !OpenTo(q, us, picks[j]);
    hide OpenTo, Rivals;
    if fallback.Some? && Rivals(q, us, fallback.value, b) {
      assert CameBy(picks, j, fallback.value);
      assert fallback.value in picks;
    }
    hide CameBy;
  }

  lemma {:induction false} LoggedNew(q: Query, us: seq<Item>, picks: seq<nat>, unseen: set<nat>, fallback: Option<nat>, b: nat)
    requires Logged(q, us, picks, unseen, fallback) && Searched(q, us, unseen, fallback) && b < |us| && b in unseen
    requires Eligible(q, us, us[b]) ==> Cooling(q, us[b])
    ensures var better := fallback.None? || (us[b].until.Some? && us[b].until.value < us[fallback.value].until.value);
            Logged(q, us, picks + [b], unseen - {b}, if Eligible(q, us, us[b]) && better then Some(b) else fallback)
  {
    CameEarlier(picks, b);
    RivalsKnown(q, us, picks, unseen, fallback);
    if Eligible(q, us, us[b]) && (fallback.None? || us[b].until.value < us[fallback.value].until.value) {
      NewRival(q, us, picks, fallback, b);
    } else if fallback.Some? {
      OldRival(q, us, picks, fallback.value, b);
    }
    hide *;
    LoggedIs(q, us, picks, unseen, fallback);
    StillClosed(q, us, picks, b);
    LoggedIs(q, us, picks + [b], unseen - {b}, if Eligible(q, us, us[b]) && (fallback.None? || (us[b].until.Some? && us[b].until.value < us[fallback.value].until.value)) then Some(b) else fallback);
  }

  lemma {:induction false} LoggedIs(q: Query, us: seq<Item>, picks: seq<nat>, unseen: set<nat>, fallback: Option<nat>)
    ensures Logged(q, us, picks, unseen, fallback) <==>
              && (forall k :: 0 <= k < |picks| ==> picks[k] < |us| && !OpenTo(q, us, picks[k]))
              && (forall i :: 0 <= i < |us| ==> (i in unseen <==> i !in picks))
              && (unseen == {} ==> picks != [] && picks[|picks| - 1] !in picks[..|picks| - 1])
              && (fallback.Some? ==> FirstOfRivals(q, us, picks, fallback.value))
  {
  }

  lemma {:induction false} StillClosed(q: Query, us: seq<Item>, picks: seq<nat>, b: nat)
    requires forall k :: 0 <= k < |picks| ==> picks[k] < |us| && !OpenTo(q, us, picks[k])
    requires b < |us| && (Eligible(q, us, us[b]) ==> Cooling(q, us[b]))
    ensures forall k :: 0 <= k < |picks + [b]| ==> (picks + [b])[k] < |us| && !OpenTo(q, us, (picks + [b])[k])
  {
  }

  lemma {:induction false} NewRival(q: Query, us: seq<Item>, picks: seq<nat>, fallback: Option<nat>, b: nat)
    requires b < |us| && (fallback.Some? ==> fallback.value < |us| && us[fallback.value].until.Some?)
    requires us[b].until.Some? && (fallback.None? || us[b].until.value < us[fallback.value].until.value)
    requires forall k :: 0 <= k < |picks| ==> picks[k] < |us|
    requires forall k :: 0 <= k < |picks| && Eligible(q, us, us[picks[k]]) ==>
               && fallback.Some? && us[picks[k]].until.Some?
               && us[fallback.value].until.value <= us[picks[k]].until.value
    ensures FirstOfRivals(q, us, picks + [b], b)
  {
    CameEarlier(picks, b);
    hide Eligible, CameBy;
  }

  lemma {:induction false} OldRival(q: Query, us: seq<Item>, picks: seq<nat>, i: nat, b: nat)
    requires FirstOfRivals(q, us, picks, i) && i in picks
    ensures FirstOfRivals(q, us, picks + [b], i)
  {
    CameEarlier(picks, b);
    hide Rivals, CameBy;
  }

  /** Whatever has come up and could be fallen back on recovers no earlier than the fallback. */
  lemma {:induction false} RivalsKnown(q: Query, us: seq<Item>, picks: seq<nat>, unseen: set<nat>, fallback: Option<nat>)
    requires Logged(q, us, picks, unseen, fallback) && Searched(q, us, unseen, fallback)
    ensures fallback.Some? ==> fallback.value < |us| && fallback.value in picks && us[fallback.value].until.Some?
    ensures forall k :: 0 <= k < |picks| && Eligible(q, us, us[picks[k]]) ==>
              && fallback.Some? && us[picks[k]].until.Some?
              && us[fallback.value].until.value <= us[picks[k]].until.value
  {
    hide Eligible, Wanted, CameBy, Rivals;
    forall k | 0 <= k < |picks| && Eligible(q, us, us[picks[k]])
      ensures fallback.Some? && us[picks[k]].until.Some? && us[fallback.value].until.value <= us[picks[k]].until.value
    {
      assert picks[k] in picks;
      assert picks[k] !in unseen;
    }
  }

  lemma {:induction false} OpenEnds(q: Query, us: seq<Item>, picks: seq<nat>, unseen: set<nat>, fallback: Option<nat>, b: nat)
    requires Logged(q, us, picks, unseen, fallback) && |us| > 1
    requires b < |us| && Eligible(q, us, us[b]) && !Cooling(q, us[b])
    ensures Ends(q, us, picks + [b], Some(b))
  {
    CameEarlier(picks, b);
    assert OpenTo(q, us, b);
    hide OpenTo, Rivals, CameBy;
  }

  lemma {:induction false} AllEnds(q: Query, us: seq<Item>, picks: seq<nat>, fallback: Option<nat>)
    requires Logged(q, us, picks, {}, fallback) && |us| > 1
    ensures Ends(q, us, picks, fallback)
  {
    hide OpenTo, Rivals, CameBy;
  }

  lemma {:induction false} Selects(q: Query, us: seq<Item>, eff: seq<int>, steps: seq<seq<Item>>, picks: seq<nat>, r: Option<nat>, vs: seq<Item>)
    requires Turns(us, eff, steps, picks, vs) && Ends(q, us, picks, r)
    ensures Selection(q, us, eff, r, vs)
  {
  }

  lemma {:induction false} SelectsAtOnce(q: Query, us: seq<Item>, eff: seq<int>, r: Option<nat>)
    requires |us| <= 1
    ensures Selection(q, us, eff, r, us)
  {
    var none: seq<nat> := [];
    TurnsNone(us, eff);
    assert Ends(q, us, none, r);
  }

  // ----- What a selection means -----

  ghost predicate OpenAt(q: Query, items: seq<Item>, i: int) {
    0 <= i < |items| && Open(q, items[i])
  }

  ghost predicate ReadyAt(q: Query, items: seq<Item>, i: int) {
    0 <= i < |items| && Ready(q, items[i])
  }

  /** No open sub-group has the mark for "no tier" as its priority, or none that would be overlooked for it. */
  ghost predicate MarkUnused(q: Query, items: seq<Item>) {
    || (forall i :: OpenAt(q, items, i) ==> items[i].priority != NO_TIER)
    || (exists i :: OpenAt(q, items, i) && items[i].priority < NO_TIER)
    || (exists i :: OpenAt(q, items, i) && items[i].priority == NO_TIER && forall j :: i < j ==> !OpenAt(q, items, j))
  }

  /** What the tier is after the last sub-group. */
  lemma {:induction false} TierPush(q: Query, items: seq<Item>)
    requires items != []
    ensures var n := |items| - 1;
            && var best := Tier(q, items[..n]);
            Tier(q, items) ==
              if OpenAt(q, items, n) && (best == NO_TIER || items[n].priority < best) then items[n].priority else best
    ensures forall i :: 0 <= i < |items| - 1 ==> OpenAt(q, items[..|items| - 1], i) == OpenAt(q, items, i)
  {
    hide Open;
  }

  /** The tier is the priority of an open sub-group, and the smallest of all. */
  lemma {:induction false} TierIs(q: Query, items: seq<Item>)
    ensures (forall i :: !OpenAt(q, items, i)) ==> Tier(q, items) == NO_TIER
    ensures (exists i :: OpenAt(q, items, i)) ==> exists i :: OpenAt(q, items, i) && items[i].priority == Tier(q, items)
    ensures (forall i :: OpenAt(q, items, i) ==> Tier(q, items) <= items[i].priority) <==> MarkUnused(q, items)
  {
    if items != [] {
      var n := |items| - 1;
      TierIs(q, items[..n]);
      TierPush(q, items);
      hide Tier, Open;
      if OpenAt(q, items, n) {
        TierAfterOpen(q, items);
      } else {
        assert forall i :: OpenAt(q, items, i) <==> OpenAt(q, items[..n], i);
        assert MarkUnused(q, items) <==> MarkUnused(q, items[..n]);
      }
    }
  }

  lemma {:induction false} TierAfterOpen(q: Query, items: seq<Item>)
    requires items != [] && OpenAt(q, items, |items| - 1)
    requires var front := items[..|items| - 1];
             && ((forall i :: !OpenAt(q, front, i)) ==> Tier(q, front) == NO_TIER)
             && ((exists i :: OpenAt(q, front, i)) ==> exists i :: OpenAt(q, front, i) && front[i].priority == Tier(q, front))
             && ((forall i :: OpenAt(q, front, i) ==> Tier(q, front) <= front[i].priority) <==> MarkUnused(q, front))
    ensures exists i :: OpenAt(q, items, i) && items[i].priority == Tier(q, items)
    ensures (forall i :: OpenAt(q, items, i) ==> Tier(q, items) <= items[i].priority) <==> MarkUnused(q, items)
  {
    TierPush(q, items);
    var n := |items| - 1;
    var front, p, t := items[..n], items[n].priority, Tier(q, items[..n]);
    hide Tier, Open;
    assert forall i :: OpenAt(q, items, i) <==> OpenAt(q, front, i) || i == n;
    hide OpenAt;
    if forall i :: !OpenAt(q, front, i) {
    } else {
      var k :| OpenAt(q, front, k) && front[k].priority == t;
      assert OpenAt(q, items, k);
      assert exists i :: OpenAt(q, items, i) && items[i].priority == Tier(q, items);
      if MarkUnused(q, front) {
        assert forall i :: OpenAt(q, front, i) ==> t <= front[i].priority;
      } else {
        assert exists i :: OpenAt(q, front, i) && front[i].priority == NO_TIER;
      }
    }
  }

  lemma {:induction false} EligibleIs(q: Query, items: seq<Item>, i: int)
    ensures 0 <= i < |items| && Eligible(q, items, items[i]) <==>
              ReadyAt(q, items, i) && (Tiered(items) ==> items[i].priority == Tier(q, items))
    ensures OpenAt(q, items, i) <==> ReadyAt(q, items, i) && !Cooling(q, items[i])
  {
    hide Tier, Tiered;
  }

  /** A sub-group is ready when it was not excluded, serves the model and has active keys; and open when no cooldown runs. */
  lemma {:induction false} ReadyMeans(q: Query, items: seq<Item>, i: int)
    ensures ReadyAt(q, items, i) <==>
              && 0 <= i < |items| && items[i].name !in q.excluded && items[i].id in q.keyed
              && (q.model == "" || (items[i].models.Some? && q.model in items[i].models.value))
    ensures OpenAt(q, items, i) <==> ReadyAt(q, items, i) && (items[i].until == None || items[i].until.value <= q.now)
  {
  }

  /** Whatever is returned may be used; it is open, and of the best tier, whenever some sub-group is open. */
  lemma {:induction false} ChoiceServes(q: Query, items: seq<Item>, r: Option<nat>)
    requires IsChoice(q, items, r)
    ensures r.Some? ==>
              && r.value < |items| && items[r.value].name !in q.excluded && items[r.value].id in q.keyed
              && (q.model != "" ==> items[r.value].models.Some? && q.model in items[r.value].models.value)
    ensures r.Some? ==> ReadyAt(q, items, r.value)
    ensures (exists i :: OpenAt(q, items, i)) <==> r.Some? && OpenAt(q, items, r.value)
    ensures r.Some? && OpenAt(q, items, r.value) && Tiered(items) ==> items[r.value].priority == Tier(q, items)
  {
    if r.Some? {
      EligibleIs(q, items, r.value);
      ReadyMeans(q, items, r.value);
    }
    if exists i :: OpenAt(q, items, i) {
      TierIs(q, items);
      var i :| OpenAt(q, items, i) && (Tiered(items) ==> items[i].priority == Tier(q, items));
      EligibleIs(q, items, i);
      hide Tier, Eligible, Ready, Cooling, Open, MarkUnused;
    }
  }

  /** A selection that only lacks sub-groups out of their cooldown falls back on one, unless the tiers differ. */
  lemma {:induction false} DegradesIff(q: Query, items: seq<Item>, r: Option<nat>)
    requires IsChoice(q, items, r) && forall i :: !OpenAt(q, items, i)
    ensures r.Some? <==> exists i :: ReadyAt(q, items, i) && (Tiered(items) ==> items[i].priority == NO_TIER)
    ensures r.Some? && |items| > 1 ==> items[r.value].until.Some?
    ensures r.Some? && |items| > 1 ==>
              forall i :: ReadyAt(q, items, i) && (Tiered(items) ==> items[i].priority == NO_TIER) ==>
                items[i].until.Some? && items[r.value].until.value <= items[i].until.value
  {
    TierIs(q, items);
    forall i
      ensures 0 <= i < |items| && Eligible(q, items, items[i]) <==>
                ReadyAt(q, items, i) && (Tiered(items) ==> items[i].priority == NO_TIER)
      ensures ReadyAt(q, items, i) ==> Cooling(q, items[i]) && items[i].until.Some?
    {
      EligibleIs(q, items, i);
    }
    hide Tier, Tiered, Eligible, Ready, Open, MarkUnused;
  }

  /** A sub-group is returned whenever one is ready, if and only if the cooldowns and tiers allow it. */
  lemma {:induction false} ReturnsIff(q: Query, items: seq<Item>, r: Option<nat>)
    requires IsChoice(q, items, r)
    ensures r.Some? <==>
              || (exists i :: OpenAt(q, items, i))
              || (exists i :: ReadyAt(q, items, i) && (Tiered(items) ==> items[i].priority == NO_TIER))
  {
    if exists i :: OpenAt(q, items, i) {
      ChoiceServes(q, items, r);
    } else {
      DegradesIff(q, items, r);
    }
  }

  /** Two tiers, both cooling: nothing is returned, although both sub-groups are ready. */
  lemma {:induction false} TiersLoseFallback(a: Item, b: Item, now: int)
    requires a.priority == 100 && b.priority == 200 && a.until == b.until == Some(now + 1)
    ensures var q := Query("", {}, {a.id, b.id}, now);
            && ReadyAt(q, [a, b], 0) && ReadyAt(q, [a, b], 1)
            && IsChoice(q, [a, b], None)
            && forall r :: IsChoice(q, [a, b], r) ==> r == None
  {
    var q, items := Query("", {}, {a.id, b.id}, now), [a, b];
    assert Cooling(q, a) && Cooling(q, b);
    assert items[1].priority != items[0].priority;
    TierIs(q, items);
    forall i | 0 <= i < |items|
      ensures !Eligible(q, items, items[i])
    {
      EligibleIs(q, items, i);
    }
  }

  /** An open sub-group whose priority is the mark for "no tier" is overlooked for a less preferred one. */
  lemma {:induction false} MarkOverlooked(a: Item, b: Item, now: int)
    requires a.priority == -1 && b.priority == 5 && a.until == b.until == None
    ensures var q := Query("", {}, {a.id, b.id}, now);
            && OpenAt(q, [a, b], 0) && OpenAt(q, [a, b], 1)
            && forall r :: IsChoice(q, [a, b], r) ==> r == Some(1)
  {
    var q, items := Query("", {}, {a.id, b.id}, now), [a, b];
    assert items[..1] == [a] && [a][..0] == [];
    TierPush(q, items);
    TierPush(q, [a]);
    assert items[1].priority != items[0].priority && OpenAt(q, items, 1);
    forall r | IsChoice(q, items, r)
      ensures r == Some(1)
    {
      ChoiceServes(q, items, r);
    }
  }

  /** What the failover engine takes for granted: the name returned is one it has not attempted. */
  lemma {:induction false} EngineAccepts(q: Query, items: seq<Item>, r: Option<nat>, env: Failover.Env)
    requires IsChoice(q, items, r) && forall i :: 0 <= i < |items| ==> items[i].name in env.members
    ensures r.Some? ==> ReadyAt(q, items, r.value)
                        && Failover.FirstEligible(env, [items[r.value].name], q.excluded) == Some(items[r.value].name)
  {
    ChoiceServes(q, items, r);
  }

  // ----- The selector -----

  class Selector {
    const subGroups: array<Item>

    constructor (items: seq<Item>)
      ensures fresh(subGroups) && subGroups[..] == items
    {
      var a := new Item[|items|](i requires 0 <= i < |items| => items[i]);
      subGroups := a;
    }

    method SelectByWeight(eff: seq<int>) returns (best: nat)
      requires 0 < subGroups.Length == |eff| && AllPositive(eff)
      modifies subGroups
      ensures IsPick(old(subGroups[..]), eff, subGroups[..], best)
    {
      ghost var us := subGroups[..];
      var totalWeight := 0;
      best := 0;
      HalfwayStarts(us, eff);
      hide *;
      for i := 0 to subGroups.Length
        invariant best < subGroups.Length
        invariant Halfway(us, eff, subGroups[..], i, totalWeight, best)
      {
        ghost var cs := subGroups[..];
        Raise(i, eff[i]);
        HalfwayOn(us, eff, cs, i, totalWeight, best, subGroups[..]);
        totalWeight := totalWeight + eff[i];
        if i == 0 || subGroups[i].current > subGroups[best].current
           || (subGroups[i].current == subGroups[best].current && subGroups[i].priority < subGroups[best].priority) {
          best := i;
        }
      }
      ghost var cs := subGroups[..];
      Raise(best, -totalWeight);
      PickMade(us, eff, cs, totalWeight, best, subGroups[..]);
    }

    method Raise(i: nat, w: int)
      requires i < subGroups.Length
      modifies subGroups
      ensures subGroups[..] == old(subGroups[..])[i := Raised(old(subGroups[i]), w)]
    {
      subGroups[i] := Raised(subGroups[i], w);
    }

    method HasDistinctPriorities() returns (distinct: bool)
      ensures distinct <==> Tiered(subGroups[..])
    {
      if subGroups.Length < 2 {
        return false;
      }
      var first := subGroups[0].priority;
      for i := 1 to subGroups.Length
        invariant forall j :: 0 <= j < i ==> subGroups[j].priority == first
      {
        if subGroups[i].priority != first {
          assert subGroups[..][i].priority != subGroups[..][0].priority;
          return true;
        }
      }
      distinct := false;
    }

    method BestEligibleTier(q: Query) returns (best: int)
      ensures best == Tier(q, subGroups[..])
    {
      best := NO_TIER;
      for i := 0 to subGroups.Length
        invariant best == Tier(q, subGroups[..i])
      {
        assert subGroups[..i + 1][..i] == subGroups[..i];
        var it := subGroups[i];
        if !Wanted(q, it) || Cooling(q, it) || it.id !in q.keyed {
          continue;
        }
        if best == NO_TIER || it.priority < best {
          best := it.priority;
        }
      }
      assert subGroups[..subGroups.Length] == subGroups[..];
    }

    /** The weights, drawn from configuration and latency, do not change while the selector is locked. */
    method SelectAmong(q: Query, eff: seq<int>) returns (r: Option<nat>)
      requires subGroups.Length == |eff| && AllPositive(eff) && DistinctIds(subGroups[..])
      modifies subGroups
      ensures SameItems(old(subGroups[..]), subGroups[..])
      ensures IsChoice(q, old(subGroups[..]), r)
      ensures Selection(q, old(subGroups[..]), eff, r, subGroups[..])
    {
      ghost var us := subGroups[..];
      var n := subGroups.Length;
      if n <= 1 {
        SelectsAtOnce(q, us, eff, None);
        SelectsAtOnce(q, us, eff, Some(0));
      }
      if n == 0 {
        return None;
      }
      if n == 1 {
        r := if Wanted(q, subGroups[0]) && subGroups[0].id in q.keyed then Some(0) else None;
        return;
      }
      var tiered := HasDistinctPriorities();
      var tier := 0;
      if tiered {
        tier := BestEligibleTier(q);
      }
      hide *;
      r := Search(q, eff, tiered, tier);
    }

    /** Rotate until an open sub-group comes up, or all have come up. */
    method Search(q: Query, eff: seq<int>, tiered: bool, tier: int) returns (r: Option<nat>)
      requires 1 < subGroups.Length == |eff| && AllPositive(eff) && DistinctIds(subGroups[..])
      requires tiered == Tiered(subGroups[..]) && (tiered ==> tier == Tier(q, subGroups[..]))
      modifies subGroups
      ensures SameItems(old(subGroups[..]), subGroups[..])
      ensures IsChoice(q, old(subGroups[..]), r)
      ensures Selection(q, old(subGroups[..]), eff, r, subGroups[..])
    {
      hide *;
      ghost var us := subGroups[..];
      ghost var sum := Sum(Currents(us));
      var n := subGroups.Length;
      var visited: set<nat> := {};
      var fallback: Option<nat> := None;
      ghost var low, unseen: set<nat> := GoingStarts(q, us, eff);
      GoingOn(q, us, us, eff, low, sum, unseen, visited, fallback);
      ghost var u: nat :| u in unseen;
      ghost var steps: seq<seq<Item>>, picks: seq<nat> := [us], [];
      TurnsNone(us, eff);
      LoggedNone(q, us, unseen);
      while |visited| < n
        invariant Going(q, us, subGroups[..], eff, low, sum, unseen, visited, fallback)
        invariant unseen != {} ==> u in unseen
        invariant Turns(us, eff, steps, picks, subGroups[..]) && Logged(q, us, picks, unseen, fallback)
        decreases |unseen|, if u < n then Ceiling(n, eff, low, sum) - subGroups[u].current else 0
      {
        ghost var vs := subGroups[..];
        GoingOn(q, us, vs, eff, low, sum, unseen, visited, fallback);
        var b := SelectByWeight(eff);
        ghost var ws := subGroups[..];
        PickedAmong(q, us, vs, ws, eff, low, sum, unseen, visited, fallback, b);
        Reads(q, us, ws, b, tiered, tier);
        TurnsOn(us, eff, steps, picks, vs, ws, b);
        steps := steps + [ws];
        var it := subGroups[b];
        if it.id in visited {
          PickedAgain(q, us, vs, ws, eff, low, sum, unseen, visited, fallback, b);
          LoggedAgain(q, us, picks, unseen, fallback, b);
          picks := picks + [b];
          continue;
        }
        var wanted := Wanted(q, it) && (tiered ==> it.priority == tier) && it.id in q.keyed;
        if wanted && !Cooling(q, it) {
          OpenIsChoice(q, us, b);
          OpenEnds(q, us, picks, unseen, fallback, b);
          Selects(q, us, eff, steps, picks + [b], Some(b), ws);
          return Some(b);
        }
        PickedNew(q, us, vs, ws, eff, low, sum, unseen, visited, fallback, b);
        LoggedNew(q, us, picks, unseen, fallback, b);
        picks := picks + [b];
        visited := visited + {it.id};
        unseen := unseen - {b};
        if wanted {
          if fallback.None? || it.until.value < subGroups[fallback.value].until.value {
            fallback := Some(b);
          }
        }
        if unseen != {} && u !in unseen {
          u :| u in unseen;
        }
      }
      GoingOn(q, us, subGroups[..], eff, low, sum, unseen, visited, fallback);
      GoingEnds(q, us, subGroups[..], eff, low, sum, unseen, visited, fallback);
      GoingSame(q, us, subGroups[..], eff, low, sum, unseen, visited, fallback);
      AllEnds(q, us, picks, fallback);
      Selects(q, us, eff, steps, picks, fallback, subGroups[..]);
      r := fallback;
    }
  }
}
