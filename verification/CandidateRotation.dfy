/** Smooth weighted round robin over the candidates of a route, with weights sampled for every pick. */
module CandidateRotation {
  import opened Sums
  import Sorting

  datatype Candidate = Candidate(aliasId: nat, groupId: nat, model: string, weight: int, priority: int)

  // ----- The order -----

  predicate Less(a: Candidate, b: Candidate) {
    if a.weight != b.weight then a.weight > b.weight
    else if a.priority != b.priority then a.priority < b.priority
    else a.aliasId < b.aliasId
  }

  /** The view the balances are kept in. */
  function Sorted(cs: seq<Candidate>): (r: seq<Candidate>)
    ensures |r| == |cs|
  {
    Sorting.Sorted(cs, Less)
  }

  lemma {:induction false} LessRanks()
    ensures Sorting.Ranks(Less)
  {
  }

  /** The heavier candidate comes first, then the one with the smaller priority, then the one with the smaller alias. */
  predicate InOrder(a: Candidate, b: Candidate) {
    || a.weight > b.weight
    || (a.weight == b.weight && a.priority < b.priority)
    || (a.weight == b.weight && a.priority == b.priority && a.aliasId <= b.aliasId)
  }

  /**
   * The view is an ordered permutation of the candidates by descending weight, then priority, then alias,
   * and candidates equal in all three keep their order.
   */
  lemma {:induction false} ViewIsStable(cs: seq<Candidate>)
    ensures forall i, j :: 0 <= i < j < |cs| ==> InOrder(Sorted(cs)[i], Sorted(cs)[j])
    ensures multiset(Sorted(cs)) == multiset(cs)
    ensures forall k :: Sorting.Peers(Sorted(cs), k, Less) == Sorting.Peers(cs, k, Less)
    ensures forall a, b :: !Less(a, b) && !Less(b, a) <==> a.weight == b.weight && a.priority == b.priority && a.aliasId == b.aliasId
  {
    LessRanks();
    Sorting.SortedIsStable(cs, Less);
    assert forall a, b :: InOrder(a, b) <==> !Less(b, a);
  }

  // ----- Specification of one pick -----

  type States = map<string, seq<int>>

  function Zeros(n: nat): seq<int> {
    seq(n, _ => 0)
  }

  function Ones(n: nat): seq<int> {
    seq(n, _ => 1)
  }

  /** The balances kept for `key`, or none when the pool has another size now. */
  function StateFor(m: States, key: string, n: nat): (r: seq<int>)
    ensures |r| == n
  {
    if key in m && |m[key]| == n then m[key] else Zeros(n)
  }

  /** The sampled weights, unless they do not even sum to something positive. */
  function Effective(sampled: seq<int>): (r: seq<int>)
    ensures |r| == |sampled|
  {
    if Sum(sampled) <= 0 then Ones(|sampled|) else sampled
  }

  /** The weights of a pick are those drawn, or one each when those do not add up to anything. */
  lemma {:induction false} WeightsDrawn(sampled: seq<int>)
    ensures Sum(sampled) > 0 ==> Effective(sampled) == sampled
    ensures forall i :: Sum(sampled) <= 0 && 0 <= i < |sampled| ==> Effective(sampled)[i] == 1
  {
  }

  function Raised(state: seq<int>, eff: seq<int>): (r: seq<int>)
    requires |state| == |eff|
    ensures |r| == |state|
  {
    seq(|state|, i requires 0 <= i < |state| => state[i] + eff[i])
  }

  /** The largest balance; the smaller priority wins a tie, then the earlier position. */
  function Favourite(state: seq<int>, cs: seq<Candidate>): (b: nat)
    requires 0 < |state| == |cs|
    ensures b < |state|
    ensures forall i :: 0 <= i < |state| ==> state[i] <= state[b]
    ensures forall i :: 0 <= i < |state| && state[i] == state[b] ==> cs[b].priority <= cs[i].priority
    ensures forall i :: 0 <= i < b && state[i] == state[b] ==> cs[b].priority < cs[i].priority
  {
    var n := |state| - 1;
    if n == 0 then 0
    else
      var b := Favourite(state[..n], cs[..n]);
      if state[n] > state[b] || (state[n] == state[b] && cs[n].priority < cs[b].priority) then n else b
  }

  function Charged(state: seq<int>, cs: seq<Candidate>, eff: seq<int>): seq<int>
    requires 0 < |state| == |cs| == |eff|
  {
    var r := Raised(state, eff);
    var b := Favourite(r, cs);
    r[b := r[b] - Sum(eff)]
  }

  /** One pick: `sampled[i]` is the weight drawn for the i-th candidate in sorted order. */
  datatype Pick = Pick(key: string, cands: seq<Candidate>, sampled: seq<int>)

  predicate ValidPick(p: Pick) {
    0 < |p.cands| == |p.sampled|
  }

  function Before(m: States, p: Pick): (r: seq<int>)
    ensures |r| == |p.cands|
  {
    StateFor(m, p.key, |p.cands|)
  }

  function Chosen(m: States, p: Pick): nat
    requires ValidPick(p)
    ensures Chosen(m, p) < |p.cands|
  {
    Favourite(Raised(Before(m, p), Effective(p.sampled)), Sorted(p.cands))
  }

  /** A pool of one is used without touching the balances. */
  function AfterPick(m: States, p: Pick): States
    requires ValidPick(p)
  {
    if |p.cands| == 1 then m
    else m[p.key := Charged(Before(m, p), Sorted(p.cands), Effective(p.sampled))]
  }

  /** What a pick from more than one candidate does, step by step. */
  lemma {:induction false} PickIs(m: States, p: Pick, before: seq<int>, eff: seq<int>)
    requires ValidPick(p) && |p.cands| > 1
    requires before == StateFor(m, p.key, |p.cands|) && eff == Effective(p.sampled)
    ensures |before| == |eff| == |Sorted(p.cands)|
    ensures var r := Raised(before, eff);
            && Chosen(m, p) == Favourite(r, Sorted(p.cands))
            && AfterPick(m, p) == m[p.key := r[Chosen(m, p) := r[Chosen(m, p)] - Sum(eff)]]
  {
    hide Sorted, StateFor, Effective, Raised, Favourite, Sum;
  }

  // ----- The selector -----

  class Selector {
    var swrrState: States

    constructor ()
      ensures swrrState == map[]
    {
      swrrState := map[];
    }

    /** The balances stored under `key` while they fit the pool, else a fresh start. */
    method GetState(key: string, size: nat) returns (state: seq<int>)
      ensures |state| == size
      ensures key in swrrState && |swrrState[key]| == size ==> state == swrrState[key]
      ensures key !in swrrState || |swrrState[key]| != size ==> forall i :: 0 <= i < size ==> state[i] == 0
    {
      state := if key in swrrState && |swrrState[key]| == size then swrrState[key] else Zeros(size);
    }

    method SortedView(cands: seq<Candidate>) returns (sorted: array<Candidate>)
      ensures fresh(sorted) && sorted[..] == Sorted(cands)
    {
      sorted := new Candidate[|cands|](i requires 0 <= i < |cands| => cands[i]);
      assert sorted[..] == cands;
      Sorting.StableSort(sorted, Less);
    }

    method Weigh(sampled: seq<int>) returns (eff: seq<int>, total: int)
      ensures eff == Effective(sampled) && total == Sum(eff)
    {
      total := 0;
      for i := 0 to |sampled|
        invariant total == Sum(sampled[..i])
      {
        assert sampled[..i + 1] == sampled[..i] + [sampled[i]];
        SumPush(sampled[..i], sampled[i]);
        total := total + sampled[i];
      }
      assert sampled[..|sampled|] == sampled;
      eff := sampled;
      if total <= 0 {
        total := |sampled|;
        eff := Ones(|sampled|);
        SumAtMost(eff, 1);
        SumAtLeast(eff, 1);
      }
    }

    /** Raise every balance, on the way to the favourite. */
    method Raise(before: seq<int>, eff: seq<int>, sorted: array<Candidate>) returns (state: seq<int>, best: nat)
      requires 0 < |before| == |eff| == sorted.Length
      ensures state == Raised(before, eff) && best == Favourite(state, sorted[..])
    {
      state, best := before, 0;
      ghost var raised, cs := Raised(before, eff), sorted[..];
      assert forall j :: 0 <= j < |cs| ==> raised[j] == before[j] + eff[j];
      hide *;
      for i := 0 to sorted.Length
        invariant |state| == |cs| && (if i == 0 then best == 0 else best < i)
        invariant forall j :: 0 <= j < i ==> state[j] == raised[j]
        invariant forall j :: i <= j < |cs| ==> state[j] == before[j]
        invariant i > 0 ==> best == FavouriteOf(raised, cs, i)
      {
        FavouriteStep(raised, cs, i);
        assert sorted[i] == cs[i] && sorted[best] == cs[best];
        state := state[i := state[i] + eff[i]];
        assert state[i] == raised[i] && (i > 0 ==> state[best] == raised[best]);
        if i == 0 || state[i] > state[best] || (state[i] == state[best] && sorted[i].priority < sorted[best].priority) {
          best := i;
        }
      }
      assert state == raised;
      FavouriteWhole(raised, cs);
    }

    method Swrr(p: Pick) returns (c: Candidate)
      requires ValidPick(p)
      modifies this
      ensures swrrState == AfterPick(old(swrrState), p)
      ensures c == if |p.cands| == 1 then p.cands[0] else Sorted(p.cands)[Chosen(old(swrrState), p)]
    {
      if |p.cands| == 1 {
        return p.cands[0];
      }
      var before := GetState(p.key, |p.cands|);
      assert before == StateFor(swrrState, p.key, |p.cands|);
      hide *;
      var sorted := SortedView(p.cands);
      var eff, total := Weigh(p.sampled);
      var state, best := Raise(before, eff, sorted);
      c := sorted[best];
      assert c == sorted[..][best];
      state := state[best := state[best] - total];
      swrrState := swrrState[p.key := state];
      PickIs(old(swrrState), p, before, eff);
    }
  }

  function FavouriteOf(state: seq<int>, cs: seq<Candidate>, i: nat): (b: nat)
    requires 0 < i <= |state| == |cs|
    ensures b < i
  {
    Favourite(state[..i], cs[..i])
  }

  lemma {:induction false} FavouriteWhole(state: seq<int>, cs: seq<Candidate>)
    requires 0 < |state| == |cs|
    ensures FavouriteOf(state, cs, |cs|) == Favourite(state, cs)
  {
    assert state[..|cs|] == state && cs[..|cs|] == cs;
  }

  lemma {:induction false} FavouriteStep(state: seq<int>, cs: seq<Candidate>, i: nat)
    requires i < |state| == |cs|
    ensures i == 0 ==> FavouriteOf(state, cs, i + 1) == 0
    ensures i > 0 ==>
              var b := FavouriteOf(state, cs, i);
              FavouriteOf(state, cs, i + 1)
              == if state[i] > state[b] || (state[i] == state[b] && cs[i].priority < cs[b].priority) then i else b
  {
    assert state[..i + 1][..i] == state[..i] && cs[..i + 1][..i] == cs[..i];
  }

  // ----- The history of picks -----

  predicate AllValid(ps: seq<Pick>) {
    forall i :: 0 <= i < |ps| ==> ValidPick(ps[i])
  }

  /** Every weight drawn is at least one. */
  predicate Sampled(p: Pick) {
    ValidPick(p) && forall i :: 0 <= i < |p.sampled| ==> p.sampled[i] >= 1
  }

  predicate AllSampled(ps: seq<Pick>) {
    AllValid(ps) && forall i :: 0 <= i < |ps| ==> Sampled(ps[i])
  }

  function Played(ps: seq<Pick>): States
    requires AllValid(ps)
  {
    if ps == [] then map[] else AfterPick(Played(ps[..|ps| - 1]), ps[|ps| - 1])
  }

  /** The pick leaves the balances under `key` alone. */
  predicate Elsewhere(p: Pick, key: string) {
    p.key != key || |p.cands| == 1
  }

  /**
   * What a pick stores is what the next pick from a pool of that size under its key starts from, whatever
   * is picked under other keys in between; a pool of another size starts from zeros.
   */
  lemma {:induction false} StateRemembered(ps: seq<Pick>, p: Pick, later: seq<Pick>, n: nat)
    requires AllValid(ps) && ValidPick(p) && |p.cands| > 1
    requires AllValid(later) && forall i :: 0 <= i < |later| ==> Elsewhere(later[i], p.key)
    ensures AllValid(ps + [p] + later)
    ensures StateFor(Played(ps + [p] + later), p.key, n)
         == if n == |p.cands| then Charged(Before(Played(ps), p), Sorted(p.cands), Effective(p.sampled)) else Zeros(n)
  {
    hide *;
    if later == [] {
      assert ps + [p] + later == ps + [p];
      PlayedPush(ps, p);
      StateStored(Played(ps), p, n);
    } else {
      var front, q := later[..|later| - 1], later[|later| - 1];
      AllValidParts(front, q);
      assert later == front + [q];
      StateRemembered(ps, p, front, n);
      assert ps + [p] + later == (ps + [p] + front) + [q];
      PlayedPush(ps + [p] + front, q);
      StateUntouched(Played(ps + [p] + front), q, p.key, n);
    }
  }

  lemma {:induction false} AllValidParts(front: seq<Pick>, q: Pick)
    ensures AllValid(front + [q]) <==> AllValid(front) && ValidPick(q)
  {
    if AllValid(front + [q]) {
      assert forall i :: 0 <= i < |front| ==> front[i] == (front + [q])[i];
      assert (front + [q])[|front|] == q;
    }
  }

  lemma {:induction false} PlayedPush(ps: seq<Pick>, q: Pick)
    requires AllValid(ps) && ValidPick(q)
    ensures AllValid(ps + [q]) && Played(ps + [q]) == AfterPick(Played(ps), q)
  {
    assert (ps + [q])[..|ps|] == ps;
    hide AfterPick;
  }

  lemma {:induction false} StateStored(m: States, p: Pick, n: nat)
    requires ValidPick(p) && |p.cands| > 1
    ensures StateFor(AfterPick(m, p), p.key, n)
         == if n == |p.cands| then Charged(Before(m, p), Sorted(p.cands), Effective(p.sampled)) else Zeros(n)
  {
    assert |Charged(Before(m, p), Sorted(p.cands), Effective(p.sampled))| == |p.cands|;
    hide Charged, Effective, Sorted, Before;
  }

  lemma {:induction false} StateUntouched(m: States, q: Pick, key: string, n: nat)
    requires ValidPick(q) && Elsewhere(q, key)
    ensures StateFor(AfterPick(m, q), key, n) == StateFor(m, key, n)
  {
    hide Charged, Effective, Sorted, Before;
  }

  /** The largest total weight any pick has had. */
  function LargestTotal(ps: seq<Pick>): nat {
    if ps == [] then 0
    else
      var t, rest := Sum(Effective(ps[|ps| - 1].sampled)), LargestTotal(ps[..|ps| - 1]);
      if t > rest then t else rest
  }

  ghost predicate BalancedState(state: seq<int>, bound: int) {
    Sum(state) == 0 && forall i :: 0 <= i < |state| ==> state[i] > -bound
  }

  lemma {:induction false} SampledTotal(p: Pick)
    requires Sampled(p)
    ensures Effective(p.sampled) == p.sampled && Sum(p.sampled) > 0
  {
    SumAtLeast(p.sampled, 1);
  }

  lemma {:induction false} ChargedBalanced(state: seq<int>, cs: seq<Candidate>, eff: seq<int>, bound: int)
    requires 0 < |state| == |cs| == |eff| && BalancedState(state, bound)
    requires forall i :: 0 <= i < |eff| ==> eff[i] >= 1
    requires 0 < Sum(eff) <= bound
    ensures BalancedState(Charged(state, cs, eff), bound)
  {
    var r := Raised(state, eff);
    var b := Favourite(r, cs);
    assert Charged(state, cs, eff) == r[b := r[b] - Sum(eff)];
    assert forall i :: 0 <= i < |r| ==> r[i] == state[i] + eff[i] && r[i] <= r[b];
    hide Favourite, Charged, Raised;
    SumAdd(state, eff, r);
    SumUpdate(r, b, r[b] - Sum(eff));
    if r[b] <= 0 {
      SumAtMost(r, 0);
      assert false;
    }
  }

  lemma {:induction false} ZerosBalanced(n: nat, bound: int)
    requires bound > 0
    ensures BalancedState(Zeros(n), bound)
  {
    SumAtMost(Zeros(n), 0);
    SumAtLeast(Zeros(n), 0);
  }

  // ----- Main results -----

  /**
   * Across any history of picks, keys and pool sizes, the balances of every key sum to zero and none has
   * fallen a whole largest round behind.
   */
  lemma {:induction false} HistoryBalanced(ps: seq<Pick>)
    requires AllSampled(ps)
    ensures forall key :: key in Played(ps) ==> BalancedState(Played(ps)[key], LargestTotal(ps))
  {
    if ps != [] {
      var front, p := ps[..|ps| - 1], ps[|ps| - 1];
      HistoryBalanced(front);
      SampledTotal(p);
      var m, bound := Played(front), LargestTotal(ps);
      StillBalanced(m, LargestTotal(front), bound);
      assert Sum(p.sampled) <= bound;
      hide BalancedState, LargestTotal;
      if |p.cands| > 1 {
        ZerosBalanced(|p.cands|, bound);
        assert BalancedState(Before(m, p), bound);
        ChargedBalanced(Before(m, p), Sorted(p.cands), p.sampled, bound);
      }
    }
  }

  lemma {:induction false} StillBalanced(m: States, less: int, bound: int)
    requires less <= bound && forall key :: key in m ==> BalancedState(m[key], less)
    ensures forall key :: key in m ==> BalancedState(m[key], bound)
  {
  }

  // ----- Shares over a fixed pool -----

  /** The weight drawn for position `i` in all picks. */
  function Earned(ps: seq<Pick>, i: nat): int
    requires AllValid(ps) && forall j :: 0 <= j < |ps| ==> i < |ps[j].cands|
  {
    if ps == [] then 0 else Earned(ps[..|ps| - 1], i) + Effective(ps[|ps| - 1].sampled)[i]
  }

  /** The totals charged to position `i` for the picks it won. */
  function Spent(ps: seq<Pick>, i: nat): int
    requires AllValid(ps)
  {
    if ps == [] then 0
    else
      var front, p := ps[..|ps| - 1], ps[|ps| - 1];
      Spent(front, i) + (if Chosen(Played(front), p) == i then Sum(Effective(p.sampled)) else 0)
  }

  /** All picks are for one alias whose pool keeps its size. */
  ghost predicate SamePool(ps: seq<Pick>, key: string, n: nat) {
    n >= 2 && AllSampled(ps) && forall j :: 0 <= j < |ps| ==> ps[j].key == key && |ps[j].cands| == n
  }

  lemma {:induction false} ChargedAt(state: seq<int>, cs: seq<Candidate>, eff: seq<int>, i: nat)
    requires i < |state| == |cs| == |eff|
    ensures Charged(state, cs, eff)[i]
         == state[i] + eff[i] - (if Favourite(Raised(state, eff), cs) == i then Sum(eff) else 0)
  {
    hide Favourite;
  }

  lemma {:induction false} BalanceIs(ps: seq<Pick>, key: string, n: nat, i: nat)
    requires SamePool(ps, key, n) && i < n
    ensures ps != [] ==> key in Played(ps)
    ensures StateFor(Played(ps), key, n)[i] == Earned(ps, i) - Spent(ps, i)
  {
    if ps != [] {
      var front, p := ps[..|ps| - 1], ps[|ps| - 1];
      BalanceIs(front, key, n, i);
      hide Charged, Favourite, Sorted, Effective;
      ChargedAt(Before(Played(front), p), Sorted(p.cands), Effective(p.sampled), i);
    }
  }

  /** However the weights are drawn, no position is ever ahead of what it earned by a whole largest round. */
  lemma {:induction false} NeverAhead(ps: seq<Pick>, key: string, n: nat, i: nat)
    requires SamePool(ps, key, n) && i < n && ps != []
    ensures Spent(ps, i) < Earned(ps, i) + LargestTotal(ps)
  {
    BalanceIs(ps, key, n, i);
    HistoryBalanced(ps);
    hide Charged, Favourite, Earned, Spent, LargestTotal;
  }
}