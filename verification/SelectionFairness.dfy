/** What weighted rotation gives each sub-group, over stretches of selections in which all may be used. */
module SelectionFairness {
  import opened Wrappers
  import opened Sums
  import opened SubGroupSelection

  // ----- Turns of the balances -----

  /** All balances rise by the weights, and one of the largest pays for all. */
  predicate Turn(w: seq<int>, b: seq<int>, p: nat, c: seq<int>) {
    && |b| == |c| == |w| && p < |w|
    && (forall i :: 0 <= i < |w| ==> b[i] + w[i] <= b[p] + w[p])
    && forall i :: 0 <= i < |w| ==> c[i] == b[i] + w[i] - (if i == p then Sum(w) else 0)
  }

  /** The balances `bs` start from zero, and equal balances lead to the same pick. */
  ghost predicate Rotation(w: seq<int>, bs: seq<seq<int>>, picks: seq<nat>) {
    && w != [] && AllPositive(w) && |bs| == |picks| + 1
    && |bs[0]| == |w| && (forall i :: 0 <= i < |w| ==> bs[0][i] == 0)
    && (forall k :: 0 <= k < |picks| ==> Turn(w, bs[k], picks[k], bs[k + 1]))
    && forall j, k :: 0 <= j < |picks| && 0 <= k < |picks| && bs[j] == bs[k] ==> picks[j] == picks[k]
  }

  function Times(picks: seq<nat>, i: nat): nat {
    if picks == [] then 0 else Times(picks[..|picks| - 1], i) + (if picks[|picks| - 1] == i then 1 else 0)
  }

  function AllTimes(n: nat, picks: seq<nat>): (r: seq<int>)
    ensures |r| == n
  {
    seq(n, i requires 0 <= i < n => Times(picks, i))
  }

  lemma {:induction false} TimesPush(picks: seq<nat>, k: nat, i: nat)
    requires k < |picks|
    ensures Times(picks[..k + 1], i) == Times(picks[..k], i) + (if picks[k] == i then 1 else 0)
  {
    assert picks[..k + 1][..k] == picks[..k];
  }

  ghost predicate Even(w: seq<int>, b: seq<int>) {
    && |b| == |w| && Sum(b) == 0
    && forall i :: 0 <= i < |w| ==> b[i] > -Sum(w)
  }

  lemma {:induction false} WeightsPositive(w: seq<int>)
    requires w != [] && AllPositive(w)
    ensures Sum(w) > 0
  {
    SumAtLeast(w, 1);
  }

  lemma {:induction false} TurnSum(w: seq<int>, b: seq<int>, p: nat, c: seq<int>)
    requires Turn(w, b, p, c)
    ensures Sum(c) == Sum(b)
    ensures Sum(seq(|w|, i requires 0 <= i < |w| => b[i] + w[i])) == Sum(b) + Sum(w)
  {
    var raised := seq(|w|, i requires 0 <= i < |w| => b[i] + w[i]);
    assert c == raised[p := raised[p] - Sum(w)];
    hide *;
    SumAdd(b, w, raised);
    SumUpdate(raised, p, raised[p] - Sum(w));
  }

  lemma {:induction false} StaysEven(w: seq<int>, b: seq<int>, p: nat, c: seq<int>)
    requires w != [] && AllPositive(w) && Even(w, b) && Turn(w, b, p, c)
    ensures Even(w, c)
  {
    TurnSum(w, b, p, c);
    WeightsPositive(w);
    var raised := seq(|w|, i requires 0 <= i < |w| => b[i] + w[i]);
    hide Sum;
    if raised[p] <= 0 {
      SumAtMost(raised, 0);
      assert false;
    }
  }

  lemma {:induction false} AlwaysEven(w: seq<int>, bs: seq<seq<int>>, picks: seq<nat>, k: nat)
    requires Rotation(w, bs, picks) && k < |bs|
    ensures Even(w, bs[k])
  {
    if k == 0 {
      SumAtMost(bs[0], 0);
      SumAtLeast(bs[0], 0);
      WeightsPositive(w);
    } else {
      AlwaysEven(w, bs, picks, k - 1);
      assert Turn(w, bs[k - 1], picks[k - 1], bs[k - 1 + 1]);
      hide Turn, Even;
      StaysEven(w, bs[k - 1], picks[k - 1], bs[k]);
    }
  }

  lemma {:induction false} Owed(k: nat, w: int, total: int, c: int)
    ensures (k + 1) * w == k * w + w && total * (c + 1) == total * c + total
  {
  }

  /** A balance is what was earned minus what was paid. */
  lemma {:induction false} BalanceIs(w: seq<int>, bs: seq<seq<int>>, picks: seq<nat>, k: nat, i: nat)
    requires Rotation(w, bs, picks) && k < |bs| && i < |w|
    ensures |bs[k]| == |w| && bs[k][i] == k * w[i] - Sum(w) * Times(picks[..k], i)
  {
    if k == 0 {
      assert picks[..0] == [];
    } else {
      BalanceIs(w, bs, picks, k - 1, i);
      assert Turn(w, bs[k - 1], picks[k - 1], bs[k - 1 + 1]);
      TimesPush(picks, k - 1, i);
      hide Times, Sum;
      Owed(k - 1, w[i], Sum(w), Times(picks[..k - 1], i));
    }
  }

  lemma {:induction false} TimesSum(n: nat, picks: seq<nat>, k: nat)
    requires k <= |picks| && forall j :: 0 <= j < |picks| ==> picks[j] < n
    ensures Sum(AllTimes(n, picks[..k])) == k
  {
    if k == 0 {
      assert picks[..0] == [];
      SumAtMost(AllTimes(n, []), 0);
      SumAtLeast(AllTimes(n, []), 0);
    } else {
      TimesSum(n, picks, k - 1);
      var before, p := AllTimes(n, picks[..k - 1]), picks[k - 1];
      forall i | 0 <= i < n
        ensures AllTimes(n, picks[..k])[i] == before[p := before[p] + 1][i]
      {
        TimesPush(picks, k - 1, i);
      }
      hide Times, Sum;
      assert AllTimes(n, picks[..k]) == before[p := before[p] + 1];
      SumUpdate(before, p, before[p] + 1);
    }
  }

  lemma {:induction false} NotMore(total: int, c: int, w: int)
    requires total > 0 && total * w - total * c > -total
    ensures c <= w
  {
    if c >= w + 1 {
      Grows(total, w + 1, c);
      assert false;
    }
  }

  lemma {:induction false} Grows(total: int, x: int, y: int)
    requires total > 0 && x <= y
    ensures total * x <= total * y
  {
  }

  /** After as many turns as the weights add up to, each has had its weight, and all start anew. */
  lemma {:induction false} FirstRound(w: seq<int>, bs: seq<seq<int>>, picks: seq<nat>)
    requires Rotation(w, bs, picks) && Sum(w) <= |picks|
    ensures 0 < Sum(w) && bs[Sum(w)] == bs[0]
  {
    WeightsPositive(w);
    var total, n := Sum(w), |w|;
    var times := AllTimes(n, picks[..total]);
    forall j | 0 <= j < |picks|
      ensures picks[j] < n
    {
      assert Turn(w, bs[j], picks[j], bs[j + 1]);
    }
    AlwaysEven(w, bs, picks, total);
    forall i | 0 <= i < n
      ensures times[i] <= w[i]
    {
      BalanceIs(w, bs, picks, total, i);
      NotMore(total, times[i], w[i]);
    }
    TimesSum(n, picks, total);
    hide Sum, Times, AllTimes, Turn;
    SumTight(times, w);
    forall i | 0 <= i < n
      ensures |bs[total]| == n && bs[total][i] == bs[0][i]
    {
      BalanceIs(w, bs, picks, total, i);
      TimesAt(n, picks[..total], i);
    }
    assert bs[total] == bs[0];
  }

  lemma {:induction false} TimesAt(n: nat, picks: seq<nat>, i: nat)
    requires i < n
    ensures AllTimes(n, picks)[i] == Times(picks, i)
  {
  }

  lemma {:induction false} SameTurn(w: seq<int>, b: seq<int>, p: nat, c: seq<int>, d: seq<int>)
    requires Turn(w, b, p, c) && Turn(w, b, p, d)
    ensures c == d
  {
    hide Sum;
  }

  lemma {:induction false} Repeats(w: seq<int>, bs: seq<seq<int>>, picks: seq<nat>, k: nat)
    requires Rotation(w, bs, picks) && k + Sum(w) <= |picks|
    ensures 0 < Sum(w) && bs[k + Sum(w)] == bs[k]
  {
    FirstRound(w, bs, picks);
    if k > 0 {
      Repeats(w, bs, picks, k - 1);
      var l := k - 1 + Sum(w);
      assert Turn(w, bs[k - 1], picks[k - 1], bs[k - 1 + 1]) && Turn(w, bs[l], picks[l], bs[l + 1]);
      hide Turn;
      SameTurn(w, bs[l], picks[l], bs[l + 1], bs[k]);
    }
  }

  lemma {:induction false} Cancels(total: int, k: int, w: int, c: int, d: int)
    requires total > 0 && k * w - total * c == (k + total) * w - total * d
    ensures d - c == w
  {
    assert (k + total) * w == k * w + total * w;
    assert total * (d - c) == total * d - total * c;
    assert total * (d - c - w) == 0;
  }

  lemma {:induction false} EveryStretchIsFair(w: seq<int>, bs: seq<seq<int>>, picks: seq<nat>, k: nat, i: nat)
    requires Rotation(w, bs, picks) && k + Sum(w) <= |picks| && i < |w|
    ensures 0 < Sum(w) && Times(picks[..k + Sum(w)], i) - Times(picks[..k], i) == w[i]
  {
    Repeats(w, bs, picks, k);
    BalanceIs(w, bs, picks, k, i);
    BalanceIs(w, bs, picks, k + Sum(w), i);
    hide *;
    Cancels(Sum(w), k, w[i], Times(picks[..k], i), Times(picks[..k + Sum(w)], i));
  }

  // ----- Selections while all sub-groups may be used -----

  /** All sub-groups are open to the request, and none is preferred. */
  ghost predicate AllOpen(q: Query, us: seq<Item>) {
    !Tiered(us) && forall i :: 0 <= i < |us| ==> OpenAt(q, us, i)
  }

  /** Selections `rs` for the requests `qs`, one after the other, from the state `states[0]`. */
  ghost predicate Served(qs: seq<Query>, eff: seq<int>, states: seq<seq<Item>>, rs: seq<Option<nat>>) {
    && |qs| == |rs| && |states| == |rs| + 1
    && forall k :: 0 <= k < |rs| ==>
         && SameItems(states[k], states[k + 1])
         && IsChoice(qs[k], states[k], rs[k]) && Selection(qs[k], states[k], eff, rs[k], states[k + 1])
  }

  lemma {:induction false} AllOpenTo(q: Query, us: seq<Item>, i: nat)
    requires AllOpen(q, us) && i < |us|
    ensures OpenTo(q, us, i)
  {
    assert OpenAt(q, us, i);
    hide Tier;
  }

  /** While all are open a selection is one turn: the first pick is the result. */
  lemma {:induction false} OneTurn(q: Query, us: seq<Item>, eff: seq<int>, r: Option<nat>, vs: seq<Item>)
    requires AllOpen(q, us) && |us| > 1 && Selection(q, us, eff, r, vs)
    ensures r.Some? && IsPick(us, eff, vs, r.value)
  {
    hide AllOpen, OpenTo, IsPick, Rivals, FirstOfRivals;
    var steps, picks :| Turns(us, eff, steps, picks, vs) && Ends(q, us, picks, r);
    AllOpenTo(q, us, picks[0]);
    assert |picks| == 1;
    AllOpenTo(q, us, picks[|picks| - 1]);
  }

  function AllCurrents(states: seq<seq<Item>>): (bs: seq<seq<int>>)
    ensures |bs| == |states|
  {
    seq(|states|, k requires 0 <= k < |states| => Currents(states[k]))
  }

  function Results(rs: seq<Option<nat>>): (picks: seq<nat>)
    ensures |picks| == |rs|
  {
    seq(|rs|, k requires 0 <= k < |rs| => rs[k].GetOr(0))
  }

  lemma {:induction false} PickIsTurn(us: seq<Item>, eff: seq<int>, vs: seq<Item>, b: nat)
    requires IsPick(us, eff, vs, b)
    ensures Turn(eff, Currents(us), b, Currents(vs))
  {
    hide Sum;
  }

  /** The favourite is determined by the balances, and by what never changes. */
  lemma {:induction false} SamePick(us: seq<Item>, eff: seq<int>, vs: seq<Item>, b: nat, xs: seq<Item>, ys: seq<Item>, c: nat)
    requires IsPick(us, eff, vs, b) && IsPick(xs, eff, ys, c) && SameItems(us, xs) && Currents(us) == Currents(xs)
    ensures b == c
  {
    hide Sum, IsFavourite;
    forall i | 0 <= i < |us|
      ensures us[i].current == xs[i].current && us[i].priority == xs[i].priority
    {
      assert us[i].current == Currents(us)[i] && Currents(xs)[i] == xs[i].current;
    }
    SameFavourite(us, eff, b, xs, c);
  }

  lemma {:induction false} SameFavourite(us: seq<Item>, eff: seq<int>, b: nat, xs: seq<Item>, c: nat)
    requires |us| == |xs| && forall i :: 0 <= i < |us| ==> us[i].current == xs[i].current && us[i].priority == xs[i].priority
    requires IsFavourite(us, eff, |us|, b) && IsFavourite(xs, eff, |xs|, c)
    ensures b == c
  {
    assert us[b].current + eff[b] == us[c].current + eff[c];
    assert us[b].priority == us[c].priority;
  }

  lemma {:induction false} SameAll(states: seq<seq<Item>>, j: nat, k: nat)
    requires j <= k < |states| && forall l :: 0 <= l < |states| - 1 ==> SameItems(states[l], states[l + 1])
    ensures SameItems(states[j], states[k])
  {
    if j < k {
      SameAll(states, j, k - 1);
      assert SameItems(states[k - 1], states[k - 1 + 1]);
    }
  }

  lemma {:induction false} ServedRotates(qs: seq<Query>, eff: seq<int>, states: seq<seq<Item>>, rs: seq<Option<nat>>)
    requires Served(qs, eff, states, rs) && |eff| == |states[0]| > 1 && AllPositive(eff)
    requires forall i :: 0 <= i < |states[0]| ==> states[0][i].current == 0
    requires forall k :: 0 <= k < |qs| ==> AllOpen(qs[k], states[k])
    ensures Rotation(eff, AllCurrents(states), Results(rs))
  {
    var bs, picks := AllCurrents(states), Results(rs);
    hide AllOpen, IsChoice, Selection, Turn, IsPick, SameItems, Currents;
    forall k | 0 <= k < |picks|
      ensures IsPick(states[k], eff, states[k + 1], picks[k])
      ensures Turn(eff, bs[k], picks[k], bs[k + 1])
    {
      SameAll(states, 0, k);
      SameLength(states[0], states[k]);
      OneTurn(qs[k], states[k], eff, rs[k], states[k + 1]);
      PickIsTurn(states[k], eff, states[k + 1], picks[k]);
    }
    forall j, k | 0 <= j < |picks| && 0 <= k < |picks| && bs[j] == bs[k]
      ensures picks[j] == picks[k]
    {
      if j <= k {
        SameAll(states, j, k);
        SamePick(states[j], eff, states[j + 1], picks[j], states[k], states[k + 1], picks[k]);
      } else {
        SameAll(states, k, j);
        SamePick(states[k], eff, states[k + 1], picks[k], states[j], states[j + 1], picks[j]);
      }
    }
    StartsAtZero(states[0]);
  }

  lemma {:induction false} SameLength(us: seq<Item>, vs: seq<Item>)
    requires SameItems(us, vs)
    ensures |us| == |vs|
  {
  }

  lemma {:induction false} StartsAtZero(us: seq<Item>)
    requires forall i :: 0 <= i < |us| ==> us[i].current == 0
    ensures |Currents(us)| == |us| && forall i :: 0 <= i < |us| ==> Currents(us)[i] == 0
  {
  }

  /**
   * From a new selector, while all sub-groups are open and of one tier and the weights do not change, every
   * stretch of selections as long as the weights add up to goes to each sub-group as often as its weight.
   */
  lemma {:induction false} SelectionsAreFair(qs: seq<Query>, eff: seq<int>, states: seq<seq<Item>>, rs: seq<Option<nat>>, k: nat, i: nat)
    requires Served(qs, eff, states, rs) && |eff| == |states[0]| > 1 && AllPositive(eff)
    requires forall i :: 0 <= i < |states[0]| ==> states[0][i].current == 0
    requires forall k :: 0 <= k < |qs| ==> AllOpen(qs[k], states[k])
    requires k + Sum(eff) <= |rs| && i < |eff|
    ensures 0 < Sum(eff) && Times(Results(rs)[..k + Sum(eff)], i) - Times(Results(rs)[..k], i) == eff[i]
    ensures forall j :: 0 <= j < |rs| ==> rs[j] == Some(Results(rs)[j])
  {
    ServedRotates(qs, eff, states, rs);
    ResultsAre(qs, eff, states, rs);
    hide *;
    EveryStretchIsFair(eff, AllCurrents(states), Results(rs), k, i);
  }

  lemma {:induction false} ResultsAre(qs: seq<Query>, eff: seq<int>, states: seq<seq<Item>>, rs: seq<Option<nat>>)
    requires Served(qs, eff, states, rs) && |states[0]| > 1
    requires forall k :: 0 <= k < |qs| ==> AllOpen(qs[k], states[k])
    ensures forall j :: 0 <= j < |rs| ==> rs[j] == Some(Results(rs)[j])
  {
    hide AllOpen, IsChoice, Selection, SameItems;
    forall k | 0 <= k < |rs|
      ensures rs[k].Some?
    {
      SameAll(states, 0, k);
      SameLength(states[0], states[k]);
      OneTurn(qs[k], states[k], eff, rs[k], states[k + 1]);
    }
  }
}
