/** Smooth weighted round robin over the upstreams of a channel, with fixed weights. */
module UpstreamRotation {
  import opened Wrappers
  import opened Sums

  datatype Upstream = Upstream(url: string, weight: int, current: int)

  // ----- Specification of one pick -----

  function Weights(us: seq<Upstream>): seq<int> {
    seq(|us|, i requires 0 <= i < |us| => us[i].weight)
  }

  function Currents(us: seq<Upstream>): seq<int> {
    seq(|us|, i requires 0 <= i < |us| => us[i].current)
  }

  function Total(us: seq<Upstream>): int {
    Sum(Weights(us))
  }

  function Raised(us: seq<Upstream>): seq<Upstream> {
    seq(|us|, i requires 0 <= i < |us| => us[i].(current := us[i].current + us[i].weight))
  }

  /** The first upstream with the largest balance. */
  function Best(us: seq<Upstream>): (b: nat)
    requires us != []
    ensures b < |us|
    ensures forall i :: 0 <= i < |us| ==> us[i].current <= us[b].current
    ensures forall i :: 0 <= i < b ==> us[i].current < us[b].current
  {
    if |us| == 1 then 0
    else
      var b := Best(us[..|us| - 1]);
      if us[|us| - 1].current > us[b].current then |us| - 1 else b
  }

  function Picked(us: seq<Upstream>): seq<Upstream>
    requires us != []
  {
    var r := Raised(us);
    var b := Best(r);
    r[b := r[b].(current := r[b].current - Total(us))]
  }

  // ----- The same, upstream by upstream -----

  function RaisedOne(u: Upstream): Upstream {
    u.(current := u.current + u.weight)
  }

  function TotalOf(us: seq<Upstream>, i: nat): int
    requires i <= |us|
  {
    Sum(Weights(us)[..i])
  }

  function BestOf(us: seq<Upstream>, i: nat): (b: nat)
    requires 0 < i <= |us|
    ensures b < i
  {
    Best(Raised(us)[..i])
  }

  lemma {:induction false} RaisedOneIs(u: Upstream)
    ensures RaisedOne(u) == u.(current := u.current + u.weight)
  {
  }

  lemma {:induction false} RaisedIs(us: seq<Upstream>)
    ensures |Raised(us)| == |us| && forall j :: 0 <= j < |us| ==> Raised(us)[j] == RaisedOne(us[j])
  {
  }

  lemma {:induction false} RaiseNone(us: seq<Upstream>)
    ensures TotalOf(us, 0) == 0
  {
  }

  lemma {:induction false} RaiseStep(us: seq<Upstream>, i: nat)
    requires i < |us|
    ensures TotalOf(us, i + 1) == TotalOf(us, i) + us[i].weight
    ensures BestOf(us, i + 1)
         == if i == 0 || RaisedOne(us[i]).current > RaisedOne(us[BestOf(us, i)]).current then i else BestOf(us, i)
  {
    var raised, weights := Raised(us), Weights(us);
    assert weights[..i + 1] == weights[..i] + [us[i].weight];
    SumPush(weights[..i], us[i].weight);
    assert raised[..i + 1][..i] == raised[..i];
  }

  lemma {:induction false} RaiseAll(us: seq<Upstream>)
    ensures TotalOf(us, |us|) == Total(us)
    ensures us != [] ==> Raised(us) != [] && BestOf(us, |us|) == Best(Raised(us))
  {
    assert Weights(us)[..|us|] == Weights(us) && Raised(us)[..|us|] == Raised(us);
  }

  /** The loop has raised the first i balances. */
  ghost predicate Halfway(us: seq<Upstream>, cs: seq<Upstream>, i: nat, total: int, best: nat) {
    && |cs| == |us| && i <= |us|
    && (forall j :: 0 <= j < i ==> cs[j] == RaisedOne(us[j]))
    && (forall j :: i <= j < |us| ==> cs[j] == us[j])
    && total == TotalOf(us, i) && best == if i == 0 then 0 else BestOf(us, i)
  }

  lemma {:induction false} HalfwayStarts(us: seq<Upstream>)
    ensures Halfway(us, us, 0, 0, 0)
  {
    RaiseNone(us);
  }

  lemma {:induction false} HalfwayOn(us: seq<Upstream>, cs: seq<Upstream>, i: nat, total: int, best: nat, ds: seq<Upstream>)
    requires Halfway(us, cs, i, total, best) && i < |us| && ds == cs[i := RaisedOne(cs[i])]
    ensures best < |us|
    ensures Halfway(us, ds, i + 1, total + cs[i].weight, if i == 0 || ds[i].current > ds[best].current then i else best)
  {
    RaiseStep(us, i);
    hide RaisedOne, TotalOf, BestOf;
  }

  lemma {:induction false} HalfwayEnds(us: seq<Upstream>, cs: seq<Upstream>, total: int, best: nat)
    requires us != [] && Halfway(us, cs, |us|, total, best)
    ensures cs == Raised(us) && total == Total(us) && best == Best(cs)
  {
    RaiseAll(us);
    RaisedIs(us);
    hide *;
    HalfwayIs(us, cs, total, best);
  }

  lemma {:induction false} HalfwayIs(us: seq<Upstream>, cs: seq<Upstream>, total: int, best: nat)
    requires us != [] && Halfway(us, cs, |us|, total, best)
    ensures |cs| == |us| && (forall j :: 0 <= j < |us| ==> cs[j] == RaisedOne(us[j]))
    ensures total == TotalOf(us, |us|) && best == BestOf(us, |us|)
  {
  }

  // ----- The channel -----

  class BaseChannel {
    const upstreams: array<Upstream>

    constructor (us: seq<Upstream>)
      ensures fresh(upstreams) && upstreams[..] == us
    {
      var a := new Upstream[|us|](i requires 0 <= i < |us| => us[i]);
      upstreams := a;
    }

    /** Add every weight to its balance, on the way to the total and the first largest balance. */
    method Raise() returns (totalWeight: int, best: nat)
      requires upstreams.Length > 0
      modifies upstreams
      ensures upstreams[..] == Raised(old(upstreams[..]))
      ensures totalWeight == Total(old(upstreams[..])) && best == Best(upstreams[..])
    {
      ghost var us := upstreams[..];
      totalWeight, best := 0, 0;
      HalfwayStarts(us);
      hide *;
      for i := 0 to upstreams.Length
        invariant Halfway(us, upstreams[..], i, totalWeight, best)
      {
        ghost var cs := upstreams[..];
        RaisedOneIs(upstreams[i]);
        upstreams[i] := upstreams[i].(current := upstreams[i].current + upstreams[i].weight);
        HalfwayOn(us, cs, i, totalWeight, best, upstreams[..]);
        totalWeight := totalWeight + upstreams[i].weight;
        if i == 0 || upstreams[i].current > upstreams[best].current {
          best := i;
        }
      }
      HalfwayEnds(us, upstreams[..], totalWeight, best);
    }

    /** One upstream is used as it is; with more, the balances move. */
    method GetUpstreamURL() returns (url: Option<string>)
      modifies upstreams
      ensures var us := old(upstreams[..]);
              if |us| == 0 then url == None && upstreams[..] == us
              else if |us| == 1 then url == Some(us[0].url) && upstreams[..] == us
              else url == Some(us[Best(Raised(us))].url) && upstreams[..] == Picked(us)
    {
      if upstreams.Length == 0 {
        return None;
      }
      if upstreams.Length == 1 {
        return Some(upstreams[0].url);
      }
      hide Best, Total;
      var totalWeight, best := Raise();
      upstreams[best] := upstreams[best].(current := upstreams[best].current - totalWeight);
      assert upstreams[..] == Picked(old(upstreams[..]));
      url := Some(upstreams[best].url);
    }
  }

  // ----- Runs -----

  /** A new channel, as internal/channel/factory.go:111-121 builds it, with more than one upstream. */
  predicate Started(us: seq<Upstream>) {
    |us| >= 2 && forall i :: 0 <= i < |us| ==> us[i].weight > 0 && us[i].current == 0
  }

  function After(us: seq<Upstream>, k: nat): (r: seq<Upstream>)
    requires us != []
    ensures |r| == |us|
  {
    if k == 0 then us else Picked(After(us, k - 1))
  }

  /** Who is picked after `k` earlier picks. */
  function Choice(us: seq<Upstream>, k: nat): nat
    requires us != []
  {
    Best(Raised(After(us, k)))
  }

  /** How often upstream `i` is among the first `k` picks. */
  function Count(us: seq<Upstream>, k: nat, i: nat): nat
    requires us != []
  {
    if k == 0 then 0 else Count(us, k - 1, i) + (if Choice(us, k - 1) == i then 1 else 0)
  }

  function Counts(us: seq<Upstream>, k: nat): (r: seq<int>)
    requires us != []
    ensures |r| == |us|
  {
    seq(|us|, i requires 0 <= i < |us| => Count(us, k, i))
  }

  // ----- One pick -----

  /** The balances sum to zero and none has fallen a whole round behind. */
  ghost predicate Balanced(us: seq<Upstream>) {
    && |us| >= 2
    && (forall i :: 0 <= i < |us| ==> us[i].weight > 0)
    && Sum(Currents(us)) == 0
    && forall i :: 0 <= i < |us| ==> us[i].current > -Total(us)
  }

  lemma {:induction false} PickedAt(us: seq<Upstream>, i: nat)
    requires i < |us|
    ensures |Picked(us)| == |us|
    ensures Picked(us)[i] == us[i].(current := us[i].current + us[i].weight - (if i == Best(Raised(us)) then Total(us) else 0))
  {
    hide Best, Total;
  }

  lemma {:induction false} PickedWeights(us: seq<Upstream>)
    requires us != []
    ensures |Picked(us)| == |us| && Weights(Picked(us)) == Weights(us)
  {
    hide Picked;
    forall i | 0 <= i < |us|
      ensures |Picked(us)| == |us| && Picked(us)[i].weight == us[i].weight
    {
      PickedAt(us, i);
    }
    PickedAt(us, 0);
  }

  lemma {:induction false} PickedSum(us: seq<Upstream>)
    requires us != []
    ensures Sum(Currents(Picked(us))) == Sum(Currents(us))
    ensures Sum(Currents(Raised(us))) == Sum(Currents(us)) + Total(us)
  {
    var r, p := Raised(us), Picked(us);
    var b := Best(r);
    hide Best;
    assert Currents(p) == Currents(r)[b := r[b].current - Total(us)];
    SumAdd(Currents(us), Weights(us), Currents(r));
    SumUpdate(Currents(r), b, r[b].current - Total(us));
  }

  /** The upstream picked has a positive balance to be charged. */
  lemma {:induction false} BestPositive(us: seq<Upstream>)
    requires Balanced(us)
    ensures Raised(us)[Best(Raised(us))].current > 0
  {
    var r := Raised(us);
    var b := Best(r);
    PickedSum(us);
    SumPositive(Weights(us));
    assert forall i :: 0 <= i < |us| ==> Currents(r)[i] <= r[b].current;
    hide Best;
    if r[b].current <= 0 {
      SumAtMost(Currents(r), 0);
      assert false;
    }
  }

  lemma {:induction false} PickedBalanced(us: seq<Upstream>)
    requires Balanced(us)
    ensures Balanced(Picked(us))
  {
    PickedSum(us);
    PickedWeights(us);
    BestPositive(us);
    var b := Best(Raised(us));
    assert Raised(us)[b].current == us[b].current + us[b].weight;
    hide Picked, Best, Raised, Currents, Weights;
    forall i | 0 <= i < |us|
      ensures Picked(us)[i].weight > 0 && Picked(us)[i].current > -Total(us)
    {
      PickedAt(us, i);
    }
  }

  lemma {:induction false} SumPositive(ws: seq<int>)
    requires ws != [] && forall i :: 0 <= i < |ws| ==> ws[i] > 0
    ensures Sum(ws) > 0
  {
    SumAtLeast(ws, 1);
  }

  // ----- Main results -----

  lemma {:induction false} AfterBalanced(us: seq<Upstream>, k: nat)
    requires Started(us)
    ensures Balanced(After(us, k)) && Weights(After(us, k)) == Weights(us)
  {
    if k == 0 {
      SumAtMost(Currents(us), 0);
      SumAtLeast(Currents(us), 0);
      SumPositive(Weights(us));
    } else {
      AfterBalanced(us, k - 1);
      hide Picked, Balanced, Weights;
      PickedBalanced(After(us, k - 1));
      PickedWeights(After(us, k - 1));
    }
  }

  /** After k picks, the balance of an upstream is what it earned minus what it was charged. */
  lemma {:induction false} BalanceIs(us: seq<Upstream>, k: nat, i: nat)
    requires Started(us) && i < |us|
    ensures After(us, k)[i] == us[i].(current := k * us[i].weight - Total(us) * Count(us, k, i))
  {
    hide Picked, Best, Balanced, Weights, Raised;
    var total, w := Total(us), us[i].weight;
    if k > 0 {
      BalanceIs(us, k - 1, i);
      AfterBalanced(us, k - 1);
      PickedAt(After(us, k - 1), i);
      Earned(k, w);
      Charged(total, Count(us, k - 1, i));
    }
  }

  lemma {:induction false} Earned(k: nat, w: int)
    requires k > 0
    ensures k * w == (k - 1) * w + w
  {
  }

  lemma {:induction false} Charged(total: int, c: int)
    ensures total * (c + 1) == total * c + total
  {
  }

  lemma {:induction false} CountsPush(us: seq<Upstream>, k: nat)
    requires us != [] && k > 0
    ensures var b, before := Choice(us, k - 1), Counts(us, k - 1);
            b < |before| && Counts(us, k) == before[b := before[b] + 1]
  {
    hide After;
    ChoiceInRange(us, k - 1);
    hide Choice;
  }

  lemma {:induction false} ChoiceInRange(us: seq<Upstream>, k: nat)
    requires us != []
    ensures Choice(us, k) < |us|
  {
  }

  lemma {:induction false} NoCounts(us: seq<Upstream>)
    requires us != []
    ensures Sum(Counts(us, 0)) == 0
  {
    hide Choice;
    SumAtMost(Counts(us, 0), 0);
    SumAtLeast(Counts(us, 0), 0);
  }

  lemma {:induction false} CountsSum(us: seq<Upstream>, k: nat)
    requires us != []
    ensures Sum(Counts(us, k)) == k
  {
    hide *;
    if k == 0 {
      NoCounts(us);
    } else {
      CountsSum(us, k - 1);
      CountsPush(us, k);
      var before := Counts(us, k - 1);
      SumUpdate(before, Choice(us, k - 1), before[Choice(us, k - 1)] + 1);
    }
  }

  /** At any moment no upstream has had a whole pick more than its fair share. */
  lemma {:induction false} NeverAhead(us: seq<Upstream>, k: nat, i: nat)
    requires Started(us) && i < |us|
    ensures Total(us) * Count(us, k, i) < k * us[i].weight + Total(us)
    ensures Sum(Currents(After(us, k))) == 0
  {
    BalanceIs(us, k, i);
    AfterBalanced(us, k);
  }

  /** Nor is any left behind by more than the other upstreams could be ahead together. */
  lemma {:induction false} NeverStarved(us: seq<Upstream>, k: nat, i: nat)
    requires Started(us) && i < |us|
    ensures us != [] && Total(us) * Count(us, k, i) >= k * us[i].weight - (|us| - 1) * (Total(us) - 1)
  {
    hide *;
    BalanceIs(us, k, i);
    AfterBalanced(us, k);
    BalanceAtMost(After(us, k), i);
    SameTotal(After(us, k), us);
  }

  lemma {:induction false} SameTotal(a: seq<Upstream>, b: seq<Upstream>)
    requires Weights(a) == Weights(b)
    ensures Total(a) == Total(b)
  {
  }

  lemma {:induction false} BalanceAtMost(us: seq<Upstream>, i: nat)
    requires Balanced(us) && i < |us|
    ensures us[i].current <= (|us| - 1) * (Total(us) - 1)
  {
    var total, cs := Total(us), Currents(us);
    assert cs[i] == us[i].current && forall j :: 0 <= j < |cs| ==> cs[j] >= 1 - total;
    hide *;
    SumRest(cs, i, 1 - total);
    Negated(|us| - 1, total - 1);
  }

  lemma {:induction false} Negated(n: int, w: int)
    ensures n * (-w) == -(n * w)
  {
  }

  /** A full round picks every upstream exactly as often as its weight and ends where it began. */
  lemma {:induction false} FullRound(us: seq<Upstream>)
    requires Started(us)
    ensures Total(us) > 0
    ensures Counts(us, Total(us)) == Weights(us)
    ensures After(us, Total(us)) == us
  {
    SumPositive(Weights(us));
    var total := Total(us);
    var counts := Counts(us, total);
    forall i | 0 <= i < |us|
      ensures counts[i] <= us[i].weight
    {
      NeverAhead(us, total, i);
      Cancel(total, counts[i], us[i].weight);
    }
    CountsSum(us, total);
    SumTight(counts, Weights(us));
    forall i | 0 <= i < |us|
      ensures After(us, total)[i] == us[i]
    {
      BalanceIs(us, total, i);
      assert counts[i] == Weights(us)[i];
    }
  }

  lemma {:induction false} Cancel(total: int, c: int, w: int)
    requires total > 0 && total * c < total * w + total
    ensures c <= w
  {
    if c >= w + 1 {
      ScaleUp(total, w + 1, c);
      assert false;
    }
  }

  lemma {:induction false} ScaleUp(total: int, x: int, y: int)
    requires total > 0 && x <= y
    ensures total * x <= total * y
  {
  }

  lemma {:induction false} AfterAfter(us: seq<Upstream>, m: nat, k: nat)
    requires us != []
    ensures After(us, m + k) == After(After(us, m), k)
  {
    hide Picked;
    if k > 0 {
      AfterAfter(us, m, k - 1);
    }
  }

  lemma {:induction false} CountAfter(us: seq<Upstream>, m: nat, k: nat, i: nat)
    requires us != []
    ensures Count(us, m + k, i) == Count(us, m, i) + Count(After(us, m), k, i)
  {
    hide Picked, Best, Raised;
    if k > 0 {
      CountAfter(us, m, k - 1, i);
      AfterAfter(us, m, k - 1);
    }
  }

  lemma {:induction false} RoundCount(us: seq<Upstream>, i: nat)
    requires Started(us) && i < |us|
    ensures us != [] && Total(us) > 0
    ensures Count(us, Total(us), i) == us[i].weight
    ensures After(us, Total(us)) == us
  {
    FullRound(us);
    hide Total, After, Count;
    assert Counts(us, Total(us))[i] == Weights(us)[i];
  }

  /** In every stretch of consecutive picks as long as the total weight, each upstream gets exactly its weight. */
  lemma {:induction false} EveryWindowIsFair(us: seq<Upstream>, k: nat, i: nat)
    requires Started(us) && i < |us|
    ensures us != [] && Total(us) > 0
    ensures Count(us, k + Total(us), i) - Count(us, k, i) == us[i].weight
    ensures After(us, k + Total(us)) == After(us, k)
  {
    hide *;
    RoundCount(us, i);
    var total := Total(us);
    AfterAfter(us, total, k);
    CountAfter(us, total, k, i);
    assert total + k == k + total;
  }
}
