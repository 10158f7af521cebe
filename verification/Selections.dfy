/** Ordered selections from a sequence, and sequences put together. */
module Selections {
  function Count<T>(xs: seq<T>, wanted: T -> bool): nat {
    if xs == [] then 0
    else Count(xs[..|xs| - 1], wanted) + (if wanted(xs[|xs| - 1]) then 1 else 0)
  }

  /** `ys` holds what the wanted elements of `xs` stand for, each behind those of the wanted ones before it, and no more. */
  ghost predicate Selected<S(!new), T>(xs: seq<S>, ys: seq<T>, wanted: S -> bool, value: S -> T) {
    && |ys| == Count(xs, wanted)
    && forall i :: 0 <= i < |xs| && wanted(xs[i]) ==>
         Count(xs[..i], wanted) < |ys| && ys[Count(xs[..i], wanted)] == value(xs[i])
  }

  lemma {:induction false} CountPush<T>(xs: seq<T>, wanted: T -> bool, x: T)
    ensures Count(xs + [x], wanted) == Count(xs, wanted) + (if wanted(x) then 1 else 0)
  {
    assert (xs + [x])[..|xs|] == xs;
  }

  lemma {:induction false} SelectedNone<S(!new), T>(wanted: S -> bool, value: S -> T)
    ensures Selected([], [], wanted, value)
  {
  }

  lemma {:induction false} SelectedPush<S(!new), T>(xs: seq<S>, ys: seq<T>, wanted: S -> bool, value: S -> T, x: S)
    requires Selected(xs, ys, wanted, value)
    ensures Selected(xs + [x], if wanted(x) then ys + [value(x)] else ys, wanted, value)
  {
    var all := xs + [x];
    CountPush(xs, wanted, x);
    hide Count;
    forall i | 0 <= i < |all| && wanted(all[i])
      ensures var zs := if wanted(x) then ys + [value(x)] else ys;
              Count(all[..i], wanted) < |zs| && zs[Count(all[..i], wanted)] == value(all[i])
    {
      if i < |xs| {
        assert all[i] == xs[i] && all[..i] == xs[..i];
      } else {
        assert all[..i] == xs;
      }
    }
  }

  function Flat<T>(ss: seq<seq<T>>): seq<T> {
    if ss == [] then [] else Flat(ss[..|ss| - 1]) + ss[|ss| - 1]
  }

  lemma {:induction false} FlatPush<T>(ss: seq<seq<T>>, s: seq<T>)
    ensures Flat(ss + [s]) == Flat(ss) + s
  {
    assert (ss + [s])[..|ss|] == ss;
  }
}
