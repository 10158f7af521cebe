/** Insertion sort by an arbitrary ranking: ordered, a permutation, and stable. */
module Sorting {
  type Less<!T> = (T, T) -> bool

  /** "Not less" is asymmetric and transitive, so that ties are an equivalence. */
  ghost predicate Ranks<T(!new)>(less: Less<T>) {
    && (forall x, y :: less(x, y) ==> !less(y, x))
    && (forall x, y, z :: !less(x, y) && !less(y, z) ==> !less(x, z))
  }

  function Insert<T>(s: seq<T>, c: T, less: Less<T>): (r: seq<T>)
    ensures |r| == |s| + 1
  {
    if s != [] && less(c, s[|s| - 1]) then Insert(s[..|s| - 1], c, less) + [s[|s| - 1]] else s + [c]
  }

  function Sorted<T>(s: seq<T>, less: Less<T>): (r: seq<T>)
    ensures |r| == |s|
  {
    if s == [] then [] else Insert(Sorted(s[..|s| - 1], less), s[|s| - 1], less)
  }

  /** No element comes after one it is less than. */
  ghost predicate Ordered<T>(s: seq<T>, less: Less<T>) {
    forall i, j :: 0 <= i < j < |s| ==> !less(s[j], s[i])
  }

  /** The elements that tie with `k`, in order. */
  function Peers<T>(s: seq<T>, k: T, less: Less<T>): seq<T> {
    if s == [] then []
    else
      var x := s[|s| - 1];
      Peers(s[..|s| - 1], k, less) + (if !less(x, k) && !less(k, x) then [x] else [])
  }

  // ----- What the sort yields -----

  lemma {:induction false} InsertMembers<T>(s: seq<T>, c: T, less: Less<T>)
    ensures multiset(Insert(s, c, less)) == multiset(s) + multiset{c}
    ensures forall x :: x in Insert(s, c, less) <==> x in s || x == c
  {
    if s != [] && less(c, s[|s| - 1]) {
      var front, last := s[..|s| - 1], s[|s| - 1];
      InsertMembers(front, c, less);
      assert s == front + [last];
    }
  }

  lemma {:induction false} InsertOrdered<T(!new)>(s: seq<T>, c: T, less: Less<T>)
    requires Ordered(s, less) && Ranks(less)
    ensures Ordered(Insert(s, c, less), less)
  {
    if s != [] && less(c, s[|s| - 1]) {
      var front, last := s[..|s| - 1], s[|s| - 1];
      InsertOrdered(front, c, less);
      InsertMembers(front, c, less);
      var r := Insert(front, c, less);
      forall i | 0 <= i < |r|
        ensures !less(last, r[i])
      {
        assert r[i] in r;
        if r[i] in front {
          var j :| 0 <= j < |front| && front[j] == r[i];
          assert s[j] == r[i];
        }
      }
    } else {
      forall i | 0 <= i < |s|
        ensures !less(c, s[i])
      {
        assert i < |s| - 1 ==> !less(s[|s| - 1], s[i]);
      }
    }
  }

  lemma {:induction false} InsertPeers<T(!new)>(s: seq<T>, c: T, k: T, less: Less<T>)
    requires Ranks(less)
    ensures Peers(Insert(s, c, less), k, less) == Peers(s, k, less) + (if !less(c, k) && !less(k, c) then [c] else [])
  {
    if s != [] && less(c, s[|s| - 1]) {
      var front, last := s[..|s| - 1], s[|s| - 1];
      InsertPeers(front, c, k, less);
      assert Insert(s, c, less)[..|s|] == Insert(front, c, less);
    } else {
      assert (s + [c])[..|s|] == s;
    }
  }

  lemma {:induction false} SortedPush<T>(s: seq<T>, less: Less<T>)
    requires s != []
    ensures Sorted(s, less) == Insert(Sorted(s[..|s| - 1], less), s[|s| - 1], less)
    ensures multiset(s) == multiset(s[..|s| - 1]) + multiset{s[|s| - 1]}
  {
    assert s == s[..|s| - 1] + [s[|s| - 1]];
  }

  lemma {:induction false} SortedOrdered<T(!new)>(s: seq<T>, less: Less<T>)
    requires Ranks(less)
    ensures Ordered(Sorted(s, less), less)
    ensures multiset(Sorted(s, less)) == multiset(s)
  {
    if s != [] {
      hide *;
      var front, last := s[..|s| - 1], s[|s| - 1];
      SortedOrdered(front, less);
      SortedPush(s, less);
      InsertOrdered(Sorted(front, less), last, less);
      InsertMembers(Sorted(front, less), last, less);
    }
  }

  lemma {:induction false} SortedPeers<T(!new)>(s: seq<T>, k: T, less: Less<T>)
    requires Ranks(less)
    ensures Peers(Sorted(s, less), k, less) == Peers(s, k, less)
  {
    if s != [] {
      var front, last := s[..|s| - 1], s[|s| - 1];
      SortedPeers(front, k, less);
      InsertPeers(Sorted(front, less), last, k, less);
      hide Ranks, Insert;
    }
  }

  /** The sort yields an ordered permutation in which elements that tie keep their order. */
  lemma {:induction false} SortedIsStable<T(!new)>(s: seq<T>, less: Less<T>)
    requires Ranks(less)
    ensures Ordered(Sorted(s, less), less)
    ensures multiset(Sorted(s, less)) == multiset(s)
    ensures forall k :: Peers(Sorted(s, less), k, less) == Peers(s, k, less)
  {
    SortedOrdered(s, less);
    hide *;
    forall k
      ensures Peers(Sorted(s, less), k, less) == Peers(s, k, less)
    {
      SortedPeers(s, k, less);
    }
  }

  // ----- Sorting in place -----

  /** Moving the last of `s + [c]` down past everything it is less than inserts it. */
  lemma {:induction false} InsertAt<T>(s: seq<T>, c: T, j: nat, less: Less<T>)
    requires j <= |s| && (j > 0 ==> !less(c, s[j - 1])) && forall k :: j <= k < |s| ==> less(c, s[k])
    ensures Insert(s, c, less) == s[..j] + [c] + s[j..]
  {
    if j == |s| {
      assert s[..j] == s && s[j..] == [];
    } else {
      var front, last := s[..|s| - 1], s[|s| - 1];
      InsertAt(front, c, j, less);
      assert s[..j] + [c] + s[j..] == (front[..j] + [c] + front[j..]) + [last];
    }
  }

  /** `t` is `s` with `c`, which has sunk past everything behind position j. */
  ghost predicate Sinking<T>(s: seq<T>, c: T, j: nat, t: seq<T>, less: Less<T>) {
    && j <= |s| && |t| == |s| + 1 && t[j] == c
    && (forall k :: 0 <= k < j ==> t[k] == s[k])
    && (forall k :: j < k < |t| ==> t[k] == s[k - 1])
    && (forall k :: j <= k < |s| ==> less(c, s[k]))
  }

  lemma {:induction false} SinksOn<T>(s: seq<T>, c: T, j: nat, t: seq<T>, less: Less<T>)
    requires Sinking(s, c, j, t, less) && j > 0 && less(t[j], t[j - 1])
    ensures Sinking(s, c, j - 1, t[j := t[j - 1]][j - 1 := t[j]], less)
  {
  }

  lemma {:induction false} Sunk<T>(s: seq<T>, c: T, j: nat, t: seq<T>, less: Less<T>)
    requires Sinking(s, c, j, t, less) && (j > 0 ==> !less(t[j], t[j - 1]))
    ensures t == Insert(s, c, less)
  {
    hide Insert;
    InsertAt(s, c, j, less);
  }

  /** Let the element at `i` sink into the sorted stretch before it. */
  method SinkInto<T>(a: array<T>, i: nat, less: Less<T>)
    requires i < a.Length
    modifies a
    ensures a[..i + 1] == Insert(old(a[..i]), old(a[i]), less)
    ensures a[i + 1..] == old(a[i + 1..])
  {
    ghost var s, c := a[..i], a[i];
    hide Insert;
    var j := i;
    assert Sinking(s, c, j, a[..i + 1], less);
    hide *;
    while j > 0 && less(a[j], a[j - 1])
      invariant 0 <= j <= i
      invariant Sinking(s, c, j, a[..i + 1], less)
      invariant a[i + 1..] == old(a[i + 1..])
    {
      ghost var t := a[..i + 1];
      SinksOn(s, c, j, t, less);
      a[j], a[j - 1] := a[j - 1], a[j];
      assert a[..i + 1] == t[j := t[j - 1]][j - 1 := t[j]];
      j := j - 1;
    }
    Sunk(s, c, j, a[..i + 1], less);
  }

  method StableSort<T>(a: array<T>, less: Less<T>)
    modifies a
    ensures a[..] == Sorted(old(a[..]), less)
  {
    ghost var was := a[..];
    SortedOne(was, less);
    hide Insert;
    var i := 1;
    while i < a.Length
      invariant 1 <= i
      invariant i <= a.Length || a.Length == 0
      invariant a.Length > 0 ==> a[..i] == Sorted(was[..i], less)
      invariant a.Length > 0 ==> a[i..] == was[i..]
    {
      assert was[..i + 1][..i] == was[..i];
      assert a[i] == a[i..][0] && was[i] == was[i..][0];
      assert a[i + 1..] == a[i..][1..] && was[i + 1..] == was[i..][1..];
      SinkInto(a, i, less);
      i := i + 1;
    }
    if a.Length > 0 {
      assert was[..a.Length] == was && a[..a.Length] == a[..];
    }
  }

  lemma {:induction false} SortedOne<T>(s: seq<T>, less: Less<T>)
    ensures s == [] ==> Sorted(s, less) == []
    ensures s != [] ==> Sorted(s[..1], less) == s[..1]
  {
    if s != [] {
      assert s[..1][..0] == [];
    }
  }
}
