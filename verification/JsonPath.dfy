/** Dotted paths into a JSON request body: reading, setting, deleting and moving the value at a path. */
module JsonPath {
  import opened Wrappers
  import opened Strings

  datatype Json =
    | Null
    | Bool(b: bool)
    | Num(text: string)
    | Str(s: string)
    | Arr(items: seq<Json>)
    | Obj(fields: map<string, Json>)

  type Path = seq<string>

  // ----- Segments -----

  /** The segments of a dotted path; the empty path has one empty segment. */
  function Split(path: string): (r: Path)
    ensures r != []
  {
    SplitOn(path, '.')
  }

  /** -1 is the last element. */
  function SliceIndex(seg: string, n: nat): (r: Option<nat>)
    ensures r.Some? ==> r.value < n
  {
    var i := Atoi(seg);
    if i.None? then None
    else
      var k := if i.value == -1 then n - 1 else i.value;
      if 0 <= k < n then Some(k) else None
  }

  // ----- Specification -----

  function Descend(j: Json, seg: string): Option<Json> {
    match j
    case Obj(fields) => if seg in fields then Some(fields[seg]) else None
    case Arr(items) =>
      var i := SliceIndex(seg, |items|);
      if i.Some? then Some(items[i.value]) else None
    case _ => None
  }

  function GetAt(j: Json, p: Path): Option<Json> {
    if p == [] then Some(j)
    else
      var next := Descend(j, p[0]);
      if next.None? then None else GetAt(next.value, p[1..])
  }

  /** Put `v` into the container `j`. */
  function Put(j: Json, seg: string, v: Json): Option<Json> {
    match j
    case Obj(fields) => Some(Obj(fields[seg := v]))
    case Arr(items) =>
      var i := SliceIndex(seg, |items|);
      if i.Some? then Some(Arr(items[i.value := v])) else None
    case _ => None
  }

  function SetAt(j: Json, p: Path, v: Json): Option<Json>
    requires p != []
  {
    if |p| == 1 then Put(j, p[0], v)
    else
      var next := Descend(j, p[0]);
      if next.None? then None
      else
        var below := SetAt(next.value, p[1..], v);
        if below.None? then None else Put(j, p[0], below.value)
  }

  /** Remove from the container `j`: an array keeps its length, shifts left and ends in null. */
  function Cut(j: Json, seg: string): Option<Json> {
    match j
    case Obj(fields) => if seg in fields then Some(Obj(fields - {seg})) else None
    case Arr(items) =>
      var i := SliceIndex(seg, |items|);
      if i.Some? then Some(Arr(items[..i.value] + items[i.value + 1..] + [Null])) else None
    case _ => None
  }

  function DeleteAt(j: Json, p: Path): Option<Json>
    requires p != []
  {
    if |p| == 1 then Cut(j, p[0])
    else
      var next := Descend(j, p[0]);
      if next.None? then None
      else
        var below := DeleteAt(next.value, p[1..]);
        if below.None? then None else Put(j, p[0], below.value)
  }

  function GetPath(root: Json, path: string): Option<Json> {
    if path == "" then None else GetAt(root, Split(path))
  }

  function SetPath(root: Json, path: string, v: Json): Option<Json> {
    SetAt(root, Split(path), v)
  }

  /** The body after the operation; `None` when there was nothing to delete. */
  function DeletePath(root: Json, path: string): Option<Json> {
    DeleteAt(root, Split(path))
  }

  /** `None` is an error, which leaves the body as it was. */
  function Moved(root: Json, from: string, to: string): Option<Json> {
    var v := GetPath(root, from);
    if v.None? then None
    else
      var set1 := SetPath(root, to, v.value);
      if set1.None? then None else Some(DeletePath(set1.value, from).GetOr(set1.value))
  }

  /** A dotted path leads from segment to segment. */
  lemma {:induction false} DottedPath(root: Json, segs: Path, v: Json)
    requires segs != [] && forall i :: 0 <= i < |segs| ==> '.' !in segs[i]
    ensures var path := Joined(segs, '.');
            && GetPath(root, path) == (if segs == [""] then None else GetAt(root, segs))
            && SetPath(root, path, v) == SetAt(root, segs, v) && DeletePath(root, path) == DeleteAt(root, segs)
  {
    JoinedSplits(segs, '.');
    assert Joined(segs, '.') == "" <==> segs == [""];
    hide SplitOn, GetAt, SetAt, DeleteAt;
  }

  // ----- Where two paths part -----

  datatype Step = Field(name: string) | Index(i: nat)

  /** What a segment addresses in a container: several spellings may name one array element. */
  function Resolve(j: Json, seg: string): Option<Step> {
    match j
    case Obj(_) => Some(Field(seg))
    case Arr(items) =>
      var i := SliceIndex(seg, |items|);
      if i.Some? then Some(Index(i.value)) else None
    case _ => None
  }

  /** Following `p` and `q`, the first segments that differ address different things. */
  predicate Apart(j: Json, p: Path, q: Path) {
    && p != [] && q != []
    && var a, b := Resolve(j, p[0]), Resolve(j, q[0]);
       && a.Some?
       && (a == b ==> Descend(j, p[0]).Some? && Apart(Descend(j, p[0]).value, p[1..], q[1..]))
  }

  /** Both paths address the same place. */
  predicate SamePlace(j: Json, p: Path, q: Path) {
    && |p| == |q|
    && (p != [] ==>
          && Resolve(j, p[0]) == Resolve(j, q[0]) && Resolve(j, p[0]).Some?
          && (|p| > 1 ==> Descend(j, p[0]).Some? && SamePlace(Descend(j, p[0]).value, p[1..], q[1..])))
  }

  // ----- One container -----

  lemma {:induction false} PutReads(j: Json, seg: string, v: Json, other: string)
    requires Put(j, seg, v).Some?
    ensures var k := Put(j, seg, v).value;
            && Resolve(k, other) == Resolve(j, other)
            && Resolve(j, seg).Some?
            && Descend(k, other) == (if Resolve(j, other) == Resolve(j, seg) then Some(v) else Descend(j, other))
  {
  }

  lemma {:induction false} ResolvedSame(j: Json, a: string, b: string)
    requires Resolve(j, a) == Resolve(j, b) && Resolve(j, a).Some?
    ensures Descend(j, a) == Descend(j, b)
  {
  }

  // ----- Laws of set -----

  /** Setting succeeds exactly when the parent exists and is an object or an array with that index. */
  lemma {:induction false} SetSucceedsIff(j: Json, p: Path, v: Json)
    requires p != []
    ensures SetAt(j, p, v).Some?
       <==> var parent := GetAt(j, p[..|p| - 1]); parent.Some? && Resolve(parent.value, p[|p| - 1]).Some?
  {
    if |p| > 1 {
      var next := Descend(j, p[0]);
      assert p[..|p| - 1][0] == p[0] && p[..|p| - 1][1..] == p[1..][..|p| - 2];
      if next.Some? {
        SetSucceedsIff(next.value, p[1..], v);
      }
    }
  }

  /** After a set, every path that leads to the place, however spelled, and on into the value reads the value. */
  lemma {:induction false} SetThenGet(j: Json, p: Path, v: Json, q: Path)
    requires p != [] && SetAt(j, p, v).Some?
    requires |q| >= |p| && SamePlace(j, p, q[..|p|])
    ensures GetAt(SetAt(j, p, v).value, q) == GetAt(v, q[|p|..])
  {
    var k := SetAt(j, p, v).value;
    assert q[..|p|][0] == q[0];
    if |p| == 1 {
      PutReads(j, p[0], v, q[0]);
    } else {
      var next := Descend(j, p[0]).value;
      var below := SetAt(next, p[1..], v).value;
      PutReads(j, p[0], below, q[0]);
      assert q[..|p|][1..] == q[1..][..|p| - 1] && q[|p|..] == q[1..][|p| - 1..];
      SetThenGet(next, p[1..], v, q[1..]);
    }
  }

  /** No path that parts from the one set is affected. */
  lemma {:induction false} SetKeepsApart(j: Json, p: Path, v: Json, q: Path)
    requires p != [] && SetAt(j, p, v).Some? && Apart(j, p, q)
    ensures GetAt(SetAt(j, p, v).value, q) == GetAt(j, q)
    ensures Apart(SetAt(j, p, v).value, q, p) <== Apart(j, q, p)
  {
    var w := if |p| == 1 then v else SetAt(Descend(j, p[0]).value, p[1..], v).value;
    PutReads(j, p[0], w, q[0]);
    PutReads(j, p[0], w, p[0]);
    if Resolve(j, p[0]) == Resolve(j, q[0]) {
      ResolvedSame(j, p[0], q[0]);
      SetKeepsApart(Descend(j, p[0]).value, p[1..], v, q[1..]);
    }
  }

  // ----- Laws of delete -----

  /** The container that holds the value at `p`. */
  function Parent(j: Json, p: Path): Option<Json>
    requires p != []
  {
    GetAt(j, p[..|p| - 1])
  }

  lemma {:induction false} ParentBelow(j: Json, p: Path)
    requires |p| > 1
    ensures Parent(j, p) == (var next := Descend(j, p[0]); if next.None? then None else Parent(next.value, p[1..]))
  {
    assert p[..|p| - 1][0] == p[0] && p[..|p| - 1][1..] == p[1..][..|p| - 2];
  }

  /** There is something to delete exactly when there is something to read. */
  lemma {:induction false} DeleteSucceedsIff(j: Json, p: Path)
    requires p != []
    ensures DeleteAt(j, p).Some? <==> GetAt(j, p).Some?
  {
    if |p| == 1 {
      assert p[1..] == [];
    } else {
      var next := Descend(j, p[0]);
      if next.Some? {
        DeleteSucceedsIff(next.value, p[1..]);
      }
    }
  }

  /** A deleted value is gone exactly when it was a field of an object; an array still has the position. */
  lemma {:induction false} DeleteRemovesIff(j: Json, p: Path)
    requires p != [] && DeleteAt(j, p).Some?
    ensures Parent(j, p).Some? && (Parent(j, p).value.Obj? || Parent(j, p).value.Arr?)
    ensures GetAt(DeleteAt(j, p).value, p) == None <==> Parent(j, p).value.Obj?
  {
    var k := DeleteAt(j, p).value;
    if |p| == 1 {
      assert p[..0] == [] && p[1..] == [];
    } else {
      var next := Descend(j, p[0]).value;
      var below := DeleteAt(next, p[1..]).value;
      ParentBelow(j, p);
      PutReads(j, p[0], below, p[0]);
      DeleteRemovesIff(next, p[1..]);
    }
  }

  /** What an array holds behind a deletion: its elements but the i-th, in order, and a null. */
  predicate Shifted(before: seq<Json>, i: nat, behind: seq<Json>) {
    && i < |before| == |behind|
    && (forall k :: 0 <= k < i ==> behind[k] == before[k])
    && (forall k :: i <= k < |before| - 1 ==> behind[k] == before[k + 1])
    && behind[|before| - 1] == Null
  }

  /** The i-th element counts from the front, and -1 is the last; nothing else is an index. */
  predicate Addresses(seg: string, i: nat, n: nat) {
    i < n && Atoi(seg).Some? && (Atoi(seg).value == i || (Atoi(seg).value == -1 && i == n - 1))
  }

  lemma {:induction false} IndexIff(items: seq<Json>, seg: string)
    ensures forall i: nat :: Addresses(seg, i, |items|) ==> Descend(Arr(items), seg) == Some(items[i])
    ensures Descend(Arr(items), seg).Some? <==> exists i: nat :: Addresses(seg, i, |items|)
  {
    hide Atoi;
    if k :| 0 <= k < |items| && SliceIndex(seg, |items|) == Some(k) {
      assert Addresses(seg, k, |items|);
    }
  }

  /** The elements of an array are read under the numbers of their places, and the last one under -1. */
  lemma {:induction false} ElementsRead(items: seq<Json>, n: nat)
    ensures Descend(Arr(items), Decimal(n)) == if n < |items| then Some(items[n]) else None
    ensures Descend(Arr(items), "-1") == if items == [] then None else Some(items[|items| - 1])
    ensures n > 1 ==> Descend(Arr(items), "-" + Decimal(n)) == None
  {
    AtoiIs(n);
    AtoiIs(1);
    assert "-" + Decimal(1) == "-1";
    hide Atoi, Decimal;
  }

  /** Deleting an array element moves the elements behind it up and leaves a null at the end. */
  lemma {:induction false} DeleteShifts(j: Json, p: Path)
    requires p != [] && DeleteAt(j, p).Some? && Parent(j, p).Some? && Parent(j, p).value.Arr?
    ensures var items := Parent(j, p).value.items;
            && Parent(DeleteAt(j, p).value, p).Some? && Parent(DeleteAt(j, p).value, p).value.Arr?
            && exists i: nat :: Addresses(p[|p| - 1], i, |items|) && Shifted(items, i, Parent(DeleteAt(j, p).value, p).value.items)
  {
    var k := DeleteAt(j, p).value;
    if |p| == 1 {
      assert p[..0] == [];
      hide Atoi;
      var i := SliceIndex(p[0], |j.items|).value;
      assert Addresses(p[0], i, |j.items|) && Shifted(j.items, i, k.items);
    } else {
      var next := Descend(j, p[0]).value;
      ParentBelow(j, p);
      ParentBelow(k, p);
      PutReads(j, p[0], DeleteAt(next, p[1..]).value, p[0]);
      hide Addresses, Shifted, Put, Cut;
      DeleteShifts(next, p[1..]);
    }
  }

  /** Deleting an object field affects no path that parts from it. */
  lemma {:induction false} DeleteKeepsApart(j: Json, p: Path, q: Path)
    requires p != [] && DeleteAt(j, p).Some? && Apart(j, p, q)
    requires Parent(j, p).Some? && Parent(j, p).value.Obj?
    ensures GetAt(DeleteAt(j, p).value, q) == GetAt(j, q)
  {
    if |p| == 1 {
      assert p[..0] == [];
    } else {
      var next := Descend(j, p[0]).value;
      ParentBelow(j, p);
      PutReads(j, p[0], DeleteAt(next, p[1..]).value, q[0]);
      if Resolve(j, p[0]) == Resolve(j, q[0]) {
        ResolvedSame(j, p[0], q[0]);
        DeleteKeepsApart(next, p[1..], q[1..]);
      }
    }
  }

  // ----- Laws of move -----

  /** A set at a path that parts from `p` leaves the parent of `p` an object. */
  lemma {:induction false} SetKeepsParent(j: Json, t: Path, v: Json, p: Path)
    requires t != [] && p != [] && SetAt(j, t, v).Some? && Apart(j, t, p)
    requires Parent(j, p).Some? && Parent(j, p).value.Obj?
    ensures Parent(SetAt(j, t, v).value, p).Some? && Parent(SetAt(j, t, v).value, p).value.Obj?
  {
    var w := if |t| == 1 then v else SetAt(Descend(j, t[0]).value, t[1..], v).value;
    var k := SetAt(j, t, v).value;
    PutReads(j, t[0], w, p[0]);
    if |p| == 1 {
      assert p[..0] == [];
    } else {
      ParentBelow(j, p);
      ParentBelow(k, p);
      if Resolve(j, t[0]) == Resolve(j, p[0]) {
        ResolvedSame(j, t[0], p[0]);
        SetKeepsParent(Descend(j, t[0]).value, t[1..], v, p[1..]);
      }
    }
  }

  /** Paths that part from `t` part from each other after a set at `t` as they did before. */
  lemma {:induction false} SetKeepsParting(j: Json, t: Path, v: Json, p: Path, q: Path)
    requires t != [] && SetAt(j, t, v).Some? && Apart(j, t, p) && Apart(j, t, q) && Apart(j, p, q)
    ensures Apart(SetAt(j, t, v).value, p, q)
  {
    var w := if |t| == 1 then v else SetAt(Descend(j, t[0]).value, t[1..], v).value;
    PutReads(j, t[0], w, p[0]);
    PutReads(j, t[0], w, q[0]);
    if Resolve(j, p[0]) == Resolve(j, q[0]) && Resolve(j, t[0]) == Resolve(j, p[0]) {
      ResolvedSame(j, t[0], p[0]);
      SetKeepsParting(Descend(j, t[0]).value, t[1..], v, p[1..], q[1..]);
    }
  }

  /** Neither place contains the other, and the source is a field of an object. */
  predicate CleanMove(root: Json, from: Path, to: Path)
    requires from != []
  {
    && Apart(root, from, to) && Apart(root, to, from)
    && Parent(root, from).Some? && Parent(root, from).value.Obj?
  }

  /** A clean move leaves the old value at the target and nothing at the source, and every other path as it was. */
  lemma {:induction false} MoveMoves(root: Json, from: string, to: string, q: Path)
    requires to != "" && CleanMove(root, Split(from), Split(to))
    requires GetPath(root, from).Some? && SetPath(root, to, GetPath(root, from).value).Some?
    ensures var r := Moved(root, from, to);
            && r.Some?
            && GetPath(r.value, to) == GetPath(root, from)
            && GetPath(r.value, from) == None
            && (Apart(root, Split(from), q) && Apart(root, Split(to), q) ==> GetAt(r.value, q) == GetAt(root, q))
  {
    var f, t, v := Split(from), Split(to), GetPath(root, from).value;
    var mid := SetAt(root, t, v).value;
    SetKeepsApart(root, t, v, f);
    SetKeepsParent(root, t, v, f);
    DeleteSucceedsIff(mid, f);
    DeleteRemovesIff(mid, f);
    DeleteKeepsApart(mid, f, t);
    SetReads(root, t, v);
    if Apart(root, f, q) && Apart(root, t, q) {
      SetKeepsApart(root, t, v, q);
      SetKeepsParting(root, t, v, f, q);
      DeleteKeepsApart(mid, f, q);
    }
  }

  // ----- Exactly when a move moves -----

  /** `p` leads to the place of `q` or to one above it. */
  predicate Leads(j: Json, p: Path, q: Path) {
    |p| <= |q| && SamePlace(j, p, q[..|p|])
  }

  lemma {:induction false} LeadsIsShorter(j: Json, p: Path, q: Path)
    ensures Leads(j, p, q) ==> |p| <= |q|
  {
  }

  lemma {:induction false} LeadsUnfolds(j: Json, p: Path, q: Path)
    requires p != [] && q != []
    ensures Leads(j, p, q) <==>
              && |p| <= |q| && Resolve(j, p[0]) == Resolve(j, q[0]) && Resolve(j, p[0]).Some?
              && (|p| > 1 ==> Descend(j, p[0]).Some? && Leads(Descend(j, p[0]).value, p[1..], q[1..]))
  {
    if |p| <= |q| {
      assert q[..|p|][0] == q[0] && q[..|p|][1..] == q[1..][..|p| - 1];
    }
  }

  lemma {:induction false} ApartUnfolds(j: Json, p: Path, q: Path)
    requires p != [] && q != []
    ensures Apart(j, p, q) <==>
              && Resolve(j, p[0]).Some?
              && (Resolve(j, p[0]) == Resolve(j, q[0]) ==> Descend(j, p[0]).Some? && Apart(Descend(j, p[0]).value, p[1..], q[1..]))
  {
  }

  lemma {:induction false} DescendResolves(j: Json, seg: string)
    ensures Descend(j, seg).Some? ==> Resolve(j, seg).Some?
  {
  }

  /** A place that can be read and a place that can be set are apart, or one lies at or above the other. */
  lemma {:induction false} ThreeWays(j: Json, f: Path, t: Path, v: Json)
    requires f != [] && t != [] && GetAt(j, f).Some? && SetAt(j, t, v).Some?
    ensures Leads(j, f, t) || (|t| < |f| && Leads(j, t, f)) || (Apart(j, f, t) && Apart(j, t, f))
    decreases |f|
  {
    hide *;
    ReadUnfolds(j, f);
    WriteUnfolds(j, t, v);
    LeadsUnfolds(j, f, t);
    LeadsUnfolds(j, t, f);
    ApartUnfolds(j, f, t);
    ApartUnfolds(j, t, f);
    DescendResolves(j, f[0]);
    if Resolve(j, f[0]) == Resolve(j, t[0]) && |f| > 1 && |t| > 1 {
      ResolvedSame(j, f[0], t[0]);
      var next := Descend(j, f[0]).value;
      ThreeWays(next, f[1..], t[1..], v);
      LeadsIsShorter(next, f[1..], t[1..]);
    }
  }

  lemma {:induction false} ReadUnfolds(j: Json, f: Path)
    requires f != []
    ensures |f| == 1 ==> GetAt(j, f) == Descend(j, f[0])
    ensures GetAt(j, f) == if Descend(j, f[0]).None? then None else GetAt(Descend(j, f[0]).value, f[1..])
  {
  }

  lemma {:induction false} WriteUnfolds(j: Json, t: Path, v: Json)
    requires t != [] && SetAt(j, t, v).Some?
    ensures Resolve(j, t[0]).Some?
    ensures |t| > 1 ==> Descend(j, t[0]).Some? && SetAt(Descend(j, t[0]).value, t[1..], v).Some?
    ensures SetAt(j, t, v) == Put(j, t[0], if |t| > 1 then SetAt(Descend(j, t[0]).value, t[1..], v).value else v)
  {
  }

  lemma {:induction false} LeadingIsNotApart(j: Json, p: Path, q: Path)
    requires p != [] && q != [] && Leads(j, p, q)
    ensures !Apart(j, p, q) && !Apart(j, q, p)
    decreases |p|
  {
    hide *;
    LeadsUnfolds(j, p, q);
    ApartUnfolds(j, p, q);
    ApartUnfolds(j, q, p);
    ResolvedSame(j, p[0], q[0]);
    if |p| > 1 {
      LeadingIsNotApart(Descend(j, p[0]).value, p[1..], q[1..]);
    } else if Descend(j, p[0]).Some? {
      NothingApart(Descend(j, p[0]).value, p[1..], q[1..]);
    }
  }

  lemma {:induction false} NothingApart(j: Json, p: Path, q: Path)
    requires p == []
    ensures !Apart(j, p, q) && !Apart(j, q, p)
  {
  }

  /** Setting at or below `f`, or apart from it, leaves the kind of container that holds the value at `f`. */
  lemma {:induction false} SetKeepsKind(j: Json, t: Path, v: Json, f: Path)
    requires t != [] && f != [] && SetAt(j, t, v).Some? && Parent(j, f).Some?
    requires Leads(j, f, t) || (Apart(j, t, f) && Apart(j, f, t))
    ensures var p := Parent(SetAt(j, t, v).value, f);
            p.Some? && (p.value.Obj? <==> Parent(j, f).value.Obj?) && (p.value.Arr? <==> Parent(j, f).value.Arr?)
  {
    var k := SetAt(j, t, v).value;
    WriteUnfolds(j, t, v);
    LeadsUnfolds(j, f, t);
    ApartUnfolds(j, t, f);
    ApartUnfolds(j, f, t);
    var w := if |t| > 1 then SetAt(Descend(j, t[0]).value, t[1..], v).value else v;
    PutReads(j, t[0], w, f[0]);
    PutKeepsKind(j, t[0], w);
    if |f| == 1 {
      assert f[..0] == [];
      ParentOfOne(j, f);
      ParentOfOne(k, f);
    } else {
      ParentBelow(j, f);
      ParentBelow(k, f);
      hide SetAt, Parent, Apart, Leads, Put;
      if Resolve(j, f[0]) == Resolve(j, t[0]) {
        ResolvedSame(j, f[0], t[0]);
        if |t| > 1 {
          SetKeepsKind(Descend(j, t[0]).value, t[1..], v, f[1..]);
        }
      }
    }
  }

  lemma {:induction false} ParentOfOne(j: Json, f: Path)
    requires |f| == 1
    ensures Parent(j, f) == Some(j)
  {
    assert f[..0] == [];
  }

  lemma {:induction false} PutKeepsKind(j: Json, seg: string, v: Json)
    requires Put(j, seg, v).Some?
    ensures (Put(j, seg, v).value.Obj? <==> j.Obj?) && (Put(j, seg, v).value.Arr? <==> j.Arr?)
  {
  }

  /** A set at or below a place leaves something at the place, and the path to it leads there still. */
  lemma {:induction false} SetBelowKeeps(j: Json, f: Path, t: Path, v: Json)
    requires f != [] && t != [] && SetAt(j, t, v).Some? && Leads(j, f, t) && GetAt(j, f).Some?
    decreases |f|
    ensures var k := SetAt(j, t, v).value;
            GetAt(k, f).Some? && Leads(k, f, t)
  {
    var k := SetAt(j, t, v).value;
    WriteUnfolds(j, t, v);
    LeadsUnfolds(j, f, t);
    LeadsUnfolds(k, f, t);
    ReadUnfolds(j, f);
    ReadUnfolds(k, f);
    var w := if |t| > 1 then SetAt(Descend(j, t[0]).value, t[1..], v).value else v;
    PutReads(j, t[0], w, f[0]);
    PutReads(j, t[0], w, t[0]);
    hide *;
    ResolvedSame(j, f[0], t[0]);
    if |f| > 1 {
      SetBelowKeeps(Descend(j, f[0]).value, f[1..], t[1..], v);
    }
  }

  /** Once a field is deleted nothing is left below it either, however the path is spelled. */
  lemma {:induction false} DeletedBelow(j: Json, f: Path, t: Path)
    requires f != [] && DeleteAt(j, f).Some? && Leads(j, f, t)
    requires Parent(j, f).Some? && Parent(j, f).value.Obj?
    ensures GetAt(DeleteAt(j, f).value, t) == None
  {
    LeadsUnfolds(j, f, t);
    if |f| == 1 {
      ParentOfOne(j, f);
    } else {
      var next := Descend(j, f[0]).value;
      ParentBelow(j, f);
      PutReads(j, f[0], DeleteAt(next, f[1..]).value, t[0]);
      hide Parent, Leads, Put;
      DeletedBelow(next, f[1..], t[1..]);
    }
  }

  /** Deleting below a place deletes within the value at the place. */
  lemma {:induction false} DeleteWithin(j: Json, t: Path, f: Path)
    requires t != [] && |t| < |f| && Leads(j, t, f) && GetAt(j, t).Some?
    requires DeleteAt(j, f).Some?
    ensures var below := DeleteAt(GetAt(j, t).value, f[|t|..]);
            below.Some? && GetAt(DeleteAt(j, f).value, t) == below
  {
    LeadsUnfolds(j, t, f);
    ReadUnfolds(j, t);
    ResolvedSame(j, t[0], f[0]);
    var next := Descend(j, f[0]).value;
    PutReads(j, f[0], DeleteAt(next, f[1..]).value, t[0]);
    hide Leads, Put;
    if |t| > 1 {
      assert f[|t|..] == f[1..][|t| - 1..];
      DeleteWithin(next, t[1..], f[1..]);
    } else {
      assert t[1..] == [];
    }
  }

  /** The value arrived at the target, and the source is gone. */
  predicate MoveHolds(root: Json, from: string, to: string)
    requires Moved(root, from, to).Some?
  {
    var r := Moved(root, from, to).value;
    GetPath(r, to) == GetPath(root, from) && GetPath(r, from) == None
  }

  /**
   * A move moves exactly between places apart, from a field of an object, or to a place above the source
   * when the value moved has nothing at what remains of the source path. It fails between an array
   * element and a place apart, onto itself, into its own subtree, and to the empty path.
   */
  lemma {:induction false} MoveHoldsIff(root: Json, from: string, to: string)
    requires GetPath(root, from).Some? && SetPath(root, to, GetPath(root, from).value).Some?
    ensures Moved(root, from, to).Some?
    ensures var f, t, v := Split(from), Split(to), GetPath(root, from).value;
            MoveHolds(root, from, to) <==>
              && to != ""
              && (|| (Apart(root, f, t) && Apart(root, t, f) && Parent(root, f).Some? && Parent(root, f).value.Obj?)
                  || (|t| < |f| && Leads(root, t, f) && GetAt(v, f[|t|..]) == None))
  {
    var f, t, v := Split(from), Split(to), GetPath(root, from).value;
    ThreeWays(root, f, t, v);
    MoveSucceeds(root, from, to);
    hide *;
    if Leads(root, f, t) {
      LeadingIsNotApart(root, f, t);
      MoveBelowFails(root, from, to);
    } else if |t| < |f| && Leads(root, t, f) {
      LeadingIsNotApart(root, t, f);
      MoveAboveIff(root, from, to);
    } else {
      MoveApartIff(root, from, to);
    }
  }

  lemma {:induction false} MoveSucceeds(root: Json, from: string, to: string)
    requires GetPath(root, from).Some? && SetPath(root, to, GetPath(root, from).value).Some?
    ensures Moved(root, from, to).Some?
  {
  }

  lemma {:induction false} ParentOfRead(j: Json, f: Path)
    requires f != [] && GetAt(j, f).Some?
    ensures Parent(j, f).Some? && (Parent(j, f).value.Obj? || Parent(j, f).value.Arr?)
  {
    DeleteSucceedsIff(j, f);
    DeleteRemovesIff(j, f);
  }

  /** To the source itself or below it: the deletion takes the target along, or leaves an array element. */
  lemma {:induction false} MoveBelowFails(root: Json, from: string, to: string)
    requires Moved(root, from, to).Some? && Leads(root, Split(from), Split(to))
    ensures !MoveHolds(root, from, to)
  {
    var f, t, v := Split(from), Split(to), GetPath(root, from).value;
    var mid := SetAt(root, t, v).value;
    hide Leads, Parent, Apart, SetAt, DeleteAt, GetAt;
    ParentOfRead(root, f);
    SetBelowKeeps(root, f, t, v);
    SetKeepsKind(root, t, v, f);
    DeleteSucceedsIff(mid, f);
    DeleteRemovesIff(mid, f);
    if Parent(mid, f).value.Obj? {
      DeletedBelow(mid, f, t);
    }
  }

  /** To a place above the source: nothing is left to delete, or the deletion cuts into the value moved. */
  lemma {:induction false} MoveAboveIff(root: Json, from: string, to: string)
    requires Moved(root, from, to).Some?
    requires |Split(to)| < |Split(from)| && Leads(root, Split(to), Split(from))
    ensures MoveHolds(root, from, to) <==> to != "" && GetAt(GetPath(root, from).value, Split(from)[|Split(to)|..]) == None
  {
    var f, t, v := Split(from), Split(to), GetPath(root, from).value;
    var mid, rest := SetAt(root, t, v).value, f[|t|..];
    SetThenGet(root, t, v, f);
    SetReads(root, t, v);
    SetKeepsLeading(root, t, v, f);
    hide Leads, Parent, Apart, SetAt, DeleteAt, GetAt, SamePlace;
    DeleteSucceedsIff(mid, f);
    if GetAt(v, rest).Some? {
      DeleteWithin(mid, t, f);
      CutShows(v, rest);
      DeleteRemovesIff(v, rest);
      DeletedReads(mid, t, f);
    }
  }

  /** The path to the place set still leads there. */
  lemma {:induction false} SetKeepsLeading(j: Json, t: Path, v: Json, f: Path)
    requires t != [] && SetAt(j, t, v).Some? && Leads(j, t, f)
    ensures Leads(SetAt(j, t, v).value, t, f)
  {
    var k := SetAt(j, t, v).value;
    WriteUnfolds(j, t, v);
    LeadsUnfolds(j, t, f);
    LeadsUnfolds(k, t, f);
    var w := if |t| > 1 then SetAt(Descend(j, t[0]).value, t[1..], v).value else v;
    PutReads(j, t[0], w, f[0]);
    PutReads(j, t[0], w, t[0]);
    hide *;
    if |t| > 1 {
      SetKeepsLeading(Descend(j, t[0]).value, t[1..], v, f[1..]);
    }
  }

  /** Deleting a field of an object changes the value it is taken from. */
  lemma {:induction false} CutShows(v: Json, rest: Path)
    requires rest != [] && GetAt(v, rest).Some?
    ensures DeleteAt(v, rest).Some?
    ensures Parent(v, rest).Some? && Parent(v, rest).value.Obj? ==> DeleteAt(v, rest).value != v
  {
    DeleteSucceedsIff(v, rest);
    DeleteRemovesIff(v, rest);
  }

  /** After deleting below `t`, the source path reads on from the value at `t`. */
  lemma {:induction false} DeletedReads(j: Json, t: Path, f: Path)
    requires t != [] && |t| < |f| && Leads(j, t, f) && GetAt(j, t).Some?
    requires DeleteAt(j, f).Some? && DeleteAt(GetAt(j, t).value, f[|t|..]).Some?
    ensures GetAt(DeleteAt(j, f).value, f) == GetAt(DeleteAt(GetAt(j, t).value, f[|t|..]).value, f[|t|..])
  {
    LeadsUnfolds(j, t, f);
    ReadUnfolds(j, t);
    ResolvedSame(j, t[0], f[0]);
    var next := Descend(j, f[0]).value;
    PutReads(j, f[0], DeleteAt(next, f[1..]).value, f[0]);
    hide Leads, Put;
    if |t| > 1 {
      assert f[|t|..] == f[1..][|t| - 1..];
      DeletedReads(next, t[1..], f[1..]);
    } else {
      assert t[1..] == [];
    }
  }

  /** Between places apart it is the source's container that decides. */
  lemma {:induction false} MoveApartIff(root: Json, from: string, to: string)
    requires Moved(root, from, to).Some?
    requires Apart(root, Split(from), Split(to)) && Apart(root, Split(to), Split(from))
    ensures MoveHolds(root, from, to) <==>
              to != "" && Parent(root, Split(from)).Some? && Parent(root, Split(from)).value.Obj?
  {
    var f, t, v := Split(from), Split(to), GetPath(root, from).value;
    var mid := SetAt(root, t, v).value;
    hide Leads, Apart, SetAt, DeleteAt, GetAt, Parent;
    ParentOfRead(root, f);
    SetKeepsApart(root, t, v, f);
    SetKeepsKind(root, t, v, f);
    DeleteSucceedsIff(mid, f);
    DeleteRemovesIff(mid, f);
    if to != "" && Parent(root, f).value.Obj? {
      MoveMoves(root, from, to, f);
    }
  }

  /** Moving a field onto itself loses it. */
  lemma {:induction false} MoveOntoItselfLoses(root: Json, path: string)
    requires GetPath(root, path).Some? && Parent(root, Split(path)).Some? && Parent(root, Split(path)).value.Obj?
    ensures Moved(root, path, path).Some? && GetPath(Moved(root, path, path).value, path) == None
  {
    var p, v := Split(path), GetPath(root, path).value;
    SetSame(root, p);
    DeleteSucceedsIff(root, p);
    DeleteRemovesIff(root, p);
  }

  /** Setting what is already there changes nothing. */
  lemma {:induction false} SetSame(j: Json, p: Path)
    requires p != [] && GetAt(j, p).Some?
    ensures SetAt(j, p, GetAt(j, p).value) == Some(j)
  {
    if |p| == 1 {
      assert p[1..] == [];
    } else {
      SetSame(Descend(j, p[0]).value, p[1..]);
    }
    if j.Obj? {
      assert j.fields[p[0] := j.fields[p[0]]] == j.fields;
    } else {
      var i := SliceIndex(p[0], |j.items|).value;
      assert j.items[i := j.items[i]] == j.items;
    }
  }

  lemma {:induction false} SetReads(j: Json, p: Path, v: Json)
    requires p != [] && SetAt(j, p, v).Some?
    ensures GetAt(SetAt(j, p, v).value, p) == Some(v)
  {
    var w := if |p| == 1 then v else SetAt(Descend(j, p[0]).value, p[1..], v).value;
    PutReads(j, p[0], w, p[0]);
    if |p| > 1 {
      SetReads(Descend(j, p[0]).value, p[1..], v);
    }
  }
}
