/** Field-by-field last-write-wins merging of one JSON column; a missing field with a version is a deletion. */
module LwwMerge {
  import opened Wrappers

  /** A JSON value, known by its serialisation and by the text it is compared with. */
  datatype Value = Value(json: string, text: string)

  /** The fields present and the version of every field; a version never recorded is 0. */
  datatype Column = Column(fields: map<string, Value>, vers: map<string, int>)

  /** One field of a column. */
  datatype Cell = Cell(ver: int, val: Option<Value>)

  // ----- Specification -----

  /** `a` sorts after `b`. */
  predicate After(a: string, b: string) {
    if a == [] then false
    else if b == [] then true
    else if a[0] != b[0] then a[0] > b[0]
    else After(a[1..], b[1..])
  }

  function Ver(c: Column, f: string): int {
    if f in c.vers then c.vers[f] else 0
  }

  function CellOf(c: Column, f: string): Cell {
    Cell(Ver(c, f), if f in c.fields then Some(c.fields[f]) else None)
  }

  function Tied(e: Option<Value>, i: Option<Value>): Option<Value> {
    if e.Some? && i.Some? then (if After(i.value.text, e.value.text) then i else e)
    else if e.Some? then e else i
  }

  function Winner(e: Cell, i: Cell): Cell {
    if i.ver > e.ver then i
    else if e.ver > i.ver then e
    else Cell(e.ver, Tied(e.val, i.val))
  }

  function Fields(a: Column, b: Column): set<string> {
    a.fields.Keys + b.fields.Keys + a.vers.Keys + b.vers.Keys
  }

  function WinnerAt(a: Column, b: Column, f: string): Cell {
    Winner(CellOf(a, f), CellOf(b, f))
  }

  /** Record a winning cell; only positive versions are kept. */
  function Put(c: Column, f: string, w: Cell): Column {
    Column(if w.val.Some? then c.fields[f := w.val.value] else c.fields,
           if w.ver > 0 then c.vers[f := w.ver] else c.vers)
  }

  ghost function MergeOver(a: Column, b: Column, fs: set<string>): Column {
    if fs == {} then Column(map[], map[])
    else
      var f :| f in fs;
      Put(MergeOver(a, b, fs - {f}), f, WinnerAt(a, b, f))
  }

  /** `a` is the existing side, `b` the incoming one. */
  ghost function Merge(a: Column, b: Column): Column {
    MergeOver(a, b, Fields(a, b))
  }

  /** Column `c` holds exactly the cell `w` for `f`. */
  predicate Holds(c: Column, f: string, w: Cell) {
    && (f in c.fields <==> w.val.Some?) && (f in c.fields ==> c.fields[f] == w.val.value)
    && (f in c.vers <==> w.ver > 0) && (f in c.vers ==> c.vers[f] == w.ver)
  }

  lemma {:induction false} PutHolds(c: Column, g: string, w: Cell, f: string, v: Cell)
    requires Holds(c, g, Cell(0, None)) && Holds(c, f, v)
    ensures Holds(Put(c, g, w), g, w)
    ensures f != g ==> Holds(Put(c, g, w), f, v)
  {
  }

  lemma {:induction false} MergeOverHolds(a: Column, b: Column, fs: set<string>, f: string)
    ensures f in fs ==> Holds(MergeOver(a, b, fs), f, WinnerAt(a, b, f))
    ensures f !in fs ==> Holds(MergeOver(a, b, fs), f, Cell(0, None))
  {
    if fs != {} {
      var g :| g in fs && MergeOver(a, b, fs) == Put(MergeOver(a, b, fs - {g}), g, WinnerAt(a, b, g));
      var rest := fs - {g};
      MergeOverHolds(a, b, rest, f);
      MergeOverHolds(a, b, rest, g);
      PutHolds(MergeOver(a, b, rest), g, WinnerAt(a, b, g), f, if f in rest then WinnerAt(a, b, f) else Cell(0, None));
    }
  }

  lemma {:induction false} MergeHolds(a: Column, b: Column, f: string)
    ensures Holds(Merge(a, b), f, WinnerAt(a, b, f))
  {
    MergeOverHolds(a, b, Fields(a, b), f);
  }

  lemma {:induction false} HoldsUnique(c: Column, d: Column, ws: string -> Cell)
    requires forall f :: Holds(c, f, ws(f)) && Holds(d, f, ws(f))
    ensures c == d
  {
    forall f
      ensures f in c.fields <==> f in d.fields
      ensures f in c.fields ==> c.fields[f] == d.fields[f]
      ensures f in c.vers <==> f in d.vers
      ensures f in c.vers ==> c.vers[f] == d.vers[f]
    {
      assert Holds(c, f, ws(f)) && Holds(d, f, ws(f));
    }
    assert c.fields == d.fields && c.vers == d.vers;
  }

  // ----- The loop -----

  method MergeField(e: Cell, i: Cell) returns (val: Option<Value>, ver: int)
    ensures Cell(ver, val) == Winner(e, i)
  {
    if i.ver > e.ver {
      return i.val, i.ver;
    }
    if e.ver > i.ver {
      return e.val, e.ver;
    }
    ver := e.ver;
    if e.val.Some? && i.val.None? {
      val := e.val;
    } else if i.val.Some? && e.val.None? {
      val := i.val;
    } else if e.val.Some? && i.val.Some? {
      val := if After(i.val.value.text, e.val.value.text) then i.val else e.val;
    } else {
      val := None;
    }
  }

  /** `c` holds the merged cell of every field in `done`, and nothing else. */
  ghost predicate PartOf(c: Column, a: Column, b: Column, done: set<string>) {
    forall f :: Holds(c, f, if f in done then WinnerAt(a, b, f) else Cell(0, None))
  }

  lemma {:induction false} PutPart(c: Column, a: Column, b: Column, done: set<string>, f: string)
    requires PartOf(c, a, b, done) && f !in done
    ensures PartOf(Put(c, f, WinnerAt(a, b, f)), a, b, done + {f})
  {
    hide Holds, Put, WinnerAt;
    assert Holds(c, f, Cell(0, None));
    forall g
      ensures Holds(Put(c, f, WinnerAt(a, b, f)), g, if g in done + {f} then WinnerAt(a, b, g) else Cell(0, None))
    {
      var v := if g in done then WinnerAt(a, b, g) else Cell(0, None);
      assert Holds(c, g, v);
      PutHolds(c, f, WinnerAt(a, b, f), g, v);
    }
  }

  lemma {:induction false} WholeIsMerge(c: Column, a: Column, b: Column)
    requires PartOf(c, a, b, Fields(a, b))
    ensures c == Merge(a, b)
  {
    forall f
      ensures Holds(c, f, WinnerAt(a, b, f)) && Holds(Merge(a, b), f, WinnerAt(a, b, f))
    {
      MergeHolds(a, b, f);
      assert Holds(c, f, if f in Fields(a, b) then WinnerAt(a, b, f) else Cell(0, None));
    }
    hide *;
    HoldsUnique(c, Merge(a, b), f => WinnerAt(a, b, f));
  }

  lemma {:induction false} NothingYet(a: Column, b: Column)
    ensures PartOf(Column(map[], map[]), a, b, {})
  {
  }

  method MergeJSONFields(existing: Column, incoming: Column) returns (merged: Column)
    ensures merged == Merge(existing, incoming)
  {
    var fields := Fields(existing, incoming);
    merged := Column(map[], map[]);
    NothingYet(existing, incoming);
    var left := fields;
    hide PartOf, Fields, CellOf, Winner;
    assert fields - left == {};
    while left != {}
      invariant left <= fields
      invariant PartOf(merged, existing, incoming, fields - left)
      decreases |left|
    {
      var f :| f in left;
      var val, ver := MergeField(CellOf(existing, f), CellOf(incoming, f));
      PutPart(merged, existing, incoming, fields - left, f);
      if val.Some? {
        merged := merged.(fields := merged.fields[f := val.value]);
      }
      if ver > 0 {
        merged := merged.(vers := merged.vers[f := ver]);
      }
      assert fields - left + {f} == fields - (left - {f});
      left := left - {f};
    }
    assert fields - {} == fields;
    WholeIsMerge(merged, existing, incoming);
  }

  // ----- Text order -----

  lemma {:induction false} AfterTotal(a: string, b: string)
    ensures !After(a, a)
    ensures a != b ==> After(a, b) || After(b, a)
    ensures !(After(a, b) && After(b, a))
  {
    if a != [] && b != [] {
      AfterTotal(a[1..], b[1..]);
      assert a == [a[0]] + a[1..] && b == [b[0]] + b[1..];
    }
    if a != [] {
      AfterTotal(a[1..], a[1..]);
    }
  }

  /** `a` follows `b` in the dictionary: at the first difference `b` ends, or has the smaller character. */
  ghost predicate Follows(a: string, b: string) {
    exists k :: 0 <= k < |a| && k <= |b| && a[..k] == b[..k] && (k == |b| || a[k] > b[k])
  }

  lemma {:induction false} AfterIs(a: string, b: string)
    ensures After(a, b) <==> Follows(a, b)
  {
    if a != [] && b == [] {
      assert a[..0] == b[..0];
    } else if a != [] && a[0] != b[0] {
      assert a[..0] == b[..0];
      assert forall k :: 0 < k <= |a| && k <= |b| ==> a[..k][0] != b[..k][0];
    } else if a != [] {
      AfterIs(a[1..], b[1..]);
      if Follows(a[1..], b[1..]) {
        var k :| 0 <= k < |a[1..]| && k <= |b[1..]| && a[1..][..k] == b[1..][..k] && (k == |b[1..]| || a[1..][k] > b[1..][k]);
        assert a[..k + 1] == [a[0]] + a[1..][..k] && b[..k + 1] == [b[0]] + b[1..][..k];
      }
      if Follows(a, b) {
        var k :| 0 <= k < |a| && k <= |b| && a[..k] == b[..k] && (k == |b| || a[k] > b[k]);
        assert a[1..][..k - 1] == a[..k][1..] && b[1..][..k - 1] == b[..k][1..];
      }
    }
  }

  lemma {:induction false} AfterTransitive(a: string, b: string, c: string)
    requires !After(a, b) && !After(b, c)
    ensures !After(a, c)
  {
    if a != [] && b != [] && c != [] && a[0] == b[0] == c[0] {
      AfterTransitive(a[1..], b[1..], c[1..]);
    }
  }

  // ----- Fields of a merge -----

  /** No version is negative. */
  ghost predicate Dated(c: Column) {
    forall f :: f in c.vers ==> c.vers[f] >= 0
  }

  lemma {:induction false} MergedCell(a: Column, b: Column, f: string)
    ensures var w := WinnerAt(a, b, f);
            CellOf(Merge(a, b), f) == w.(ver := if w.ver > 0 then w.ver else 0)
  {
    MergeHolds(a, b, f);
  }

  /**
   * The newer side's value or deletion is kept. Under equal versions a value outlasts a deletion, and of two
   * values the one whose text follows in the dictionary is kept, the existing one if neither does.
   */
  lemma {:induction false} MergedValue(a: Column, b: Column, f: string)
    ensures var c, x, y := Merge(a, b), Ver(a, f), Ver(b, f);
            && (x > y ==> (f in c.fields <==> f in a.fields) && (f in c.fields ==> c.fields[f] == a.fields[f]))
            && (x < y ==> (f in c.fields <==> f in b.fields) && (f in c.fields ==> c.fields[f] == b.fields[f]))
            && (x == y ==>
                  && (f in c.fields <==> f in a.fields || f in b.fields)
                  && (f in a.fields && f !in b.fields ==> c.fields[f] == a.fields[f])
                  && (f in b.fields && f !in a.fields ==> c.fields[f] == b.fields[f])
                  && (f in a.fields && f in b.fields ==>
                        c.fields[f] == if Follows(b.fields[f].text, a.fields[f].text) then b.fields[f] else a.fields[f]))
            && (f in c.vers <==> x > 0 || y > 0) && (f in c.vers ==> c.vers[f] == if x > y then x else y)
  {
    MergeHolds(a, b, f);
    if f in a.fields && f in b.fields {
      AfterIs(b.fields[f].text, a.fields[f].text);
    }
    hide Merge, After, Follows;
  }

  /** Columns whose recorded versions are all positive are determined by their cells. */
  ghost predicate Tidy(c: Column) {
    forall f :: f in c.vers ==> c.vers[f] > 0
  }

  lemma {:induction false} MergeTidy(a: Column, b: Column)
    ensures Tidy(Merge(a, b))
  {
    forall f
      ensures f in Merge(a, b).vers ==> Merge(a, b).vers[f] > 0
    {
      MergeHolds(a, b, f);
    }
  }

  lemma {:induction false} SameCells(a: Column, b: Column)
    requires Tidy(a) && Tidy(b) && forall f :: CellOf(a, f) == CellOf(b, f)
    ensures a == b
  {
    forall f
      ensures f in a.fields <==> f in b.fields
      ensures f in a.fields ==> a.fields[f] == b.fields[f]
      ensures f in a.vers <==> f in b.vers
      ensures f in a.vers ==> a.vers[f] == b.vers[f]
    {
      assert CellOf(a, f) == CellOf(b, f);
    }
    assert a.fields == b.fields && a.vers == b.vers;
  }

  // ----- Main results -----

  /** Both sides carry different values of `f` with the same version and the same text. */
  predicate Clash(a: Column, b: Column, f: string) {
    && f in a.fields && f in b.fields && Ver(a, f) == Ver(b, f)
    && a.fields[f] != b.fields[f] && a.fields[f].text == b.fields[f].text
  }

  lemma {:induction false} CommutesAt(a: Column, b: Column, f: string)
    ensures CellOf(Merge(a, b), f) == CellOf(Merge(b, a), f) <==> !Clash(a, b, f)
  {
    MergedCell(a, b, f);
    MergedCell(b, a, f);
    hide Merge;
    if f in a.fields && f in b.fields {
      AfterTotal(a.fields[f].text, b.fields[f].text);
    }
  }

  /** Two peers that exchange their states agree exactly when no field clashes. */
  lemma {:induction false} CommutativeIff(a: Column, b: Column)
    ensures Merge(a, b) == Merge(b, a) <==> forall f :: !Clash(a, b, f)
  {
    MergeTidy(a, b);
    MergeTidy(b, a);
    hide *;
    forall f
      ensures CellOf(Merge(a, b), f) == CellOf(Merge(b, a), f) <==> !Clash(a, b, f)
    {
      CommutesAt(a, b, f);
    }
    if forall f :: !Clash(a, b, f) {
      SameCells(Merge(a, b), Merge(b, a));
    }
  }

  lemma {:induction false} WinnerAssociative(a: Cell, b: Cell, c: Cell)
    ensures Winner(Winner(a, b), c) == Winner(a, Winner(b, c))
  {
    if a.ver == b.ver == c.ver && a.val.Some? && b.val.Some? && c.val.Some? {
      var x, y, z := a.val.value.text, b.val.value.text, c.val.value.text;
      if After(y, x) && !After(z, y) && After(z, x) {
        AfterTotal(y, z);
      } else if !After(y, x) && After(z, y) && !After(z, x) {
        AfterTotal(y, z);
        AfterTotal(y, x);
      } else if !After(y, x) && !After(z, y) {
        AfterTransitive(z, y, x);
      } else if After(y, x) && After(z, y) && !After(z, x) {
        AfterTotal(z, x);
        AfterTotal(z, y);
        AfterTransitive(y, z, x);
      }
    }
  }

  lemma {:induction false} AssociatesAt(a: Column, b: Column, c: Column, f: string)
    requires Dated(a) && Dated(b) && Dated(c)
    ensures CellOf(Merge(Merge(a, b), c), f) == CellOf(Merge(a, Merge(b, c)), f)
  {
    MergedCell(a, b, f);
    MergedCell(b, c, f);
    MergedCell(Merge(a, b), c, f);
    MergedCell(a, Merge(b, c), f);
    hide Merge;
    WinnerAssociative(CellOf(a, f), CellOf(b, f), CellOf(c, f));
  }

  /** Merging is associative for versions that are not negative, whatever the texts. */
  lemma {:induction false} Associative(a: Column, b: Column, c: Column)
    requires Dated(a) && Dated(b) && Dated(c)
    ensures Merge(Merge(a, b), c) == Merge(a, Merge(b, c))
  {
    MergeTidy(Merge(a, b), c);
    MergeTidy(a, Merge(b, c));
    hide *;
    forall f
      ensures CellOf(Merge(Merge(a, b), c), f) == CellOf(Merge(a, Merge(b, c)), f)
    {
      AssociatesAt(a, b, c, f);
    }
    SameCells(Merge(Merge(a, b), c), Merge(a, Merge(b, c)));
  }

  /** With negative versions it is not: merging turns them into 0, which decides against or for a value by the order. */
  lemma {:induction false} NegativeVersionsSplit(v: Value)
    ensures var a, b, c := Column(map[], map[]), Column(map[], map["x" := -1]), Column(map["x" := v], map["x" := -1]);
            Merge(Merge(a, b), c) != Merge(a, Merge(b, c))
  {
    var a, b, c := Column(map[], map[]), Column(map[], map["x" := -1]), Column(map["x" := v], map["x" := -1]);
    MergedCell(a, b, "x");
    MergedCell(b, c, "x");
    MergedCell(Merge(a, b), c, "x");
    MergedCell(a, Merge(b, c), "x");
    assert CellOf(Merge(Merge(a, b), c), "x") == Cell(0, None);
    assert CellOf(Merge(a, Merge(b, c)), "x") == Cell(0, Some(v));
  }

  /** Merging a state with itself changes it only by forgetting versions that are not positive. */
  lemma {:induction false} IdempotentIff(a: Column)
    ensures Merge(a, a) == a <==> Tidy(a)
    ensures Merge(a, a).fields == a.fields
  {
    MergeTidy(a, a);
    forall f
      ensures f in Merge(a, a).fields <==> f in a.fields
      ensures f in a.fields ==> Merge(a, a).fields[f] == a.fields[f]
      ensures Tidy(a) ==> (f in Merge(a, a).vers <==> f in a.vers)
      ensures Tidy(a) && f in a.vers ==> Merge(a, a).vers[f] == a.vers[f]
    {
      MergeHolds(a, a, f);
    }
    hide Merge;
    assert Merge(a, a).fields == a.fields;
    if Tidy(a) {
      assert Merge(a, a).vers == a.vers;
    }
  }

  // ----- Convergence -----

  /** `x` does not win over `y` when both are in play. */
  predicate Below(x: Cell, y: Cell) {
    || x.ver < y.ver
    || (x.ver == y.ver && (x.val.None? || (y.val.Some? && !After(x.val.value.text, y.val.value.text))))
  }

  /**
   * How a state came about: it was written at some peer, or two peers' states, each with a history of its
   * own, were merged. Every state that any exchange of states can produce has such a history.
   */
  datatype History = Origin(column: Column) | Met(existing: History, incoming: History)

  ghost function State(h: History): Column {
    match h
    case Origin(c) => c
    case Met(e, i) => Merge(State(e), State(i))
  }

  ghost function Known(h: History): set<Column> {
    match h
    case Origin(c) => {c}
    case Met(e, i) => Known(e) + Known(i)
  }

  lemma {:induction false} BelowTransitive(x: Cell, y: Cell, z: Cell)
    requires Below(x, y) && Below(y, z)
    ensures Below(x, z)
  {
    if x.val.Some? && y.val.Some? && z.val.Some? {
      if !After(x.val.value.text, y.val.value.text) && !After(y.val.value.text, z.val.value.text) {
        AfterTransitive(x.val.value.text, y.val.value.text, z.val.value.text);
      }
    }
  }

  lemma {:induction false} WinnerIsAbove(e: Cell, i: Cell)
    ensures Winner(e, i) == e || Winner(e, i) == i
    ensures Below(e, Winner(e, i)) && Below(i, Winner(e, i))
  {
    if e.val.Some? {
      AfterTotal(e.val.value.text, e.val.value.text);
      if i.val.Some? {
        AfterTotal(i.val.value.text, e.val.value.text);
        AfterTotal(i.val.value.text, i.val.value.text);
      }
    }
    if i.val.Some? {
      AfterTotal(i.val.value.text, i.val.value.text);
    }
  }

  /** The cell `c` is that of one of the states in `known`, and none of them has one above it. */
  ghost predicate IsTop(c: Cell, known: set<Column>, f: string) {
    && (exists k :: k in known && CellOf(k, f) == c)
    && forall k :: k in known ==> Below(CellOf(k, f), c)
  }

  lemma {:induction false} StateIsTop(h: History, f: string)
    requires forall k :: k in Known(h) ==> Dated(k)
    ensures Dated(State(h))
    ensures IsTop(CellOf(State(h), f), Known(h), f)
  {
    match h
    case Origin(c) =>
      WinnerIsAbove(CellOf(c, f), CellOf(c, f));
      assert c in Known(h);
    case Met(e, i) =>
      StateIsTop(e, f);
      StateIsTop(i, f);
      var x, y := State(e), State(i);
      MergeTidy(x, y);
      MergedCell(x, y, f);
      assert Ver(x, f) >= 0 && Ver(y, f) >= 0;
      WinnerIsAbove(CellOf(x, f), CellOf(y, f));
      TidyIsDated(Merge(x, y));
      hide Merge, Winner, Dated, Below, Tidy;
      TopsJoin(Known(e), Known(i), CellOf(x, f), CellOf(y, f), Winner(CellOf(x, f), CellOf(y, f)), f);
  }

  lemma {:induction false} TidyIsDated(c: Column)
    requires Tidy(c)
    ensures Dated(c)
  {
  }

  lemma {:induction false} TopsJoin(ks: set<Column>, ls: set<Column>, x: Cell, y: Cell, winner: Cell, f: string)
    requires IsTop(x, ks, f) && IsTop(y, ls, f)
    requires winner == x || winner == y
    requires Below(x, winner) && Below(y, winner)
    ensures IsTop(winner, ks + ls, f)
  {
    forall k | k in ks + ls
      ensures Below(CellOf(k, f), winner)
    {
      if k in ks {
        BelowTransitive(CellOf(k, f), x, winner);
      } else {
        BelowTransitive(CellOf(k, f), y, winner);
      }
    }
    if winner == x {
      var k :| k in ks && CellOf(k, f) == x;
      assert k in ks + ls;
    } else {
      var k :| k in ls && CellOf(k, f) == y;
      assert k in ks + ls;
    }
  }

  /** Where two origins clash, a third one is above them. */
  ghost predicate Overruled(known: set<Column>) {
    forall a, b, f :: a in known && b in known && Clash(a, b, f) ==> !IsTop(CellOf(a, f), known, f)
  }

  ghost predicate SameContents(a: Column, b: Column) {
    forall f :: CellOf(a, f) == CellOf(b, f)
  }

  /** Cells that do not win over each other are the same unless they clash. */
  lemma {:induction false} BelowBoth(a: Column, b: Column, f: string)
    requires Below(CellOf(a, f), CellOf(b, f)) && Below(CellOf(b, f), CellOf(a, f))
    ensures CellOf(a, f) == CellOf(b, f) || Clash(a, b, f)
  {
    if f in a.fields && f in b.fields {
      AfterTotal(a.fields[f].text, b.fields[f].text);
    }
  }

  /** Clashing cells are different, and what is above one of them is above the other. */
  lemma {:induction false} ClashesAlike(a: Column, b: Column, f: string, x: Cell)
    requires Clash(a, b, f)
    ensures CellOf(a, f) != CellOf(b, f) && Clash(b, a, f)
    ensures Below(CellOf(a, f), x) <==> Below(CellOf(b, f), x)
    ensures Below(x, CellOf(a, f)) <==> Below(x, CellOf(b, f))
  {
    hide After;
  }

  lemma {:induction false} TopUnique(known: set<Column>, f: string, x: Cell, y: Cell)
    requires Overruled(known) && IsTop(x, known, f) && IsTop(y, known, f)
    ensures x == y
  {
    var a :| a in known && CellOf(a, f) == x;
    var b :| b in known && CellOf(b, f) == y;
    hide Below, Clash;
    BelowBoth(a, b, f);
  }

  /**
   * States that came from the same origins hold the same fields with the same versions, whatever was
   * merged with what, in whatever order and however often; after at least one merge each they are equal.
   */
  lemma {:induction false} Converges(g: History, h: History)
    requires Known(g) == Known(h) && Overruled(Known(g))
    requires forall k :: k in Known(g) ==> Dated(k)
    ensures SameContents(State(g), State(h))
    ensures g.Met? && h.Met? ==> State(g) == State(h)
  {
    forall f
      ensures CellOf(State(g), f) == CellOf(State(h), f)
    {
      StateIsTop(g, f);
      StateIsTop(h, f);
      TopUnique(Known(g), f, CellOf(State(g), f), CellOf(State(h), f));
    }
    if g.Met? && h.Met? {
      MergeTidy(State(g.existing), State(g.incoming));
      MergeTidy(State(h.existing), State(h.incoming));
      SameCells(State(g), State(h));
    }
  }

  lemma {:induction false} WinnerStays(e: Cell, i: Cell)
    requires Below(i, e)
    ensures Winner(e, i) == e
  {
    hide After;
  }

  /** The existing side keeps its cell when the incoming one is not above it. */
  lemma {:induction false} MergeKeeps(a: Column, b: Column, f: string)
    requires Dated(a) && Below(CellOf(b, f), CellOf(a, f))
    ensures CellOf(Merge(a, b), f) == CellOf(a, f) && Dated(Merge(a, b))
  {
    assert Ver(a, f) >= 0;
    MergedCell(a, b, f);
    MergeTidy(a, b);
    TidyIsDated(Merge(a, b));
    hide *;
    WinnerStays(CellOf(a, f), CellOf(b, f));
  }

  /** The state of `a` merges the states `rest` into itself, one by one, and keeps its cell for `f`. */
  lemma {:induction false} Gather(a: Column, rest: set<Column>, f: string) returns (h: History)
    requires Dated(a) && forall r :: r in rest ==> Below(CellOf(r, f), CellOf(a, f))
    ensures Known(h) == {a} + rest
    ensures Dated(State(h)) && CellOf(State(h), f) == CellOf(a, f)
    decreases |rest|
  {
    hide *;
    if rest == {} {
      h := Origin(a);
      OriginIs(a);
    } else {
      var r :| r in rest;
      var before := Gather(a, rest - {r}, f);
      h := Met(before, Origin(r));
      OriginIs(r);
      MetIs(before, Origin(r));
      assert {a} + (rest - {r}) + {r} == {a} + rest;
      MergeKeeps(State(before), r, f);
    }
  }

  lemma {:induction false} OriginIs(c: Column)
    ensures Known(Origin(c)) == {c} && State(Origin(c)) == c
  {
  }

  lemma {:induction false} MetIs(e: History, i: History)
    ensures Known(Met(e, i)) == Known(e) + Known(i) && State(Met(e, i)) == Merge(State(e), State(i))
  {
  }

  lemma {:induction false} GatherTop(a: Column, known: set<Column>, f: string) returns (h: History)
    requires a in known && Dated(a) && IsTop(CellOf(a, f), known, f)
    ensures Known(h) == known && CellOf(State(h), f) == CellOf(a, f)
  {
    hide Below;
    h := Gather(a, known - {a}, f);
    assert {a} + (known - {a}) == known;
  }

  /** Of two clashing origins that nothing overrules, the one that starts keeps its value. */
  lemma {:induction false} ClashSplits(a: Column, b: Column, known: set<Column>, f: string) returns (g: History, h: History)
    requires a in known && b in known && Clash(a, b, f) && IsTop(CellOf(a, f), known, f)
    requires forall k :: k in known ==> Dated(k)
    ensures Known(g) == known == Known(h) && !SameContents(State(g), State(h))
  {
    forall k | k in known
      ensures Below(CellOf(k, f), CellOf(b, f))
    {
      ClashesAlike(a, b, f, CellOf(k, f));
    }
    ClashesAlike(a, b, f, CellOf(a, f));
    hide Below, Clash;
    g := GatherTop(a, known, f);
    h := GatherTop(b, known, f);
  }

  /** Peers whose states stem from the same origins agree, exactly when every clash between origins is overruled. */
  lemma {:induction false} ConvergesIff(known: set<Column>)
    requires forall k :: k in known ==> Dated(k)
    ensures Overruled(known) <==>
              forall g, h :: Known(g) == known && Known(h) == known ==> SameContents(State(g), State(h))
  {
    hide State, Known, SameContents, Dated, Clash, IsTop;
    if Overruled(known) {
      forall g, h | Known(g) == known && Known(h) == known
        ensures SameContents(State(g), State(h))
      {
        Converges(g, h);
      }
    } else {
      var a, b, f :| a in known && b in known && Clash(a, b, f) && IsTop(CellOf(a, f), known, f);
      var g, h := ClashSplits(a, b, known, f);
    }
  }

  // ----- Deletions -----

  /** No known state has a newer version of `f`. */
  ghost predicate Newest(known: set<Column>, f: string, ver: int) {
    forall k :: k in known ==> Ver(k, f) <= ver
  }

  /** A field is present in a state exactly when some origin of it has it under the newest version known. */
  lemma {:induction false} PresentIff(h: History, f: string)
    requires forall k :: k in Known(h) ==> Dated(k)
    ensures f in State(h).fields <==> exists k :: k in Known(h) && f in k.fields && Newest(Known(h), f, Ver(k, f))
  {
    StateIsTop(h, f);
    var known, top := Known(h), CellOf(State(h), f);
    hide State, Known, Dated, After;
    var k :| k in known && CellOf(k, f) == top;
    if top.val.Some? {
      forall j | j in known
        ensures Ver(j, f) <= Ver(k, f)
      {
        assert Below(CellOf(j, f), top);
      }
    } else {
      forall l | l in known && f in l.fields
        ensures !Newest(known, f, Ver(l, f))
      {
        assert Below(CellOf(l, f), top);
        assert Ver(l, f) < Ver(k, f);
      }
    }
  }

  /** A deletion newer than every state that still has the field wins in every run that includes it. */
  lemma {:induction false} DeletionSurvives(h: History, deletion: Column, f: string)
    requires forall k :: k in Known(h) ==> Dated(k)
    requires deletion in Known(h) && f !in deletion.fields
    requires forall k :: k in Known(h) && f in k.fields ==> Ver(k, f) < Ver(deletion, f)
    ensures f !in State(h).fields
    ensures Ver(State(h), f) >= Ver(deletion, f)
  {
    PresentIff(h, f);
    StateIsTop(h, f);
    assert Below(CellOf(deletion, f), CellOf(State(h), f));
  }
}
