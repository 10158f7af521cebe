/** When peers that exchange their groups end with the same columns, and what a removed field can rely on. */
module GroupHistory {
  import opened LwwMerge
  import opened GroupMerge

  /** A group with the time of its last update or deletion. */
  datatype Record = Record(group: Group, time: int)

  /** The later record wins what has no versions, the existing one at equal times; the result has the winner's time. */
  ghost predicate IsMergedRecord(m: Record, existing: Record, incoming: Record) {
    && IsMergedGroup(m.group, existing.group, incoming.group, incoming.time > existing.time)
    && m.time == if incoming.time > existing.time then incoming.time else existing.time
  }

  /**
   * How a record came about: it was written at some peer, or a peer merged the record another one sent into
   * its own, each of them with a history.
   */
  datatype History = Written(record: Record) | Received(existing: History, incoming: History, outcome: Record)

  function State(h: History): Record {
    match h
    case Written(r) => r
    case Received(_, _, r) => r
  }

  ghost predicate Valid(h: History) {
    h.Received? ==> Valid(h.existing) && Valid(h.incoming) && IsMergedRecord(h.outcome, State(h.existing), State(h.incoming))
  }

  ghost function Known(h: History): set<Record> {
    match h
    case Written(r) => {r}
    case Received(e, i, _) => Known(e) + Known(i)
  }

  /** Column `c` of a record. */
  ghost function Part(r: Record, c: Col): Column {
    ColumnOf(r.group, c)
  }

  /** Versions of column `c` are times of edits, so they are positive. */
  ghost predicate Stamped(known: set<Record>, c: Col) {
    forall r :: r in known ==> Tidy(Part(r, c))
  }

  ghost predicate Plain(r: Record, c: Col) {
    !Versioned(r.group, c)
  }

  /** `r` is one of the latest among the records that leave column `c` without versions. */
  ghost predicate LatestPlain(r: Record, known: set<Record>, c: Col) {
    r in known && Plain(r, c) && forall k :: k in known && Plain(k, c) ==> k.time <= r.time
  }

  ghost predicate SomeVersioned(known: set<Record>, c: Col) {
    exists k :: k in known && !Plain(k, c)
  }

  // ----- What every history keeps -----

  /** `x` is the cell of a known record, no versioned record's is above it, nor is that of some latest plain one. */
  ghost predicate Fits(x: Cell, known: set<Record>, c: Col, f: string) {
    && (exists k :: k in known && CellOf(Part(k, c), f) == x)
    && (forall k :: k in known && !Plain(k, c) ==> Below(CellOf(Part(k, c), f), x))
    && ((exists k :: k in known && Plain(k, c)) ==> exists s :: LatestPlain(s, known, c) && Below(CellOf(Part(s, c), f), x))
  }

  lemma {:induction false} LatestOfBoth(ks: set<Record>, ls: set<Record>, c: Col, s: Record, t: Record)
    requires LatestPlain(s, ks, c) && LatestPlain(t, ls, c)
    ensures LatestPlain(if t.time > s.time then t else s, ks + ls, c)
  {
  }

  lemma {:induction false} LatestOfOne(ks: set<Record>, ls: set<Record>, c: Col, s: Record)
    requires LatestPlain(s, ks, c) && forall k :: k in ls ==> !Plain(k, c)
    ensures LatestPlain(s, ks + ls, c) && LatestPlain(s, ls + ks, c)
  {
  }

  lemma {:induction false} FitsJoin(ks: set<Record>, ls: set<Record>, c: Col, f: string, x: Cell, y: Cell, z: Cell)
    requires Fits(x, ks, c, f) && Fits(y, ls, c, f)
    requires (z == x || z == y) && Below(x, z) && Below(y, z)
    ensures Fits(z, ks + ls, c, f)
  {
    hide Plain, Below, Part;
    var a :| a in ks && CellOf(Part(a, c), f) == x;
    var b :| b in ls && CellOf(Part(b, c), f) == y;
    assert a in ks + ls && b in ks + ls;
    forall k | k in ks + ls && !Plain(k, c)
      ensures Below(CellOf(Part(k, c), f), z)
    {
      BelowTransitive(CellOf(Part(k, c), f), if k in ks then x else y, z);
    }
    PlainJoin(ks, ls, c, f, x, y, z);
  }

  lemma {:induction false} PlainJoin(ks: set<Record>, ls: set<Record>, c: Col, f: string, x: Cell, y: Cell, z: Cell)
    requires Fits(x, ks, c, f) && Fits(y, ls, c, f) && Below(x, z) && Below(y, z)
    ensures (exists k :: k in ks + ls && Plain(k, c)) ==> exists s :: LatestPlain(s, ks + ls, c) && Below(CellOf(Part(s, c), f), z)
  {
    hide Plain, Below, Part;
    if exists k :: k in ks && Plain(k, c) {
      var s :| LatestPlain(s, ks, c) && Below(CellOf(Part(s, c), f), x);
      BelowTransitive(CellOf(Part(s, c), f), x, z);
      if exists k :: k in ls && Plain(k, c) {
        var t :| LatestPlain(t, ls, c) && Below(CellOf(Part(t, c), f), y);
        BelowTransitive(CellOf(Part(t, c), f), y, z);
        LatestOfBoth(ks, ls, c, s, t);
      } else {
        LatestOfOne(ks, ls, c, s);
      }
    } else if exists k :: k in ls && Plain(k, c) {
      var t :| LatestPlain(t, ls, c) && Below(CellOf(Part(t, c), f), y);
      BelowTransitive(CellOf(Part(t, c), f), y, z);
      LatestOfOne(ls, ks, c, t);
    }
  }

  /** While no known record has versions for the column, it is that of a latest record. */
  ghost predicate Carried(r: Record, known: set<Record>, c: Col) {
    exists k :: LatestPlain(k, known, c) && k.time == r.time && Part(k, c) == Part(r, c)
  }

  /** The column of a record with history: versioned as soon as some origin was, and fitting all origins. */
  ghost predicate Sound(r: Record, known: set<Record>, c: Col) {
    && Tidy(Part(r, c))
    && (Plain(r, c) <==> !SomeVersioned(known, c))
    && (Plain(r, c) ==> Carried(r, known, c))
    && forall f :: Fits(CellOf(Part(r, c), f), known, c, f)
  }

  lemma {:induction false} OriginSound(r: Record, c: Col)
    requires Tidy(Part(r, c))
    ensures Sound(r, {r}, c)
  {
    hide Slice, IsSlice, Get, ColumnOf;
    forall f
      ensures Fits(CellOf(Part(r, c), f), {r}, c, f)
    {
      BelowSelf(CellOf(Part(r, c), f));
      assert Plain(r, c) ==> LatestPlain(r, {r}, c);
    }
    if Plain(r, c) {
      assert LatestPlain(r, {r}, c);
    } else {
      assert r in {r};
    }
  }

  lemma {:induction false} BelowSelf(x: Cell)
    ensures Below(x, x)
  {
    WinnerIsAbove(x, x);
  }

  /** Two columns without versions: the winner's is carried on. */
  lemma {:induction false} PlainMeets(m: Record, a: Record, b: Record, ks: set<Record>, ls: set<Record>, c: Col)
    requires IsMergedRecord(m, a, b) && Sound(a, ks, c) && Sound(b, ls, c)
    requires Plain(a, c) && Plain(b, c)
    ensures Sound(m, ks + ls, c)
  {
    assert ColumnOf(m.group, c) == MergedColumn(a.group, b.group, b.time > a.time, c);
    PlainColumn(a, c);
    PlainColumn(b, c);
    hide Slice, IsSlice, Get, MergedColumn, IsMergedGroup, Fits;
    var s :| LatestPlain(s, ks, c) && s.time == a.time && Part(s, c) == Part(a, c);
    var t :| LatestPlain(t, ls, c) && t.time == b.time && Part(t, c) == Part(b, c);
    LatestOfBoth(ks, ls, c, s, t);
    var winner := if b.time > a.time then t else s;
    assert Part(m, c) == Part(winner, c) && m.time == winner.time;
    assert !SomeVersioned(ks + ls, c);
    CarriedFits(m, winner, ks + ls, c);
  }

  lemma {:induction false} PlainColumn(r: Record, c: Col)
    ensures Plain(r, c) ==> Part(r, c) == Column(Get(r.group, c), map[])
    ensures Plain(r, c) <==> Part(r, c).vers == map[]
  {
  }

  lemma {:induction false} CarriedFits(m: Record, k: Record, known: set<Record>, c: Col)
    requires LatestPlain(k, known, c) && Part(m, c) == Part(k, c) && !SomeVersioned(known, c)
    ensures forall f :: Fits(CellOf(Part(m, c), f), known, c, f)
  {
    hide Part, Plain;
    forall f
      ensures Fits(CellOf(Part(m, c), f), known, c, f)
    {
      BelowSelf(CellOf(Part(k, c), f));
      assert CellOf(Part(k, c), f) == CellOf(Part(m, c), f) && k in known;
    }
  }

  lemma {:induction false} VersionedPart(m: Record, a: Record, b: Record, c: Col)
    requires IsMergedRecord(m, a, b) && (!Plain(a, c) || !Plain(b, c))
    ensures Part(m, c) == Merge(Part(a, c), Part(b, c))
  {
    hide Merge, Slice, IsSlice, Get;
    assert ColumnOf(m.group, c) == MergedColumn(a.group, b.group, b.time > a.time, c);
  }

  lemma {:induction false} DatedMerge(x: Column, y: Column, f: string)
    requires Dated(x) && Dated(y)
    ensures CellOf(x, f).ver >= 0 && CellOf(y, f).ver >= 0 && Dated(Merge(x, y))
    ensures CellOf(Merge(x, y), f) == Winner(CellOf(x, f), CellOf(y, f))
  {
    MergedCell(x, y, f);
    MergeTidy(x, y);
    TidyIsDated(Merge(x, y));
    assert Ver(x, f) >= 0 && Ver(y, f) >= 0;
    hide Merge, After;
  }

  /** With versions on either side the fields are merged one by one. */
  lemma {:induction false} VersionedMeets(m: Record, a: Record, b: Record, ks: set<Record>, ls: set<Record>, c: Col)
    requires IsMergedRecord(m, a, b) && Sound(a, ks, c) && Sound(b, ls, c)
    requires !Plain(a, c) || !Plain(b, c)
    ensures Sound(m, ks + ls, c)
  {
    VersionedPart(m, a, b, c);
    var x, y := Part(a, c), Part(b, c);
    PlainColumn(a, c);
    PlainColumn(b, c);
    PlainColumn(m, c);
    MergeTidy(x, y);
    StillVersioned(x, y);
    JoinVersioned(ks, ls, c);
    hide Slice, IsSlice, Get, MergedColumn, IsMergedGroup, Fits, Plain, Part, Merge, Carried, SomeVersioned;
    forall f
      ensures Fits(CellOf(Merge(x, y), f), ks + ls, c, f)
    {
      MergedCell(x, y, f);
      WinnerIsAbove(CellOf(x, f), CellOf(y, f));
      FitsJoin(ks, ls, c, f, CellOf(x, f), CellOf(y, f), CellOf(Merge(x, y), f));
    }
  }

  lemma {:induction false} JoinVersioned(ks: set<Record>, ls: set<Record>, c: Col)
    ensures SomeVersioned(ks + ls, c) <==> SomeVersioned(ks, c) || SomeVersioned(ls, c)
  {
    hide Plain;
    if k :| k in ks && !Plain(k, c) {
      assert k in ks + ls;
    } else if k :| k in ls && !Plain(k, c) {
      assert k in ks + ls;
    }
  }

  lemma {:induction false} StillVersioned(x: Column, y: Column)
    requires Tidy(x) && Tidy(y) && (x.vers != map[] || y.vers != map[])
    ensures Merge(x, y).vers != map[]
  {
    var f :| f in (if x.vers != map[] then x.vers else y.vers);
    MergeHolds(x, y, f);
    hide Merge;
    assert f in Merge(x, y).vers;
  }

  lemma {:induction false} HistorySound(h: History, c: Col)
    requires Valid(h) && Stamped(Known(h), c)
    ensures Sound(State(h), Known(h), c)
  {
    hide Sound, IsMergedRecord, Plain;
    match h
    case Written(r) =>
      assert r in Known(h);
      OriginSound(r, c);
    case Received(e, i, m) =>
      assert Known(h) == Known(e) + Known(i);
      HistorySound(e, c);
      HistorySound(i, c);
      if Plain(State(e), c) && Plain(State(i), c) {
        PlainMeets(m, State(e), State(i), Known(e), Known(i), c);
      } else {
        VersionedMeets(m, State(e), State(i), Known(e), Known(i), c);
      }
  }

  // ----- When all histories of the same origins agree -----

  /** No known record's field is above that of `r`. */
  ghost predicate Topmost(r: Record, known: set<Record>, c: Col, f: string) {
    r in known && forall k :: k in known ==> Below(CellOf(Part(k, c), f), CellOf(Part(r, c), f))
  }

  /** Where two records clash, a third one is above them. */
  ghost predicate Overruled(known: set<Record>, c: Col) {
    forall a, b, f :: a in known && b in known && Clash(Part(a, c), Part(b, c), f) ==> !Topmost(a, known, c, f)
  }

  /** The field of plain record `u` cannot prevail over latest plain record `s` unless a versioned one settles it. */
  ghost predicate Yields(known: set<Record>, c: Col, u: Record, s: Record, f: string) {
    || Below(CellOf(Part(u, c), f), CellOf(Part(s, c), f))
    || exists k :: k in known && !Plain(k, c) && Below(CellOf(Part(u, c), f), CellOf(Part(k, c), f))
  }

  /**
   * Without versions anywhere, the latest records have one and the same column. Otherwise no plain record
   * has a field that would prevail over a latest plain one, or a versioned record settles that field; and
   * every clash is overruled.
   */
  ghost predicate Agreed(known: set<Record>, c: Col) {
    if SomeVersioned(known, c) then
      && Overruled(known, c)
      && forall s, u, f :: LatestPlain(s, known, c) && u in known && Plain(u, c) ==> Yields(known, c, u, s, f)
    else
      forall s, t :: LatestPlain(s, known, c) && LatestPlain(t, known, c) ==> Part(s, c) == Part(t, c)
  }

  /** What fits is above every origin. */
  lemma {:induction false} FitsAbove(u: Record, x: Cell, known: set<Record>, c: Col, f: string)
    requires Fits(x, known, c, f) && SomeVersioned(known, c) && Agreed(known, c) && u in known
    ensures Below(CellOf(Part(u, c), f), x)
  {
    hide Plain, Below, Part, SomeVersioned, Overruled;
    if Plain(u, c) {
      var s :| LatestPlain(s, known, c) && Below(CellOf(Part(s, c), f), x);
      assert Yields(known, c, u, s, f);
      if Below(CellOf(Part(u, c), f), CellOf(Part(s, c), f)) {
        BelowTransitive(CellOf(Part(u, c), f), CellOf(Part(s, c), f), x);
      } else {
        var k :| k in known && !Plain(k, c) && Below(CellOf(Part(u, c), f), CellOf(Part(k, c), f));
        BelowTransitive(CellOf(Part(u, c), f), CellOf(Part(k, c), f), x);
      }
    }
  }

  lemma {:induction false} SameFit(x: Cell, y: Cell, known: set<Record>, c: Col, f: string)
    requires Fits(x, known, c, f) && Fits(y, known, c, f)
    requires SomeVersioned(known, c) && Agreed(known, c)
    ensures x == y
  {
    var a :| a in known && CellOf(Part(a, c), f) == x;
    var b :| b in known && CellOf(Part(b, c), f) == y;
    forall k | k in known
      ensures Below(CellOf(Part(k, c), f), x) && Below(CellOf(Part(k, c), f), y)
    {
      FitsAbove(k, x, known, c, f);
      FitsAbove(k, y, known, c, f);
    }
    assert Overruled(known, c) && Topmost(a, known, c, f);
    hide Plain, Below, Part, Fits, Clash, Topmost, Agreed;
    BelowBoth(Part(a, c), Part(b, c), f);
  }

  lemma {:induction false} AgreedConverges(g: History, h: History, c: Col)
    requires Valid(g) && Valid(h) && Known(g) == Known(h)
    requires Stamped(Known(g), c) && Agreed(Known(g), c)
    ensures Part(State(g), c) == Part(State(h), c)
  {
    HistorySound(g, c);
    HistorySound(h, c);
    var known := Known(g);
    hide Valid, Known, Plain, Part, Fits, Overruled, Stamped, LatestPlain;
    if SomeVersioned(known, c) {
      forall f
        ensures CellOf(Part(State(g), c), f) == CellOf(Part(State(h), c), f)
      {
        var x, y := CellOf(Part(State(g), c), f), CellOf(Part(State(h), c), f);
        SameFit(x, y, known, c, f);
      }
      SameCells(Part(State(g), c), Part(State(h), c));
    } else {
      var s :| LatestPlain(s, known, c) && Part(s, c) == Part(State(g), c);
      var t :| LatestPlain(t, known, c) && Part(t, c) == Part(State(h), c);
    }
  }

  // ----- Histories that disagree -----

  lemma {:induction false} Merging(e: History, i: History) returns (h: History)
    requires Valid(e) && Valid(i)
    ensures Valid(h) && Known(h) == Known(e) + Known(i)
    ensures IsMergedRecord(State(h), State(e), State(i))
  {
    var a, b := State(e), State(i);
    var m := MergedGroupExists(a.group, b.group, b.time > a.time);
    h := Received(e, i, Record(m, if b.time > a.time then b.time else a.time));
    hide IsMergedGroup;
  }

  lemma {:induction false} WrittenOnly(r: Record)
    ensures Valid(Written(r)) && Known(Written(r)) == {r} && State(Written(r)) == r
  {
  }

  /** The plain record `s` merges the plain records `rest`, none of them later, into itself, one by one. */
  lemma {:induction false} Gather(s: Record, rest: set<Record>, c: Col) returns (h: History)
    requires Plain(s, c) && forall r :: r in rest ==> Plain(r, c) && r.time <= s.time
    ensures Valid(h) && Known(h) == {s} + rest
    ensures State(h).time == s.time && Plain(State(h), c) && Part(State(h), c) == Part(s, c)
    decreases |rest|
  {
    hide *;
    WrittenOnly(s);
    if rest == {} {
      h := Written(s);
    } else {
      var r :| r in rest;
      var before := Gather(s, rest - {r}, c);
      WrittenOnly(r);
      h := Merging(before, Written(r));
      assert {s} + (rest - {r}) + {r} == {s} + rest;
      KeepsPlain(State(h), State(before), r, c);
    }
  }

  lemma {:induction false} KeepsPlain(m: Record, a: Record, b: Record, c: Col)
    requires IsMergedRecord(m, a, b) && Plain(a, c) && Plain(b, c) && b.time <= a.time
    ensures m.time == a.time && Plain(m, c) && Part(m, c) == Part(a, c)
  {
    assert ColumnOf(m.group, c) == MergedColumn(a.group, b.group, b.time > a.time, c);
    PlainColumn(a, c);
    PlainColumn(m, c);
    hide Slice, IsSlice, Get;
  }

  /** The plain record `s` first gathers the other plain ones, and so remains the only one whose column counts. */
  lemma {:induction false} PlainFirst(plain: set<Record>, c: Col, s: Record) returns (h: History)
    requires s in plain && Plain(s, c) && forall r :: r in plain ==> Plain(r, c) && r.time <= s.time
    ensures Valid(h) && Known(h) == plain && Plain(State(h), c) && Part(State(h), c) == Part(s, c)
  {
    hide *;
    h := Gather(s, plain - {s}, c);
    assert {s} + (plain - {s}) == plain;
  }

  lemma {:induction false} SplitPlain(known: set<Record>, c: Col, s: Record, t: Record)
    returns (g: History, h: History)
    requires !SomeVersioned(known, c) && LatestPlain(s, known, c) && LatestPlain(t, known, c) && Part(s, c) != Part(t, c)
    ensures Valid(g) && Valid(h) && Known(g) == known == Known(h) && Part(State(g), c) != Part(State(h), c)
  {
    g := PlainFirst(known, c, s);
    h := PlainFirst(known, c, t);
  }

  /** Starting from `s`, the versioned records are gathered too: only `s` and they can have decided a field. */
  lemma {:induction false} ThenVersioned(start: History, rest: set<Record>, c: Col, s: Record, f: string) returns (h: History)
    requires Valid(start) && Plain(State(start), c) && Part(State(start), c) == Part(s, c) && Tidy(Part(s, c))
    requires forall r :: r in rest ==> !Plain(r, c) && Tidy(Part(r, c))
    ensures Valid(h) && Known(h) == Known(start) + rest && Tidy(Part(State(h), c))
    ensures Plain(State(h), c) <==> rest == {}
    ensures Decided(CellOf(Part(State(h), c), f), rest, c, s, f)
    decreases |rest|
  {
    hide *;
    if rest == {} {
      h := start;
      DecidedAtFirst(Part(State(h), c), c, s, f);
    } else {
      var r :| r in rest;
      var before := ThenVersioned(start, rest - {r}, c, s, f);
      WrittenOnly(r);
      h := Merging(before, Written(r));
      assert rest - {r} + {r} == rest;
      StepDecides(State(h), State(before), r, rest - {r}, c, s, f);
    }
  }

  /** `x` is the cell of `s` or of one of the records `rest`. */
  ghost predicate Decided(x: Cell, rest: set<Record>, c: Col, s: Record, f: string) {
    x == CellOf(Part(s, c), f) || exists k :: k in rest && CellOf(Part(k, c), f) == x
  }

  lemma {:induction false} DecidedAtFirst(x: Column, c: Col, s: Record, f: string)
    requires x == Part(s, c)
    ensures Decided(CellOf(x, f), {}, c, s, f)
  {
  }

  lemma {:induction false} StepDecides(m: Record, b: Record, r: Record, rest: set<Record>, c: Col, s: Record, f: string)
    requires IsMergedRecord(m, b, r) && !Plain(r, c) && Tidy(Part(r, c)) && Tidy(Part(b, c))
    requires Decided(CellOf(Part(b, c), f), rest, c, s, f)
    ensures !Plain(m, c) && Tidy(Part(m, c))
    ensures Decided(CellOf(Part(m, c), f), rest + {r}, c, s, f)
    ensures Part(m, c) == Merge(Part(b, c), Part(r, c))
  {
    VersionedPart(m, b, r, c);
    PlainColumn(r, c);
    PlainColumn(m, c);
    MergeTidy(Part(b, c), Part(r, c));
    StillVersioned(Part(b, c), Part(r, c));
    MergedCell(Part(b, c), Part(r, c), f);
    WinnerIsAbove(CellOf(Part(b, c), f), CellOf(Part(r, c), f));
    hide IsMergedRecord, Plain, Part, Merge;
    if CellOf(Part(m, c), f) == CellOf(Part(r, c), f) {
      assert r in rest + {r};
    } else if CellOf(Part(b, c), f) != CellOf(Part(s, c), f) {
      var k :| k in rest && CellOf(Part(k, c), f) == CellOf(Part(b, c), f);
      assert k in rest + {r};
    }
  }

  lemma {:induction false} VersionedOf(known: set<Record>, c: Col, s: Record) returns (plain: set<Record>, versioned: set<Record>)
    requires SomeVersioned(known, c) && Stamped(known, c) && LatestPlain(s, known, c)
    ensures plain + versioned == known && versioned != {}
    ensures s in plain && forall r :: r in plain ==> Plain(r, c) && r.time <= s.time
    ensures forall k :: k in versioned ==> k in known && !Plain(k, c) && Tidy(Part(k, c))
    ensures forall k :: k in known ==> Tidy(Part(k, c))
    ensures s in known
  {
    plain, versioned := set r | r in known && Plain(r, c), set r | r in known && !Plain(r, c);
    hide Plain, Part;
  }

  /** Whether `u` is merged once more, now field by field, makes the difference. */
  lemma {:induction false} SplitVersioned(known: set<Record>, c: Col, s: Record, u: Record, f: string)
    returns (g: History, h: History)
    requires SomeVersioned(known, c) && Stamped(known, c) && LatestPlain(s, known, c) && u in known && Plain(u, c)
    requires !Yields(known, c, u, s, f)
    ensures Valid(g) && Valid(h) && Known(g) == known == Known(h) && Part(State(g), c) != Part(State(h), c)
  {
    hide *;
    var plain, versioned := VersionedOf(known, c, s);
    var start := PlainFirst(plain, c, s);
    g := ThenVersioned(start, versioned, c, s, f);
    WrittenOnly(u);
    h := Merging(Written(u), g);
    assert {u} + known == known;
    Prevails(State(h), u, State(g), c, f);
    NotPrevailed(CellOf(Part(State(g), c), f), known, versioned, c, s, u, f);
  }

  /** Merged field by field, nothing of `u` is above the outcome. */
  lemma {:induction false} Prevails(m: Record, u: Record, x: Record, c: Col, f: string)
    requires IsMergedRecord(m, u, x) && !Plain(x, c) && Tidy(Part(u, c)) && Tidy(Part(x, c))
    ensures Below(CellOf(Part(u, c), f), CellOf(Part(m, c), f))
  {
    hide *;
    VersionedPart(m, u, x, c);
    TidyIsDated(Part(u, c));
    TidyIsDated(Part(x, c));
    DatedMerge(Part(u, c), Part(x, c), f);
    WinnerIsAbove(CellOf(Part(u, c), f), CellOf(Part(x, c), f));
  }

  lemma {:induction false} NotPrevailed(x: Cell, known: set<Record>, versioned: set<Record>, c: Col, s: Record, u: Record, f: string)
    requires Decided(x, versioned, c, s, f) && forall k :: k in versioned ==> k in known && !Plain(k, c)
    requires !Yields(known, c, u, s, f)
    ensures !Below(CellOf(Part(u, c), f), x)
  {
    hide Part, Plain, Below;
  }

  /** A record with versions merges the records `rest` into itself, one by one, and keeps its field. */
  lemma {:induction false} GatherBelow(start: History, rest: set<Record>, c: Col, f: string) returns (h: History)
    requires Valid(start) && !Plain(State(start), c) && Tidy(Part(State(start), c))
    requires forall r :: r in rest ==> Tidy(Part(r, c)) && Below(CellOf(Part(r, c), f), CellOf(Part(State(start), c), f))
    ensures Valid(h) && Known(h) == Known(start) + rest
    ensures !Plain(State(h), c) && Tidy(Part(State(h), c))
    ensures CellOf(Part(State(h), c), f) == CellOf(Part(State(start), c), f)
    decreases |rest|
  {
    hide *;
    if rest == {} {
      h := start;
    } else {
      var r :| r in rest;
      var before := GatherBelow(start, rest - {r}, c, f);
      WrittenOnly(r);
      h := Merging(before, Written(r));
      assert rest - {r} + {r} == rest;
      KeepsField(State(h), State(before), r, c, f);
    }
  }

  lemma {:induction false} KeepsField(m: Record, a: Record, b: Record, c: Col, f: string)
    requires IsMergedRecord(m, a, b) && (!Plain(a, c) || !Plain(b, c)) && Tidy(Part(a, c)) && Tidy(Part(b, c))
    requires Below(CellOf(Part(b, c), f), CellOf(Part(a, c), f))
    ensures !Plain(m, c) && Tidy(Part(m, c)) && CellOf(Part(m, c), f) == CellOf(Part(a, c), f)
  {
    VersionedPart(m, a, b, c);
    PlainColumn(a, c);
    PlainColumn(b, c);
    PlainColumn(m, c);
    TidyIsDated(Part(a, c));
    hide *;
    MergeTidy(Part(a, c), Part(b, c));
    StillVersioned(Part(a, c), Part(b, c));
    MergeKeeps(Part(a, c), Part(b, c), f);
  }

  /** The topmost record `a` merges all others into itself, a versioned one first, and keeps its field. */
  lemma {:induction false} KeepsTop(a: Record, known: set<Record>, c: Col, f: string) returns (h: History)
    requires SomeVersioned(known, c) && Stamped(known, c) && Topmost(a, known, c, f)
    ensures Valid(h) && Known(h) == known && CellOf(Part(State(h), c), f) == CellOf(Part(a, c), f)
  {
    hide Plain, Part, Below, Tidy, Valid, Known, State, IsMergedRecord;
    var v :| v in known && !Plain(v, c);
    WrittenOnly(a);
    WrittenOnly(v);
    var start := Merging(Written(a), Written(v));
    KeepsField(State(start), a, v, c, f);
    h := GatherBelow(start, known, c, f);
    assert {a} + {v} + known == known;
  }

  lemma {:induction false} SplitClash(known: set<Record>, c: Col, a: Record, b: Record, f: string) returns (g: History, h: History)
    requires SomeVersioned(known, c) && Stamped(known, c)
    requires b in known && Clash(Part(a, c), Part(b, c), f) && Topmost(a, known, c, f)
    ensures Valid(g) && Valid(h) && Known(g) == known == Known(h) && Part(State(g), c) != Part(State(h), c)
  {
    hide Plain, Part, Below, Clash, Valid, Known, State, SomeVersioned, Stamped;
    forall k | k in known
      ensures Below(CellOf(Part(k, c), f), CellOf(Part(b, c), f))
    {
      ClashesAlike(Part(a, c), Part(b, c), f, CellOf(Part(k, c), f));
    }
    ClashesAlike(Part(a, c), Part(b, c), f, CellOf(Part(a, c), f));
    g := KeepsTop(a, known, c, f);
    h := KeepsTop(b, known, c, f);
  }

  // ----- Main results -----

  /** Peers whose records stem from these origins hold the same column, whatever they exchanged in whatever order. */
  ghost predicate AlwaysSame(known: set<Record>, c: Col) {
    forall g, h :: Valid(g) && Valid(h) && Known(g) == known && Known(h) == known ==> Part(State(g), c) == Part(State(h), c)
  }

  /** They do exactly when the origins are agreed on that column; otherwise two histories differ. */
  lemma {:induction false} ConvergesIff(known: set<Record>, c: Col)
    requires known != {} && Stamped(known, c)
    ensures AlwaysSame(known, c) <==> Agreed(known, c)
  {
    hide Valid, Known, State, Stamped, Plain, Part, LatestPlain, Yields, Clash, Topmost;
    if Agreed(known, c) {
      forall g, h | Valid(g) && Valid(h) && Known(g) == known && Known(h) == known
        ensures Part(State(g), c) == Part(State(h), c)
      {
        AgreedConverges(g, h, c);
      }
    } else if SomeVersioned(known, c) && !Overruled(known, c) {
      var a, b, f :| a in known && b in known && Clash(Part(a, c), Part(b, c), f) && Topmost(a, known, c, f);
      var g, h := SplitClash(known, c, a, b, f);
    } else if SomeVersioned(known, c) {
      var s, u, f :| LatestPlain(s, known, c) && u in known && Plain(u, c) && !Yields(known, c, u, s, f);
      var g, h := SplitVersioned(known, c, s, u, f);
    } else {
      var s, t :| LatestPlain(s, known, c) && LatestPlain(t, known, c) && Part(s, c) != Part(t, c);
      var g, h := SplitPlain(known, c, s, t);
    }
  }

  /** In particular, when at most one origin leaves the column without versions, only clashes can keep them apart. */
  lemma {:induction false} OnePlainConverges(known: set<Record>, c: Col)
    requires known != {} && Stamped(known, c)
    requires forall r, s :: r in known && s in known && Plain(r, c) && Plain(s, c) ==> r == s
    ensures AlwaysSame(known, c) <==> Overruled(known, c)
  {
    ConvergesIff(known, c);
    hide Part, Plain, AlwaysSame, Topmost;
    forall s, u, f | LatestPlain(s, known, c) && u in known && Plain(u, c)
      ensures Yields(known, c, u, s, f)
    {
      BelowSelf(CellOf(Part(u, c), f));
    }
    if !SomeVersioned(known, c) {
      forall a, b, f | a in known && b in known
        ensures !Clash(Part(a, c), Part(b, c), f)
      {
        assert a == b;
      }
    }
  }

  lemma {:induction false} BelowTotal(x: Cell, y: Cell)
    ensures Below(x, y) || Below(y, x)
  {
    WinnerIsAbove(x, y);
  }

  /** They need not agree when two of the latest plain ones differ in a field that no versioned one decides for both. */
  lemma {:induction false} UndecidedSplits(known: set<Record>, c: Col, s: Record, t: Record, f: string)
    requires Stamped(known, c) && LatestPlain(s, known, c) && LatestPlain(t, known, c)
    requires CellOf(Part(s, c), f) != CellOf(Part(t, c), f)
    requires forall k :: k in known && !Plain(k, c) ==>
               !Below(CellOf(Part(s, c), f), CellOf(Part(k, c), f)) || !Below(CellOf(Part(t, c), f), CellOf(Part(k, c), f))
    ensures !AlwaysSame(known, c)
  {
    ConvergesIff(known, c);
    var x, y := CellOf(Part(s, c), f), CellOf(Part(t, c), f);
    hide Part, Plain, AlwaysSame, Below, Clash, Overruled, Stamped;
    if SomeVersioned(known, c) {
      if !Below(x, y) {
        BelowTotal(x, y);
        NotYielded(known, c, t, s, f);
      } else if !Below(y, x) {
        NotYielded(known, c, s, t, f);
      } else if forall r :: r in known && Plain(r, c) ==> Yields(known, c, r, s, f) {
        BelowBoth(Part(s, c), Part(t, c), f);
        TopOfUndecided(known, c, s, t, f);
        ClashNotOverruled(known, c, s, t, f);
      }
    }
  }

  /** No versioned record is above both, so none is above the higher one. */
  lemma {:induction false} NotYielded(known: set<Record>, c: Col, low: Record, high: Record, f: string)
    requires !Below(CellOf(Part(high, c), f), CellOf(Part(low, c), f)) && Below(CellOf(Part(low, c), f), CellOf(Part(high, c), f))
    requires forall k :: k in known && !Plain(k, c) ==>
               !Below(CellOf(Part(low, c), f), CellOf(Part(k, c), f)) || !Below(CellOf(Part(high, c), f), CellOf(Part(k, c), f))
    ensures !Yields(known, c, high, low, f)
  {
    hide Part, Plain, Below;
    forall k | k in known && !Plain(k, c)
      ensures !Below(CellOf(Part(high, c), f), CellOf(Part(k, c), f))
    {
      if Below(CellOf(Part(high, c), f), CellOf(Part(k, c), f)) {
        BelowTransitive(CellOf(Part(low, c), f), CellOf(Part(high, c), f), CellOf(Part(k, c), f));
      }
    }
  }

  lemma {:induction false} TopOfUndecided(known: set<Record>, c: Col, s: Record, t: Record, f: string)
    requires s in known && Below(CellOf(Part(t, c), f), CellOf(Part(s, c), f))
    requires forall r :: r in known && Plain(r, c) ==> Yields(known, c, r, s, f)
    requires forall k :: k in known && !Plain(k, c) ==>
               !Below(CellOf(Part(s, c), f), CellOf(Part(k, c), f)) || !Below(CellOf(Part(t, c), f), CellOf(Part(k, c), f))
    ensures Topmost(s, known, c, f)
  {
    hide Part, Plain, Below;
    var x, y := CellOf(Part(s, c), f), CellOf(Part(t, c), f);
    forall k | k in known
      ensures Below(CellOf(Part(k, c), f), x)
    {
      var z := CellOf(Part(k, c), f);
      BelowTotal(z, x);
      if !Below(z, x) {
        var v := k;
        if Plain(k, c) {
          assert Yields(known, c, k, s, f);
          v :| v in known && !Plain(v, c) && Below(z, CellOf(Part(v, c), f));
          BelowTransitive(x, z, CellOf(Part(v, c), f));
        }
        BelowTransitive(y, x, CellOf(Part(v, c), f));
      }
    }
  }

  lemma {:induction false} ClashNotOverruled(known: set<Record>, c: Col, a: Record, b: Record, f: string)
    requires b in known && Clash(Part(a, c), Part(b, c), f) && Topmost(a, known, c, f)
    ensures !Overruled(known, c)
  {
    hide Part, Clash;
  }

  /** The field is gone, at least as of version `now`. */
  ghost predicate Gone(r: Record, c: Col, f: string, now: int) {
    f !in Get(r.group, c) && Ver(Part(r, c), f) >= now
  }

  /** The field is absent or older. */
  ghost predicate Older(r: Record, c: Col, f: string, now: int) {
    f !in Get(r.group, c) || Ver(Part(r, c), f) < now
  }

  /** A record that removed the field and one that does not have it anew: the merge has it removed. */
  lemma {:induction false} GoneStays(m: Record, a: Record, b: Record, c: Col, f: string, now: int)
    requires IsMergedRecord(m, a, b) && Dated(Part(a, c)) && Dated(Part(b, c))
    ensures Dated(Part(m, c))
    ensures Gone(a, c, f, now) && (Gone(b, c, f, now) || Older(b, c, f, now)) ==> Gone(m, c, f, now)
    ensures Gone(b, c, f, now) && (Gone(a, c, f, now) || Older(a, c, f, now)) ==> Gone(m, c, f, now)
    ensures Older(a, c, f, now) && Older(b, c, f, now) ==> Older(m, c, f, now)
  {
    if Plain(a, c) && Plain(b, c) {
      GoneStaysPlain(m, a, b, c, f, now);
    } else {
      GoneStaysVersioned(m, a, b, c, f, now);
    }
  }

  lemma {:induction false} GoneStaysPlain(m: Record, a: Record, b: Record, c: Col, f: string, now: int)
    requires IsMergedRecord(m, a, b) && Plain(a, c) && Plain(b, c)
    ensures Dated(Part(m, c))
    ensures Gone(a, c, f, now) && (Gone(b, c, f, now) || Older(b, c, f, now)) ==> Gone(m, c, f, now)
    ensures Gone(b, c, f, now) && (Gone(a, c, f, now) || Older(a, c, f, now)) ==> Gone(m, c, f, now)
    ensures Older(a, c, f, now) && Older(b, c, f, now) ==> Older(m, c, f, now)
  {
    assert ColumnOf(m.group, c) == MergedColumn(a.group, b.group, b.time > a.time, c);
    PlainColumn(a, c);
    PlainColumn(b, c);
    PlainColumn(m, c);
    assert Part(m, c).fields == Get(m.group, c);
    hide Slice, IsSlice, Get, IsMergedGroup;
  }

  lemma {:induction false} GoneStaysVersioned(m: Record, a: Record, b: Record, c: Col, f: string, now: int)
    requires IsMergedRecord(m, a, b) && Dated(Part(a, c)) && Dated(Part(b, c)) && !(Plain(a, c) && Plain(b, c))
    ensures Dated(Part(m, c))
    ensures Gone(a, c, f, now) && (Gone(b, c, f, now) || Older(b, c, f, now)) ==> Gone(m, c, f, now)
    ensures Gone(b, c, f, now) && (Gone(a, c, f, now) || Older(a, c, f, now)) ==> Gone(m, c, f, now)
    ensures Older(a, c, f, now) && Older(b, c, f, now) ==> Older(m, c, f, now)
  {
    hide *;
    VersionedPart(m, a, b, c);
    var x, y := Part(a, c), Part(b, c);
    DatedMerge(x, y, f);
    GoneIs(m, c, f, now);
    GoneIs(a, c, f, now);
    GoneIs(b, c, f, now);
    WinnerGone(CellOf(x, f), CellOf(y, f), now);
  }

  lemma {:induction false} GoneIs(r: Record, c: Col, f: string, now: int)
    ensures var x := CellOf(Part(r, c), f);
            && (Gone(r, c, f, now) <==> x.val.None? && x.ver >= now)
            && (Older(r, c, f, now) <==> x.val.None? || x.ver < now)
  {
    hide Slice, IsSlice;
  }

  lemma {:induction false} WinnerGone(x: Cell, y: Cell, now: int)
    requires x.ver >= 0 && y.ver >= 0
    ensures var w := Winner(x, y);
            && w.ver >= 0
            && (x.val.None? && x.ver >= now && (y.val.None? || y.ver < now) ==> w.val.None? && w.ver >= now)
            && (y.val.None? && y.ver >= now && (x.val.None? || x.ver < now) ==> w.val.None? && w.ver >= now)
            && ((x.val.None? || x.ver < now) && (y.val.None? || y.ver < now) ==> w.val.None? || w.ver < now)
  {
    hide After;
  }

  lemma {:induction false} RemovalKept(h: History, c: Col, f: string, now: int)
    requires Valid(h)
    requires forall k :: k in Known(h) ==> Dated(Part(k, c)) && (Gone(k, c, f, now) || Older(k, c, f, now))
    ensures Dated(Part(State(h), c))
    ensures if exists k :: k in Known(h) && Gone(k, c, f, now) then Gone(State(h), c, f, now) else Older(State(h), c, f, now)
  {
    hide IsMergedRecord, Gone, Older, Dated, Part;
    match h
    case Written(r) =>
      assert r in Known(h);
    case Received(e, i, m) =>
      assert forall k :: k in Known(e) ==> k in Known(h);
      assert forall k :: k in Known(i) ==> k in Known(h);
      RemovalKept(e, c, f, now);
      RemovalKept(i, c, f, now);
      GoneStays(m, State(e), State(i), c, f, now);
  }

  /**
   * A field removed by an edit, stamped above every version under which another origin has the field, is
   * absent from every record that has the edit among its origins, whatever records won on the way.
   */
  lemma {:induction false} RemovalSurvives(edit: Record, vers: Vers, c: Col, before: Json, now: int, f: string, h: History)
    requires IsStamped(edit.group.versions, vers, c, before, Get(edit.group, c), now)
    requires f in before && f !in Get(edit.group, c)
    requires Valid(h) && edit in Known(h)
    requires forall k :: k in Known(h) ==> Dated(Part(k, c))
    requires forall k :: k in Known(h) && f in Get(k.group, c) ==> Ver(Part(k, c), f) < now
    ensures f !in Get(State(h).group, c) && Ver(Part(State(h), c), f) >= now
  {
    assert Changed(before, Get(edit.group, c), f);
    assert IsSlice(Slice(edit.group.versions, c), edit.group.versions, c);
    assert Gone(edit, c, f, now);
    hide Slice, IsSlice, Known, Valid, Get;
    RemovalKept(h, c, f, now);
  }
}
