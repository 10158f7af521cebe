/** Merging the JSON columns of a group, whose field versions share one map, and stamping them on edits. */
module GroupMerge {
  import opened Wrappers
  import opened LwwMerge

  type Vers = map<string, int>
  type Json = map<string, Value>

  datatype Col = Config | ParamOverrides | ModelRedirects

  datatype Group = Group(config: Json, paramOverrides: Json, modelRedirects: Json, versions: Vers)

  function Name(c: Col): string {
    match c
    case Config => "config"
    case ParamOverrides => "param_overrides"
    case ModelRedirects => "model_redirect_rules"
  }

  function Prefix(c: Col): string {
    Name(c) + "."
  }

  function Key(c: Col, f: string): string {
    Prefix(c) + f
  }

  function Get(g: Group, c: Col): Json {
    match c
    case Config => g.config
    case ParamOverrides => g.paramOverrides
    case ModelRedirects => g.modelRedirects
  }

  // ----- Keys -----

  lemma {:induction false} KeySplits(c: Col, f: string)
    ensures Prefix(c) <= Key(c, f) && Key(c, f)[|Prefix(c)|..] == f
  {
  }

  lemma {:induction false} KeyJoins(c: Col, k: string)
    requires Prefix(c) <= k
    ensures Key(c, k[|Prefix(c)|..]) == k
  {
  }

  /** Keys of different columns or fields differ, dots in field names included. */
  lemma {:induction false} KeysDiffer(c: Col, f: string, d: Col, g: string)
    ensures Key(c, f) == Key(d, g) <==> c == d && f == g
  {
    KeySplits(c, f);
    KeySplits(d, g);
    assert Key(c, f)[0] == Name(c)[0] && Key(d, g)[0] == Name(d)[0];
  }

  /** The keys as peers exchange them. */
  lemma {:induction false} KeysAre(f: string)
    ensures Key(Config, f) == "config." + f
    ensures Key(ParamOverrides, f) == "param_overrides." + f
    ensures Key(ModelRedirects, f) == "model_redirect_rules." + f
  {
  }

  // ----- One column's versions -----

  /** `s` holds exactly the versions `cv` has for the fields of column `c`. */
  ghost predicate IsSlice(s: Vers, cv: Vers, c: Col) {
    forall f :: (f in s <==> Key(c, f) in cv) && (f in s ==> s[f] == cv[Key(c, f)])
  }

  method SliceColumnVersions(cv: Vers, c: Col) returns (s: Vers)
    ensures IsSlice(s, cv, c)
  {
    s := map[];
    var left := cv.Keys;
    var prefix := Prefix(c);
    while left != {}
      invariant left <= cv.Keys
      invariant forall f :: f in s <==> Key(c, f) in cv && Key(c, f) !in left
      invariant forall f :: f in s ==> s[f] == cv[Key(c, f)]
      decreases |left|
    {
      var k :| k in left;
      ghost var before, rest := s, left - {k};
      if prefix <= k {
        s := s[k[|prefix|..] := cv[k]];
        KeyJoins(c, k);
      }
      forall f
        ensures f in s <==> Key(c, f) in cv && Key(c, f) !in rest
        ensures f in s ==> s[f] == cv[Key(c, f)]
      {
        KeySplits(c, f);
      }
      left := left - {k};
    }
  }

  lemma {:induction false} SliceOver(cv: Vers, c: Col, ks: set<string>) returns (s: Vers)
    requires ks <= cv.Keys
    ensures forall f :: (f in s <==> Key(c, f) in ks) && (f in s ==> s[f] == cv[Key(c, f)])
    decreases |ks|
  {
    if ks == {} {
      s := map[];
    } else {
      var k :| k in ks;
      var rest := SliceOver(cv, c, ks - {k});
      s := rest;
      if Prefix(c) <= k {
        s := s[k[|Prefix(c)|..] := cv[k]];
        KeyJoins(c, k);
      }
      forall f
        ensures (f in s <==> Key(c, f) in ks) && (f in s ==> s[f] == cv[Key(c, f)])
      {
        KeySplits(c, f);
      }
    }
  }

  lemma {:induction false} SliceExists(cv: Vers, c: Col)
    ensures exists s :: IsSlice(s, cv, c)
  {
    var s := SliceOver(cv, c, cv.Keys);
    assert IsSlice(s, cv, c);
  }

  ghost function Slice(cv: Vers, c: Col): (s: Vers)
    ensures IsSlice(s, cv, c)
  {
    SliceExists(cv, c);
    var s :| IsSlice(s, cv, c);
    s
  }

  lemma {:induction false} SliceUnique(s: Vers, cv: Vers, c: Col)
    requires IsSlice(s, cv, c)
    ensures s == Slice(cv, c)
  {
    var t := Slice(cv, c);
    forall f
      ensures f in s <==> f in t
      ensures f in s ==> s[f] == t[f]
    {
      assert f in s <==> Key(c, f) in cv;
      assert f in t <==> Key(c, f) in cv;
    }
    assert s == t;
  }

  /** `k` is the key of a field of column `c` that `vers` has. */
  predicate Owned(k: string, c: Col, vers: Vers) {
    Prefix(c) <= k && k[|Prefix(c)|..] in vers
  }

  /** `after` is `dst` with the versions `vers` written under column `c`. */
  ghost predicate IsJoined(after: Vers, dst: Vers, c: Col, vers: Vers) {
    && (forall f :: f in vers ==> Key(c, f) in after && after[Key(c, f)] == vers[f])
    && (forall k :: k in after ==> k in dst || Owned(k, c, vers))
    && (forall k :: k in dst ==> k in after)
    && (forall k :: k in dst && !Owned(k, c, vers) ==> after[k] == dst[k])
  }

  method JoinColumnVersions(dst: Vers, c: Col, vers: Vers) returns (after: Vers)
    ensures IsJoined(after, dst, c, vers)
  {
    after := dst;
    var left := vers.Keys;
    while left != {}
      invariant left <= vers.Keys
      invariant forall f :: f in vers && f !in left ==> Key(c, f) in after && after[Key(c, f)] == vers[f]
      invariant forall k :: k in after ==> k in dst || Owned(k, c, vers)
      invariant forall k :: k in dst ==> k in after
      invariant forall k :: k in dst && !Owned(k, c, vers) ==> after[k] == dst[k]
      decreases |left|
    {
      var f :| f in left;
      KeySplits(c, f);
      ghost var before := after;
      after := after[Key(c, f) := vers[f]];
      left := left - {f};
      forall g | g in vers && g !in left
        ensures Key(c, g) in after && after[Key(c, g)] == vers[g]
      {
        KeysDiffer(c, f, c, g);
      }
    }
  }

  lemma {:induction false} OwnedKey(c: Col, vers: Vers, d: Col, f: string)
    ensures Owned(Key(d, f), c, vers) <==> c == d && f in vers
  {
    KeySplits(d, f);
    if Prefix(c) <= Key(d, f) {
      KeyJoins(c, Key(d, f));
      KeysDiffer(c, Key(d, f)[|Prefix(c)|..], d, f);
    }
  }

  lemma {:induction false} JoinedAt(after: Vers, dst: Vers, c: Col, vers: Vers, d: Col, f: string)
    requires IsJoined(after, dst, c, vers)
    requires Slice(dst, c) == map[]
    ensures var s := if d == c then vers else Slice(dst, d);
            (f in s <==> Key(d, f) in after) && (f in s ==> s[f] == after[Key(d, f)])
  {
    hide Prefix, Key, Owned;
    OwnedKey(c, vers, d, f);
    assert f in Slice(dst, d) <==> Key(d, f) in dst;
    assert IsSlice(Slice(dst, c), dst, c);
  }

  /** Writing a column makes it what was written when it was empty before, and no other column changes. */
  lemma {:induction false} JoinSlices(after: Vers, dst: Vers, c: Col, vers: Vers, d: Col)
    requires IsJoined(after, dst, c, vers)
    requires Slice(dst, c) == map[]
    ensures Slice(after, d) == if d == c then vers else Slice(dst, d)
  {
    var s := if d == c then vers else Slice(dst, d);
    hide IsJoined, Key;
    forall f
      ensures (f in s <==> Key(d, f) in after) && (f in s ==> s[f] == after[Key(d, f)])
    {
      JoinedAt(after, dst, c, vers, d, f);
    }
    SliceUnique(s, after, d);
  }

  // ----- Merging two groups -----

  ghost function ColumnOf(g: Group, c: Col): Column {
    Column(Get(g, c), Slice(g.versions, c))
  }

  ghost predicate Versioned(g: Group, c: Col) {
    Slice(g.versions, c) != map[]
  }

  /** One column of the merge. Without versions on either side the newer record's column is taken whole. */
  ghost function MergedColumn(a: Group, b: Group, incomingWins: bool, c: Col): Column {
    if !Versioned(a, c) && !Versioned(b, c) then Column(if incomingWins then Get(b, c) else Get(a, c), map[])
    else Merge(ColumnOf(a, c), ColumnOf(b, c))
  }

  /** The merged group: every column merged on its own, its versions and no others under its own keys. */
  ghost predicate IsMergedGroup(m: Group, a: Group, b: Group, incomingWins: bool) {
    && (forall c :: ColumnOf(m, c) == MergedColumn(a, b, incomingWins, c))
    && (forall k :: k in m.versions ==> exists c :: Owned(k, c, MergedColumn(a, b, incomingWins, c).vers))
  }

  lemma {:induction false} NothingJoined(dst: Vers, c: Col)
    ensures IsJoined(dst, dst, c, map[])
  {
  }

  method MergeColumn(existing: Group, incoming: Group, incomingWins: bool, c: Col, versions: Vers)
      returns (fields: Json, after: Vers, ghost vers: Vers)
    requires Slice(versions, c) == map[]
    ensures Column(fields, vers) == MergedColumn(existing, incoming, incomingWins, c)
    ensures IsJoined(after, versions, c, vers)
  {
    hide IsJoined, IsSlice, Merge;
    NothingJoined(versions, c);
    var eVers := SliceColumnVersions(existing.versions, c);
    var iVers := SliceColumnVersions(incoming.versions, c);
    SliceUnique(eVers, existing.versions, c);
    SliceUnique(iVers, incoming.versions, c);
    if eVers == map[] && iVers == map[] {
      fields := if incomingWins then Get(incoming, c) else Get(existing, c);
      return fields, versions, map[];
    }
    var merged := MergeJSONFields(Column(Get(existing, c), eVers), Column(Get(incoming, c), iVers));
    fields, vers := merged.fields, merged.vers;
    after := JoinColumnVersions(versions, c, merged.vers);
  }

  method MergeGroupJSONColumns(existing: Group, incoming: Group, incomingWins: bool) returns (m: Group)
    ensures IsMergedGroup(m, existing, incoming, incomingWins)
  {
    var none: Vers := map[];
    EmptySlices();
    hide *;
    var config, v1, x1 := MergeColumn(existing, incoming, incomingWins, Config, none);
    JoinAll(v1, none, Config, x1);
    var overrides, v2, x2 := MergeColumn(existing, incoming, incomingWins, ParamOverrides, v1);
    JoinAll(v2, v1, ParamOverrides, x2);
    var redirects, v3, x3 := MergeColumn(existing, incoming, incomingWins, ModelRedirects, v2);
    JoinAll(v3, v2, ModelRedirects, x3);
    m := Group(config, overrides, redirects, v3);
    ThreeColumns(m, existing, incoming, incomingWins, v1, v2, x1, x2, x3);
  }

  lemma {:induction false} EmptySlices()
    ensures forall c :: Slice(map[], c) == map[]
  {
    forall c
      ensures Slice(map[], c) == map[]
    {
      SliceUnique(map[], map[], c);
    }
  }

  lemma {:induction false} JoinAll(after: Vers, dst: Vers, c: Col, vers: Vers)
    requires IsJoined(after, dst, c, vers) && Slice(dst, c) == map[]
    ensures forall d :: Slice(after, d) == if d == c then vers else Slice(dst, d)
  {
    hide *;
    forall d
      ensures Slice(after, d) == if d == c then vers else Slice(dst, d)
    {
      JoinSlices(after, dst, c, vers, d);
    }
  }

  lemma {:induction false} ThreeColumns(m: Group, a: Group, b: Group, w: bool, v1: Vers, v2: Vers, x1: Vers, x2: Vers, x3: Vers)
    requires Column(m.config, x1) == MergedColumn(a, b, w, Config)
    requires Column(m.paramOverrides, x2) == MergedColumn(a, b, w, ParamOverrides)
    requires Column(m.modelRedirects, x3) == MergedColumn(a, b, w, ModelRedirects)
    requires IsJoined(v1, map[], Config, x1) && IsJoined(v2, v1, ParamOverrides, x2) && IsJoined(m.versions, v2, ModelRedirects, x3)
    requires Slice(m.versions, Config) == x1 && Slice(m.versions, ParamOverrides) == x2 && Slice(m.versions, ModelRedirects) == x3
    ensures IsMergedGroup(m, a, b, w)
  {
    hide MergedColumn, Slice, IsSlice, Owned;
    forall c
      ensures ColumnOf(m, c) == MergedColumn(a, b, w, c)
    {
      match c
      case Config =>
      case ParamOverrides =>
      case ModelRedirects =>
    }
    hide ColumnOf;
    forall k | k in m.versions
      ensures exists c :: Owned(k, c, MergedColumn(a, b, w, c).vers)
    {
      if Owned(k, ModelRedirects, x3) {
        assert Owned(k, ModelRedirects, MergedColumn(a, b, w, ModelRedirects).vers);
      } else if Owned(k, ParamOverrides, x2) {
        assert Owned(k, ParamOverrides, MergedColumn(a, b, w, ParamOverrides).vers);
      } else {
        assert Owned(k, Config, MergedColumn(a, b, w, Config).vers);
      }
    }
  }

  // ----- Every two groups can be merged -----

  lemma {:induction false} JoinOver(dst: Vers, c: Col, vers: Vers, fs: set<string>) returns (after: Vers)
    requires fs <= vers.Keys
    ensures forall f :: f in fs ==> Key(c, f) in after && after[Key(c, f)] == vers[f]
    ensures forall k :: k in after ==> k in dst || Owned(k, c, vers)
    ensures forall k :: k in dst ==> k in after
    ensures forall k :: k in dst && !Owned(k, c, vers) ==> after[k] == dst[k]
    decreases |fs|
  {
    if fs == {} {
      after := dst;
    } else {
      var f :| f in fs;
      var before := JoinOver(dst, c, vers, fs - {f});
      OwnedKey(c, vers, c, f);
      after := before[Key(c, f) := vers[f]];
      forall g | g in fs
        ensures Key(c, g) in after && after[Key(c, g)] == vers[g]
      {
        KeysDiffer(c, f, c, g);
      }
    }
  }

  lemma {:induction false} JoinExists(dst: Vers, c: Col, vers: Vers) returns (after: Vers)
    ensures IsJoined(after, dst, c, vers)
  {
    after := JoinOver(dst, c, vers, vers.Keys);
  }

  lemma {:induction false} MergedGroupExists(a: Group, b: Group, w: bool) returns (m: Group)
    ensures IsMergedGroup(m, a, b, w)
  {
    var none: Vers := map[];
    EmptySlices();
    hide *;
    var x1, x2, x3 := MergedColumn(a, b, w, Config), MergedColumn(a, b, w, ParamOverrides), MergedColumn(a, b, w, ModelRedirects);
    var v1 := JoinExists(none, Config, x1.vers);
    JoinAll(v1, none, Config, x1.vers);
    var v2 := JoinExists(v1, ParamOverrides, x2.vers);
    JoinAll(v2, v1, ParamOverrides, x2.vers);
    var v3 := JoinExists(v2, ModelRedirects, x3.vers);
    JoinAll(v3, v2, ModelRedirects, x3.vers);
    m := Group(x1.fields, x2.fields, x3.fields, v3);
    ThreeColumns(m, a, b, w, v1, v2, x1.vers, x2.vers, x3.vers);
  }

  // ----- Main results -----

  /** A merged group is determined by its columns: nothing else is in the version map. */
  lemma {:induction false} MergedGroupUnique(m: Group, a: Group, b: Group, w: bool, n: Group, c: Group, d: Group, v: bool)
    requires IsMergedGroup(m, a, b, w) && IsMergedGroup(n, c, d, v)
    requires forall x :: ColumnOf(m, x) == ColumnOf(n, x)
    ensures m == n
  {
    hide *;
    SameVersions(m, a, b, w, n);
    SameVersions(n, c, d, v, m);
    SameVers(m.versions, n.versions);
    SameFields(m, n);
  }

  lemma {:induction false} SameVers(u: Vers, v: Vers)
    requires forall k :: k in u ==> k in v && u[k] == v[k]
    requires forall k :: k in v ==> k in u && v[k] == u[k]
    ensures u == v
  {
  }

  lemma {:induction false} SameFields(m: Group, n: Group)
    requires forall x :: ColumnOf(m, x) == ColumnOf(n, x)
    requires m.versions == n.versions
    ensures m == n
  {
    hide Slice, IsSlice;
    assert ColumnOf(m, Config) == ColumnOf(n, Config);
    assert ColumnOf(m, ParamOverrides) == ColumnOf(n, ParamOverrides);
    assert ColumnOf(m, ModelRedirects) == ColumnOf(n, ModelRedirects);
  }

  lemma {:induction false} SameVersions(m: Group, a: Group, b: Group, w: bool, n: Group)
    requires IsMergedGroup(m, a, b, w)
    requires forall x :: ColumnOf(m, x) == ColumnOf(n, x)
    ensures forall k :: k in m.versions ==> k in n.versions && m.versions[k] == n.versions[k]
  {
    hide MergedColumn, Slice, Get, Prefix;
    forall k | k in m.versions
      ensures k in n.versions && m.versions[k] == n.versions[k]
    {
      var c :| Owned(k, c, MergedColumn(a, b, w, c).vers);
      assert ColumnOf(m, c) == ColumnOf(n, c);
      VersionAt(m.versions, n.versions, c, k);
    }
  }

  lemma {:induction false} VersionAt(u: Vers, v: Vers, c: Col, k: string)
    requires Prefix(c) <= k && k in u && Slice(u, c) == Slice(v, c)
    ensures k in v && u[k] == v[k]
  {
    var f := k[|Prefix(c)|..];
    KeyJoins(c, k);
    assert f in Slice(u, c) && Slice(u, c)[f] == u[k];
    assert f in Slice(v, c) && Slice(v, c)[f] == v[k];
  }

  lemma {:induction false} SymmetricAt(m: Group, n: Group, a: Group, b: Group, w: bool, v: bool, c: Col)
    requires IsMergedGroup(m, a, b, w) && IsMergedGroup(n, b, a, v)
    ensures ColumnOf(m, c) == ColumnOf(n, c)
       <==> if Versioned(a, c) || Versioned(b, c) then forall f :: !Clash(ColumnOf(a, c), ColumnOf(b, c), f)
            else w != v || Get(a, c) == Get(b, c)
  {
    assert ColumnOf(m, c) == MergedColumn(a, b, w, c) && ColumnOf(n, c) == MergedColumn(b, a, v, c);
    hide IsMergedGroup, Versioned, Get, Merge, ColumnOf, Clash;
    CommutativeIff(ColumnOf(a, c), ColumnOf(b, c));
  }

  /**
   * Two peers that merge each other's groups agree exactly when no column clashes that either has versioned,
   * and no other column differs while both peers think the same side wins, as they do at equal times.
   */
  lemma {:induction false} SymmetricIff(m: Group, n: Group, a: Group, b: Group, w: bool, v: bool)
    requires IsMergedGroup(m, a, b, w) && IsMergedGroup(n, b, a, v)
    ensures m == n <==> forall c :: if Versioned(a, c) || Versioned(b, c) then forall f :: !Clash(ColumnOf(a, c), ColumnOf(b, c), f)
                                    else w != v || Get(a, c) == Get(b, c)
  {
    hide *;
    forall c
      ensures ColumnOf(m, c) == ColumnOf(n, c)
         <==> if Versioned(a, c) || Versioned(b, c) then forall f :: !Clash(ColumnOf(a, c), ColumnOf(b, c), f)
              else w != v || Get(a, c) == Get(b, c)
    {
      SymmetricAt(m, n, a, b, w, v, c);
    }
    if forall c :: ColumnOf(m, c) == ColumnOf(n, c) {
      MergedGroupUnique(m, a, b, w, n, b, a, v);
    }
  }

  /** A number and the string of its digits have the same text: of two peers that hold them, each keeps its own. */
  lemma {:induction false} RenderingClash(m: Group, n: Group, w: bool, v: bool)
    requires var a, b := Group(map["x" := Value("1", "1")], map[], map[], map["config.y" := 1]), Group(map["x" := Value("\"1\"", "1")], map[], map[], map[]);
             IsMergedGroup(m, a, b, w) && IsMergedGroup(n, b, a, v)
    ensures m != n
  {
    var a, b := Group(map["x" := Value("1", "1")], map[], map[], map["config.y" := 1]), Group(map["x" := Value("\"1\"", "1")], map[], map[], map[]);
    FallbackSlices();
    hide Slice, IsSlice;
    assert "y" in Slice(a.versions, Config) && "x" !in Slice(a.versions, Config) && Slice(b.versions, Config) == map[];
    assert Versioned(a, Config) && Clash(ColumnOf(a, Config), ColumnOf(b, Config), "x");
    hide Versioned, Clash, ColumnOf;
    SymmetricIff(m, n, a, b, w, v);
  }

  /** Without versions and at equal times neither record wins: of two peers, each keeps its own column. */
  lemma {:induction false} EqualTimesApart(m: Group, n: Group, v: Value)
    requires var a, b := Group(map["x" := v], map[], map[], map[]), Group(map[], map[], map[], map[]);
             IsMergedGroup(m, a, b, false) && IsMergedGroup(n, b, a, false)
    ensures m.config == map["x" := v] && n.config == map[] && m != n
  {
    var a, b := Group(map["x" := v], map[], map[], map[]), Group(map[], map[], map[], map[]);
    FallbackSlices();
    hide Slice, IsSlice, Merge, Prefix;
    assert ColumnOf(m, Config) == MergedColumn(a, b, false, Config);
    assert ColumnOf(n, Config) == MergedColumn(b, a, false, Config);
    assert "x" in m.config && "x" !in n.config;
  }

  /**
   * The record-level fallback does not mix with versions: a column that nobody has versioned yet is kept
   * or lost by the order in which three peers meet, whichever records win.
   */
  lemma {:induction false} FallbackSplits(v: Value, ab: Group, abThenC: Group, ac: Group, acThenB: Group, w1: bool, w2: bool, w3: bool)
    requires var a, b, c := Group(map["x" := v], map[], map[], map[]), Group(map[], map[], map[], map[]), Group(map[], map[], map[], map["config.y" := 1]);
             && IsMergedGroup(ab, a, b, true) && IsMergedGroup(abThenC, ab, c, w1)
             && IsMergedGroup(ac, a, c, w2) && IsMergedGroup(acThenB, ac, b, w3)
    ensures "x" !in abThenC.config && "x" in acThenB.config
  {
    var a, b, c := Group(map["x" := v], map[], map[], map[]), Group(map[], map[], map[], map[]), Group(map[], map[], map[], map["config.y" := 1]);
    FallbackSlices();
    hide Slice, IsSlice, Merge, Prefix;
    assert ColumnOf(ab, Config) == MergedColumn(a, b, true, Config);
    assert ColumnOf(abThenC, Config) == MergedColumn(ab, c, w1, Config);
    assert ColumnOf(ac, Config) == MergedColumn(a, c, w2, Config);
    assert ColumnOf(acThenB, Config) == MergedColumn(ac, b, w3, Config);
    MergedCell(ColumnOf(ab, Config), ColumnOf(c, Config), "x");
    MergedCell(ColumnOf(a, Config), ColumnOf(c, Config), "x");
    MergedCell(ColumnOf(a, Config), ColumnOf(c, Config), "y");
    MergedCell(ColumnOf(ac, Config), ColumnOf(b, Config), "x");
  }

  lemma {:induction false} FallbackSlices()
    ensures Slice(map[], Config) == map[]
    ensures Slice(map["config.y" := 1], Config) == map["y" := 1]
  {
    EmptySlices();
    var s: Vers, cv: Vers := map["y" := 1], map["config.y" := 1];
    assert Key(Config, "y") == "config.y";
    forall f
      ensures f in s <==> Key(Config, f) in cv
      ensures f in s ==> s[f] == cv[Key(Config, f)]
    {
      KeysDiffer(Config, f, Config, "y");
    }
    SliceUnique(s, cv, Config);
  }

  // ----- Editing a group -----

  /** The edit added, changed or removed field `f`. */
  predicate Changed(before: Json, after: Json, f: string) {
    || (f in before && f !in after)
    || (f !in before && f in after)
    || (f in before && f in after && before[f].json != after[f].json)
  }

  function TextIn(j: Json, f: string): Option<string> {
    if f in j then Some(j[f].json) else None
  }

  /** A field changes with its presence or its JSON text. */
  lemma {:induction false} ChangedIff(before: Json, after: Json, f: string)
    ensures Changed(before, after, f) <==> TextIn(before, f) != TextIn(after, f)
  {
  }

  /** Exactly the changed fields of column `c` are stamped `now`. */
  ghost predicate IsStamped(after: Vers, vers: Vers, c: Col, old0: Json, new0: Json, now: int) {
    && (forall f :: Changed(old0, new0, f) ==> Key(c, f) in after && after[Key(c, f)] == now)
    && (forall k :: k in after ==> k in vers || exists f :: Changed(old0, new0, f) && k == Key(c, f))
    && (forall k :: k in vers ==> k in after)
    && (forall k :: k in vers && (forall f :: Changed(old0, new0, f) ==> k != Key(c, f)) ==> after[k] == vers[k])
  }

  method StampConfigVersions(vers: Vers, c: Col, before: Json, after: Json, now: int) returns (stamped: Vers)
    ensures IsStamped(stamped, vers, c, before, after, now)
  {
    stamped := vers;
    var left := before.Keys + after.Keys;
    while left != {}
      invariant forall f :: Changed(before, after, f) && f !in left ==> Key(c, f) in stamped && stamped[Key(c, f)] == now
      invariant forall k :: k in stamped ==> k in vers || exists f :: Changed(before, after, f) && k == Key(c, f)
      invariant forall k :: k in vers ==> k in stamped
      invariant forall k :: k in vers && (forall f :: Changed(before, after, f) ==> k != Key(c, f)) ==> stamped[k] == vers[k]
      decreases |left|
    {
      var f :| f in left;
      var inBefore, inAfter := f in before, f in after;
      if inBefore != inAfter || (inBefore && inAfter && before[f].json != after[f].json) {
        assert Changed(before, after, f);
        stamped := stamped[Key(c, f) := now];
      }
      left := left - {f};
    }
  }
}
