/**
 * Status code specifications: parsed tokens are sorted and merged into disjoint ranges, which a binary
 * search then matches codes against.
 */
module StatusMatcher {
  import opened Wrappers
  import opened Strings
  import Sorting

  datatype Range = Range(start: int, end: int)

  /** One comma-separated token; a number is `None` when it does not parse. */
  datatype Token = Blank | Single(code: Option<int>) | Span(start: Option<int>, end: Option<int>) | Malformed

  // ----- Reading a specification -----

  function TokenOf(raw: string): Token {
    var t := TrimSpace(raw);
    if t == "" then Blank
    else if '-' in t then
      var parts := SplitOn(t, '-');
      if |parts| != 2 then Malformed
      else
        var start, end := TrimSpace(parts[0]), TrimSpace(parts[1]);
        if start == "" || end == "" then Malformed else Span(Atoi(start), Atoi(end))
    else Single(Atoi(t))
  }

  /** Tokens are separated by commas or line breaks. */
  function RawTokens(spec: string): seq<string> {
    SplitOn(ReplaceAll(TrimSpace(spec), '\n', ','), ',')
  }

  function Tokens(raws: seq<string>): seq<Token> {
    seq(|raws|, i requires 0 <= i < |raws| => TokenOf(raws[i]))
  }

  // ----- Specification -----

  predicate ValidCode(code: int) {
    100 <= code <= 999
  }

  predicate Valid(t: Token) {
    match t
    case Blank => true
    case Single(c) => c.Some? && ValidCode(c.value)
    case Span(s, e) => s.Some? && e.Some? && s.value <= e.value && ValidCode(s.value) && ValidCode(e.value)
    case Malformed => false
  }

  predicate AllValid(tokens: seq<Token>) {
    forall i :: 0 <= i < |tokens| ==> Valid(tokens[i])
  }

  function RangesOf(t: Token): seq<Range>
    requires Valid(t)
  {
    match t
    case Blank => []
    case Single(c) => [Range(c.value, c.value)]
    case Span(s, e) => [Range(s.value, e.value)]
  }

  function Parsed(tokens: seq<Token>): seq<Range>
    requires AllValid(tokens)
  {
    if tokens == [] then []
    else Parsed(tokens[..|tokens| - 1]) + RangesOf(tokens[|tokens| - 1])
  }

  predicate In(r: Range, code: int) {
    r.start <= code <= r.end
  }

  /** The plain meaning of a list of ranges. */
  predicate Covers(rs: seq<Range>, code: int) {
    exists r :: r in rs && In(r, code)
  }

  /** The plain meaning of one token. */
  predicate Names(t: Token, code: int) {
    match t
    case Single(c) => c == Some(code)
    case Span(s, e) => s.Some? && e.Some? && s.value <= code <= e.value
    case _ => false
  }

  predicate Before(a: Range, b: Range) {
    a.start < b.start || (a.start == b.start && a.end < b.end)
  }

  ghost predicate Ascending(rs: seq<Range>) {
    Sorting.Ordered(rs, Before)
  }

  function Sorted(rs: seq<Range>): seq<Range> {
    Sorting.Sorted(rs, Before)
  }

  /** Extend the last range when the next one touches it. */
  function Join(out: seq<Range>, r: Range): seq<Range> {
    if out != [] && r.start <= out[|out| - 1].end + 1 then
      var last := out[|out| - 1];
      out[..|out| - 1] + [Range(last.start, if r.end > last.end then r.end else last.end)]
    else out + [r]
  }

  function Coalesced(rs: seq<Range>): seq<Range> {
    if rs == [] then [] else Join(Coalesced(rs[..|rs| - 1]), rs[|rs| - 1])
  }

  /** Ranges in order with at least one uncovered code between neighbours. */
  predicate Canonical(rs: seq<Range>) {
    && (forall i :: 0 <= i < |rs| ==> rs[i].start <= rs[i].end)
    && forall i :: 0 <= i < |rs| - 1 ==> rs[i].end + 1 < rs[i + 1].start
  }

  // ----- Sorting -----

  lemma {:induction false} SortedIs(rs: seq<Range>)
    ensures Ascending(Sorted(rs))
    ensures forall x :: x in Sorted(rs) <==> x in rs
  {
    Sorting.SortedOrdered(rs, Before);
    assert forall x :: x in Sorted(rs) <==> x in multiset(Sorted(rs));
    assert forall x :: x in rs <==> x in multiset(rs);
  }

  // ----- Parsing, merging and matching -----

  /** `None` when some token is invalid; the loop stops at the first one. */
  method ParseTokens(raws: seq<string>) returns (parsed: Option<seq<Range>>)
    ensures parsed.Some? <==> AllValid(Tokens(raws))
    ensures parsed.Some? ==> parsed.value == Parsed(Tokens(raws))
  {
    var out: seq<Range> := [];
    NoTokens(raws);
    hide *;
    for i := 0 to |raws|
      invariant AllValid(Tokens(raws[..i])) && out == Parsed(Tokens(raws[..i]))
    {
      var r := ParseToken(raws[i]);
      MoreTokens(raws, i);
      if r.None? {
        return None;
      }
      out := out + r.value;
    }
    assert raws[..|raws|] == raws;
    parsed := Some(out);
  }

  lemma {:induction false} NoTokens(raws: seq<string>)
    ensures AllValid(Tokens(raws[..0])) && Parsed(Tokens(raws[..0])) == []
  {
    assert Tokens(raws[..0]) == [];
  }

  /** Valid so far, the next token decides; and one invalid token spoils all. */
  lemma {:induction false} MoreTokens(raws: seq<string>, i: nat)
    requires i < |raws| && AllValid(Tokens(raws[..i]))
    ensures AllValid(Tokens(raws[..i + 1])) <==> Valid(TokenOf(raws[i]))
    ensures AllValid(Tokens(raws)) ==> Valid(TokenOf(raws[i]))
    ensures Valid(TokenOf(raws[i])) ==> Parsed(Tokens(raws[..i + 1])) == Parsed(Tokens(raws[..i])) + RangesOf(TokenOf(raws[i]))
  {
    hide TokenOf, Valid;
    var front := Tokens(raws[..i]);
    assert Tokens(raws[..i + 1]) == front + [TokenOf(raws[i])];
    assert (front + [TokenOf(raws[i])])[..i] == front;
    assert AllValid(Tokens(raws)) ==> Valid(Tokens(raws)[i]);
    if Valid(TokenOf(raws[i])) {
      assert AllValid(front + [TokenOf(raws[i])]);
    } else {
      assert !Valid((front + [TokenOf(raws[i])])[i]);
    }
  }

  method ParseToken(raw: string) returns (r: Option<seq<Range>>)
    ensures r.Some? <==> Valid(TokenOf(raw))
    ensures r.Some? ==> r.value == RangesOf(TokenOf(raw))
  {
    var token := TrimSpace(raw);
    if token == "" {
      return Some([]);
    }
    if '-' in token {
      var parts := SplitOn(token, '-');
      if |parts| != 2 {
        return None;
      }
      var startStr, endStr := TrimSpace(parts[0]), TrimSpace(parts[1]);
      if startStr == "" || endStr == "" {
        return None;
      }
      var start, end := Atoi(startStr), Atoi(endStr);
      if start.None? || end.None? || start.value > end.value || !ValidCode(start.value) || !ValidCode(end.value) {
        return None;
      }
      return Some([Range(start.value, end.value)]);
    }
    var code := Atoi(token);
    if code.None? || !ValidCode(code.value) {
      return None;
    }
    r := Some([Range(code.value, code.value)]);
  }

  method MergeRanges(sorted: seq<Range>) returns (merged: seq<Range>)
    requires sorted != []
    ensures merged == Coalesced(sorted)
  {
    merged := [];
    var current := sorted[0];
    assert sorted[..1] == [sorted[0]] && sorted[..1][..0] == [];
    for i := 1 to |sorted|
      invariant merged + [current] == Coalesced(sorted[..i])
    {
      assert sorted[..i + 1][..i] == sorted[..i];
      var r := sorted[i];
      if r.start <= current.end + 1 {
        if r.end > current.end {
          current := Range(current.start, r.end);
        }
        continue;
      }
      merged := merged + [current];
      current := r;
    }
    assert sorted[..|sorted|] == sorted;
    merged := merged + [current];
  }

  /** The stored ranges; `None` for an invalid specification. */
  method ParseStatusCodeMatcher(spec: string) returns (ranges: Option<seq<Range>>)
    ensures ranges.Some? <==> AllValid(Tokens(RawTokens(spec)))
    ensures ranges.Some? ==> ranges.value == Coalesced(Sorted(Parsed(Tokens(RawTokens(spec)))))
  {
    if TrimSpace(spec) == "" {
      BlankSpec(spec);
      return Some([]);
    }
    var parsed := ParseTokens(RawTokens(spec));
    if parsed.None? {
      return None;
    }
    if parsed.value == [] {
      return Some([]);
    }
    var a := new Range[|parsed.value|](i requires 0 <= i < |parsed.value| => parsed.value[i]);
    assert a[..] == parsed.value;
    Sorting.StableSort(a, Before);
    SortedIs(parsed.value);
    assert parsed.value[0] in a[..];
    var merged := MergeRanges(a[..]);
    ranges := Some(merged);
  }

  lemma {:induction false} BlankSpec(spec: string)
    requires TrimSpace(spec) == ""
    ensures AllValid(Tokens(RawTokens(spec))) && Parsed(Tokens(RawTokens(spec))) == []
  {
    assert ReplaceAll("", '\n', ',') == "";
    assert RawTokens(spec) == [""] && Tokens([""]) == [Blank];
    assert [Blank][..0] == [];
    assert Parsed([]) == [];
  }

  /** Binary search for the first range that starts after `code`; only the one before it can match. */
  method Match(ranges: seq<Range>, code: int) returns (found: bool)
    requires Canonical(ranges)
    ensures found <==> Covers(ranges, code)
  {
    CanonicalAscends(ranges);
    var lo, hi := 0, |ranges|;
    while lo < hi
      invariant 0 <= lo <= hi <= |ranges|
      invariant forall k :: 0 <= k < lo ==> ranges[k].start <= code
      invariant forall k :: hi <= k < |ranges| ==> ranges[k].start > code
    {
      var mid := (lo + hi) / 2;
      if ranges[mid].start > code {
        hi := mid;
      } else {
        lo := mid + 1;
      }
    }
    if lo == 0 {
      return false;
    }
    var r := ranges[lo - 1];
    found := code >= r.start && code <= r.end;
    assert r in ranges;
  }

  lemma {:induction false} CanonicalAscends(rs: seq<Range>)
    requires Canonical(rs)
    ensures forall i, j :: 0 <= i < j < |rs| ==> rs[i].end + 1 < rs[j].start
  {
    if rs != [] {
      var front, last := rs[..|rs| - 1], rs[|rs| - 1];
      CanonicalAscends(front);
      forall i | 0 <= i < |rs| - 1
        ensures rs[i].end + 1 < last.start
      {
        if i < |rs| - 2 {
          assert front[i].end + 1 < front[|rs| - 2].start;
        }
      }
      assert forall i :: 0 <= i < |front| ==> front[i] == rs[i];
    }
  }

  // ----- Merging keeps the meaning -----

  predicate Proper(rs: seq<Range>) {
    forall i :: 0 <= i < |rs| ==> rs[i].start <= rs[i].end
  }

  lemma {:induction false} CoversConcat(a: seq<Range>, b: seq<Range>, code: int)
    ensures Covers(a + b, code) <==> Covers(a, code) || Covers(b, code)
  {
    if r :| r in a && In(r, code) {
      assert r in a + b;
    } else if r :| r in b && In(r, code) {
      assert r in a + b;
    }
  }

  lemma {:induction false} CoversOne(r: Range, code: int)
    ensures Covers([r], code) <==> In(r, code)
  {
    if In(r, code) {
      assert r in [r];
    }
  }

  /** The sorted prefix `rs` has been merged into `out`: nothing ends, and no later range starts, before its last start. */
  ghost predicate MergedInto(out: seq<Range>, rs: seq<Range>) {
    && Canonical(out)
    && (out == [] <==> rs == [])
    && (rs != [] ==> out[|out| - 1].start <= rs[|rs| - 1].start)
    && forall code :: Covers(out, code) <==> Covers(rs, code)
  }

  lemma {:induction false} JoinMerges(out: seq<Range>, rs: seq<Range>, r: Range)
    requires MergedInto(out, rs) && r.start <= r.end
    requires rs != [] ==> rs[|rs| - 1].start <= r.start
    ensures MergedInto(Join(out, r), rs + [r])
  {
    forall code
      ensures Covers(Join(out, r), code) <==> Covers(rs + [r], code)
    {
      CoversConcat(rs, [r], code);
      CoversOne(r, code);
      if out != [] && r.start <= out[|out| - 1].end + 1 {
        var front, last := out[..|out| - 1], out[|out| - 1];
        var wide := Range(last.start, if r.end > last.end then r.end else last.end);
        assert out == front + [last];
        CoversConcat(front, [last], code);
        CoversOne(last, code);
        CoversConcat(front, [wide], code);
        CoversOne(wide, code);
        assert last.start <= r.start;
      } else {
        CoversConcat(out, [r], code);
      }
    }
  }

  lemma {:induction false} CoalescedMerges(rs: seq<Range>)
    requires Ascending(rs) && Proper(rs)
    ensures MergedInto(Coalesced(rs), rs)
  {
    if rs != [] {
      var front, last := rs[..|rs| - 1], rs[|rs| - 1];
      assert forall i :: 0 <= i < |front| ==> front[i] == rs[i];
      CoalescedMerges(front);
      if front != [] {
        assert !Before(last, rs[|front| - 1]);
      }
      hide MergedInto, Ascending, Join;
      JoinMerges(Coalesced(front), front, last);
      assert rs == front + [last];
    }
  }

  lemma {:induction false} ParsedMeans(tokens: seq<Token>, code: int)
    requires AllValid(tokens)
    ensures Proper(Parsed(tokens))
    ensures Covers(Parsed(tokens), code) <==> exists t :: t in tokens && Names(t, code)
  {
    if tokens != [] {
      var front, t := tokens[..|tokens| - 1], tokens[|tokens| - 1];
      ParsedMeans(front, code);
      CoversConcat(Parsed(front), RangesOf(t), code);
      assert tokens == front + [t];
      assert Covers(RangesOf(t), code) <==> Names(t, code) by {
        if RangesOf(t) != [] {
          CoversOne(RangesOf(t)[0], code);
        }
      }
      assert forall r :: r in RangesOf(t) ==> r.start <= r.end;
    }
  }

  // ----- Main results -----

  /** The stored ranges of a valid specification are in canonical form and mean what its tokens say. */
  lemma {:induction false} MatcherMeansTokens(tokens: seq<Token>, code: int)
    requires AllValid(tokens)
    ensures var ranges := Coalesced(Sorted(Parsed(tokens)));
            && Canonical(ranges)
            && (Covers(ranges, code) <==> exists t :: t in tokens && Names(t, code))
  {
    var rs := Parsed(tokens);
    ParsedMeans(tokens, code);
    SortedIs(rs);
    forall i | 0 <= i < |Sorted(rs)|
      ensures Sorted(rs)[i].start <= Sorted(rs)[i].end
    {
      assert Sorted(rs)[i] in rs;
    }
    CoalescedMerges(Sorted(rs));
    hide Parsed, Sorted, Coalesced, Canonical;
    assert Covers(Sorted(rs), code) <==> Covers(rs, code);
  }

  /** The first range of a canonical list is the first stretch of covered codes. */
  lemma {:induction false} FirstStretch(rs: seq<Range>)
    requires Canonical(rs) && rs != []
    ensures forall code :: code < rs[0].start ==> !Covers(rs, code)
    ensures forall code :: rs[0].start <= code <= rs[0].end ==> Covers(rs, code)
    ensures !Covers(rs, rs[0].end + 1)
  {
    CanonicalAscends(rs);
    assert rs[0] in rs;
    assert forall code :: rs[0].start <= code <= rs[0].end ==> In(rs[0], code);
  }

  lemma {:induction false} StartCovered(rs: seq<Range>)
    requires Canonical(rs) && rs != []
    ensures Covers(rs, rs[0].start)
  {
    FirstStretch(rs);
  }

  lemma {:induction false} RestCovers(rs: seq<Range>, code: int)
    requires Canonical(rs) && rs != []
    ensures Canonical(rs[1..])
    ensures Covers(rs[1..], code) <==> Covers(rs, code) && code > rs[0].end
  {
    CanonicalAscends(rs);
    assert rs == [rs[0]] + rs[1..];
    CoversConcat([rs[0]], rs[1..], code);
    CoversOne(rs[0], code);
    if r :| r in rs[1..] && In(r, code) {
      var i :| 0 <= i < |rs[1..]| && rs[1..][i] == r;
      assert rs[i + 1] == r;
    }
  }

  /** Specifications that denote the same set of codes are stored identically. */
  lemma {:induction false} CanonicalUnique(a: seq<Range>, b: seq<Range>)
    requires Canonical(a) && Canonical(b)
    requires forall code :: Covers(a, code) <==> Covers(b, code)
    ensures a == b
  {
    if a == [] || b == [] {
      if a != [] {
        StartCovered(a);
      }
      if b != [] {
        StartCovered(b);
      }
    } else {
      FirstStretch(a);
      FirstStretch(b);
      SameFirst(a, b);
      forall code
        ensures Covers(a[1..], code) <==> Covers(b[1..], code)
      {
        RestCovers(a, code);
        RestCovers(b, code);
      }
      RestCovers(a, 0);
      RestCovers(b, 0);
      CanonicalUnique(a[1..], b[1..]);
      assert a == [a[0]] + a[1..] && b == [b[0]] + b[1..];
    }
  }

  lemma {:induction false} SameFirst(a: seq<Range>, b: seq<Range>)
    requires Canonical(a) && Canonical(b) && a != [] && b != []
    requires forall code :: Covers(a, code) <==> Covers(b, code)
    ensures a[0] == b[0]
  {
    FirstStretch(a);
    FirstStretch(b);
    hide Covers;
    assert Covers(b, a[0].start) && Covers(a, b[0].start);
    assert a[0].start == b[0].start;
    assert !Covers(b, a[0].end + 1) && !Covers(a, b[0].end + 1);
  }
}
