/** The text of a status code specification, and the codes that it spells. */
module StatusGrammar {
  import opened Wrappers
  import opened Strings
  import opened StatusMatcher

  predicate Allowed(r: Range) {
    100 <= r.start <= r.end <= 999
  }

  /** `t` is a single code. */
  predicate IsCode(t: string, r: Range) {
    '-' !in t && Atoi(t) == Some(r.start) && r.end == r.start
  }

  /** `t` is two codes around a hyphen, with or without white space. */
  ghost predicate IsSpan(t: string, r: Range) {
    exists x, y :: t == x + ['-'] + y && '-' !in x && '-' !in y
                   && Atoi(TrimSpace(x)) == Some(r.start) && Atoi(TrimSpace(y)) == Some(r.end)
  }

  /** The entry `t` stands for the codes of `r`. */
  ghost predicate IsEntry(t: string, r: Range) {
    Allowed(r) && (IsCode(t, r) || IsSpan(t, r))
  }

  lemma {:induction false} HyphenSplits(x: string, y: string)
    requires '-' !in x && '-' !in y
    ensures SplitOn(x + ['-'] + y, '-') == [x, y]
  {
    SplitFirst(x, '-', y);
    SplitOne(y, '-');
  }

  lemma {:induction false} TwoParts(t: string)
    requires |SplitOn(t, '-')| == 2
    ensures var parts := SplitOn(t, '-');
            t == parts[0] + ['-'] + parts[1] && '-' !in parts[0] && '-' !in parts[1]
  {
    SplitJoins(t, '-');
    var parts := SplitOn(t, '-');
    hide SplitOn;
    assert parts[1..] == [parts[1]];
    assert Joined(parts, '-') == parts[0] + ['-'] + Joined(parts[1..], '-');
  }

  lemma {:induction false} NothingIsNoNumber()
    ensures Atoi("") == None
  {
  }

  lemma {:induction false} SpanRead(x: string, y: string)
    requires '-' !in x && '-' !in y && Bare(x + ['-'] + y)
    ensures var start, end := TrimSpace(x), TrimSpace(y);
            TokenOf(x + ['-'] + y) == if start == "" || end == "" then Malformed else Span(Atoi(start), Atoi(end))
  {
    var t := x + ['-'] + y;
    TrimIs("", t, "");
    assert "" + t + "" == t && t[|x|] == '-';
    HyphenSplits(x, y);
    hide Atoi, SplitOn, TrimSpace;
  }

  lemma {:induction false} CodeRead(t: string)
    requires '-' !in t && t != "" && Bare(t)
    ensures TokenOf(t) == Single(Atoi(t))
  {
    TrimIs("", t, "");
    assert "" + t + "" == t;
    hide Atoi, TrimSpace;
  }

  /** A token counts for what is left of it without the white space around it. */
  lemma {:induction false} TokenTrimmed(raw: string)
    ensures TokenOf(raw) == TokenOf(TrimSpace(raw)) && Bare(TrimSpace(raw))
    ensures TrimSpace(raw) == "" ==> TokenOf(raw) == Blank
  {
    var before, behind := TrimLeaves(raw);
    var t := TrimSpace(raw);
    TrimIs("", t, "");
    assert "" + t + "" == t;
    hide TrimSpace, Atoi, SplitOn;
  }

  lemma {:induction false} EntryValid(t: string, r: Range)
    requires Bare(t) && IsEntry(t, r)
    ensures Valid(TokenOf(t)) && RangesOf(TokenOf(t)) == [r]
  {
    NothingIsNoNumber();
    hide TokenOf, Atoi, TrimSpace;
    if IsCode(t, r) {
      CodeRead(t);
    } else {
      var x, y :| t == x + ['-'] + y && '-' !in x && '-' !in y && Atoi(TrimSpace(x)) == Some(r.start) && Atoi(TrimSpace(y)) == Some(r.end);
      SpanRead(x, y);
    }
  }

  lemma {:induction false} ValidEntry(t: string) returns (r: Range)
    requires Bare(t) && t != "" && Valid(TokenOf(t))
    ensures IsEntry(t, r)
  {
    if '-' !in t {
      CodeRead(t);
      hide TokenOf, Atoi;
      r := Range(Atoi(t).value, Atoi(t).value);
    } else {
      TrimIs("", t, "");
      assert "" + t + "" == t;
      var parts := SplitOn(t, '-');
      hide Atoi;
      assert |parts| == 2;
      TwoParts(t);
      r := Range(Atoi(TrimSpace(parts[0])).value, Atoi(TrimSpace(parts[1])).value);
      hide SplitOn, TrimSpace;
      assert t == parts[0] + ['-'] + parts[1];
      assert IsSpan(t, r);
    }
  }

  /** A token is accepted exactly when it is blank or an entry, and stands for the codes of that entry. */
  lemma {:induction false} TokenIff(raw: string)
    ensures Valid(TokenOf(raw)) <==> TrimSpace(raw) == "" || exists r :: IsEntry(TrimSpace(raw), r)
    ensures forall r :: IsEntry(TrimSpace(raw), r) ==> Valid(TokenOf(raw)) && RangesOf(TokenOf(raw)) == [r]
  {
    var t := TrimSpace(raw);
    TokenTrimmed(raw);
    hide TokenOf, TrimSpace, IsEntry, RangesOf;
    forall r | IsEntry(t, r)
      ensures Valid(TokenOf(t)) && RangesOf(TokenOf(t)) == [r]
    {
      EntryValid(t, r);
    }
    if t != "" && Valid(TokenOf(t)) {
      var r := ValidEntry(t);
    }
  }

  // ----- Specifications as they are written -----

  function WrittenEntry(r: Range): string
    requires Allowed(r)
  {
    if r.start == r.end then Decimal(r.start) else Decimal(r.start) + ['-'] + Decimal(r.end)
  }

  lemma {:induction false} DecimalPlain(n: nat)
    ensures var s := Decimal(n);
            Bare(s) && '-' !in s && ',' !in s && '\n' !in s && TrimSpace(s) == s && Atoi(s) == Some(n)
  {
    var s := Decimal(n);
    AtoiIs(n);
    assert IsDigit(s[0]) && IsDigit(s[|s| - 1]);
    assert Bare(s);
    TrimIs("", s, "");
    assert "" + s + "" == s;
  }

  lemma {:induction false} WrittenIsEntry(r: Range)
    requires Allowed(r)
    ensures var t := WrittenEntry(r);
            t != "" && Bare(t) && ',' !in t && '\n' !in t && IsEntry(t, r)
  {
    DecimalPlain(r.start);
    DecimalPlain(r.end);
    hide Decimal, Atoi, TrimSpace, IsSpace;
    if r.start != r.end {
      assert IsSpan(WrittenEntry(r), r);
    }
  }

  function WrittenEntries(rs: seq<Range>): (parts: seq<string>)
    requires forall i :: 0 <= i < |rs| ==> Allowed(rs[i])
    ensures |parts| == |rs|
  {
    seq(|rs|, i requires 0 <= i < |rs| => WrittenEntry(rs[i]))
  }

  lemma {:induction false} ReplacedIs(s: string)
    ensures ',' !in s && '\n' !in s ==> ReplaceAll(s, '\n', ',') == s && ReplaceAll(s + "\n", '\n', ',') == s + ","
  {
  }

  lemma {:induction false} ReplacedConcat(a: string, b: string)
    ensures ReplaceAll(a + b, '\n', ',') == ReplaceAll(a, '\n', ',') + ReplaceAll(b, '\n', ',')
  {
  }

  /** Commas and line breaks separate alike. */
  lemma {:induction false} SeparatorsAlike(parts: seq<string>, sep: char)
    requires parts != [] && (sep == ',' || sep == '\n')
    requires forall i :: 0 <= i < |parts| ==> ',' !in parts[i] && '\n' !in parts[i]
    ensures ReplaceAll(Joined(parts, sep), '\n', ',') == Joined(parts, ',')
  {
    ReplacedIs(parts[0]);
    if |parts| > 1 {
      SeparatorsAlike(parts[1..], sep);
      ReplacedConcat(parts[0], [sep] + Joined(parts[1..], sep));
      ReplacedConcat([sep], Joined(parts[1..], sep));
      hide Joined, ReplaceAll;
      assert ReplaceAll([sep], '\n', ',') == [','] by { SeparatorReplaced(sep); }
      JoinedOn(parts, sep);
      JoinedOn(parts, ',');
      assert parts[0] + [sep] + Joined(parts[1..], sep) == parts[0] + ([sep] + Joined(parts[1..], sep));
      assert parts[0] + [','] + Joined(parts[1..], ',') == parts[0] + ([','] + Joined(parts[1..], ','));
    }
  }

  lemma {:induction false} SeparatorReplaced(sep: char)
    requires sep == ',' || sep == '\n'
    ensures ReplaceAll([sep], '\n', ',') == [',']
  {
  }

  lemma {:induction false} JoinedOn(parts: seq<string>, sep: char)
    requires |parts| > 1
    ensures Joined(parts, sep) == parts[0] + [sep] + Joined(parts[1..], sep)
  {
  }

  lemma {:induction false} JoinedEnds(parts: seq<string>, sep: char)
    requires parts != [] && forall i :: 0 <= i < |parts| ==> parts[i] != "" && Bare(parts[i])
    ensures Joined(parts, sep) != "" && Bare(Joined(parts, sep))
  {
    hide IsSpace;
    if |parts| > 1 {
      JoinedEnds(parts[1..], sep);
    }
  }

  /** White space around the whole does not matter, nor which separator is used. */
  lemma {:induction false} RawTokensRead(parts: seq<string>, sep: char, before: string, behind: string)
    requires parts != [] && (sep == ',' || sep == '\n') && AllSpace(before) && AllSpace(behind)
    requires forall i :: 0 <= i < |parts| ==> parts[i] != "" && Bare(parts[i]) && ',' !in parts[i] && '\n' !in parts[i]
    ensures RawTokens(before + Joined(parts, sep) + behind) == parts
  {
    JoinedEnds(parts, sep);
    TrimIs(before, Joined(parts, sep), behind);
    SeparatorsAlike(parts, sep);
    JoinedSplits(parts, ',');
    hide Joined, TrimSpace, ReplaceAll, SplitOn, Bare;
  }

  lemma {:induction false} WrittenParsed(rs: seq<Range>)
    requires forall i :: 0 <= i < |rs| ==> Allowed(rs[i])
    ensures AllValid(Tokens(WrittenEntries(rs))) && Parsed(Tokens(WrittenEntries(rs))) == rs
  {
    hide TokenOf, WrittenEntry, Valid, RangesOf;
    if rs == [] {
      assert Tokens(WrittenEntries(rs)) == [];
    } else {
      var front, r := rs[..|rs| - 1], rs[|rs| - 1];
      WrittenParsed(front);
      EntryRead(r);
      assert Tokens(WrittenEntries(rs)) == Tokens(WrittenEntries(front)) + [TokenOf(WrittenEntry(r))];
      assert rs == front + [r];
    }
  }

  lemma {:induction false} EntryRead(r: Range)
    requires Allowed(r)
    ensures Valid(TokenOf(WrittenEntry(r))) && RangesOf(TokenOf(WrittenEntry(r))) == [r]
  {
    WrittenIsEntry(r);
    hide TokenOf, WrittenEntry, IsEntry;
    EntryValid(WrittenEntry(r), r);
  }

  /**
   * Ranges of allowed codes that are written down, in any order, with commas or line breaks between them and
   * white space around them, are accepted, and the matcher matches exactly their codes.
   */
  lemma {:induction false} WrittenSpecMeans(rs: seq<Range>, sep: char, before: string, behind: string, code: int)
    requires rs != [] && (sep == ',' || sep == '\n') && AllSpace(before) && AllSpace(behind)
    requires forall i :: 0 <= i < |rs| ==> Allowed(rs[i])
    ensures var tokens := Tokens(RawTokens(before + Joined(WrittenEntries(rs), sep) + behind));
            && AllValid(tokens)
            && (Covers(Coalesced(Sorted(Parsed(tokens))), code) <==> exists i :: 0 <= i < |rs| && rs[i].start <= code <= rs[i].end)
  {
    var parts := WrittenEntries(rs);
    forall i | 0 <= i < |parts|
      ensures parts[i] != "" && Bare(parts[i]) && ',' !in parts[i] && '\n' !in parts[i]
    {
      WrittenIsEntry(rs[i]);
    }
    RawTokensRead(parts, sep, before, behind);
    WrittenParsed(rs);
    hide *;
    MatcherMeansTokens(Tokens(parts), code);
    ParsedMeans(Tokens(parts), code);
    CoversIs(rs, code);
  }

  lemma {:induction false} CoversIs(rs: seq<Range>, code: int)
    ensures Covers(rs, code) <==> exists i :: 0 <= i < |rs| && rs[i].start <= code <= rs[i].end
  {
    if i :| 0 <= i < |rs| && rs[i].start <= code <= rs[i].end {
      assert rs[i] in rs && In(rs[i], code);
    }
  }
}
