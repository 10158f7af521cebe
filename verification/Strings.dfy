/** The few operations on text that the gateway takes from its standard library. */
module Strings {
  import opened Wrappers

  /** The stretches between separators; text without a separator is one stretch. */
  function SplitOn(s: string, sep: char): (r: seq<string>)
    ensures r != []
  {
    if s == "" then [""]
    else
      var rest := SplitOn(s[1..], sep);
      if s[0] == sep then [""] + rest else [[s[0]] + rest[0]] + rest[1..]
  }

  function Joined(parts: seq<string>, sep: char): string
    requires parts != []
  {
    if |parts| == 1 then parts[0] else parts[0] + [sep] + Joined(parts[1..], sep)
  }

  /** Splitting loses nothing but the separators, and leaves none. */
  lemma {:induction false} SplitJoins(s: string, sep: char)
    ensures Joined(SplitOn(s, sep), sep) == s
    ensures forall i :: 0 <= i < |SplitOn(s, sep)| ==> sep !in SplitOn(s, sep)[i]
  {
    if s != "" {
      var rest, all := SplitOn(s[1..], sep), SplitOn(s, sep);
      SplitJoins(s[1..], sep);
      if s[0] == sep {
        assert all[1..] == rest;
      } else {
        assert all[1..] == rest[1..];
        assert sep !in rest[0];
      }
    }
  }

  predicate IsSpace(c: char) {
    || '\t' <= c <= '\r' || c == ' ' || c == '\U{85}' || c == '\U{A0}' || c == '\U{1680}'
    || '\U{2000}' <= c <= '\U{200A}' || c == '\U{2028}' || c == '\U{2029}' || c == '\U{202F}' || c == '\U{205F}' || c == '\U{3000}'
  }

  /** Without the white space at either end. */
  function TrimSpace(s: string): string {
    if s == "" then ""
    else if IsSpace(s[0]) then TrimSpace(s[1..])
    else if IsSpace(s[|s| - 1]) then TrimSpace(s[..|s| - 1])
    else s
  }

  function ReplaceAll(s: string, c: char, d: char): string {
    seq(|s|, i requires 0 <= i < |s| => if s[i] == c then d else s[i])
  }

  function Digits(s: string): Option<nat> {
    if s == "" || !('0' <= s[|s| - 1] <= '9') then None
    else
      var d := s[|s| - 1] as int - '0' as int;
      if |s| == 1 then Some(d)
      else
        var front := Digits(s[..|s| - 1]);
        if front.None? then None else Some(10 * front.value + d)
  }

  /** A decimal integer with an optional sign. */
  function Atoi(s: string): Option<int> {
    if s != "" && (s[0] == '-' || s[0] == '+') then
      var d := Digits(s[1..]);
      if d.None? then None
      else
        var n: int := d.value;
        Some(if s[0] == '-' then -n else n)
    else
      var d := Digits(s);
      if d.None? then None else Some(d.value)
  }

  // ----- What the text of a number means -----

  predicate IsDigit(c: char) {
    '0' <= c <= '9'
  }

  predicate AllDigits(s: string) {
    forall i :: 0 <= i < |s| ==> IsDigit(s[i])
  }

  /** The number as it is written. */
  function Decimal(n: nat): (s: string)
    ensures s != "" && AllDigits(s)
  {
    if n < 10 then [['0', '1', '2', '3', '4', '5', '6', '7', '8', '9'][n]] else Decimal(n / 10) + Decimal(n % 10)
  }

  lemma {:induction false} DigitsPush(s: string, c: char)
    ensures Digits(s + [c]).Some? <==> IsDigit(c) && (s == "" || Digits(s).Some?)
    ensures Digits(s + [c]).Some? ==>
              Digits(s + [c]).value == (if s == "" then 0 else 10 * Digits(s).value) + (c as int - '0' as int)
  {
    assert (s + [c])[..|s|] == s;
  }

  /** Only digits are read. */
  lemma {:induction false} DigitsIff(s: string)
    ensures Digits(s).Some? <==> s != "" && AllDigits(s)
  {
    if s != "" {
      var front, c := s[..|s| - 1], s[|s| - 1];
      assert s == front + [c];
      DigitsPush(front, c);
      DigitsIff(front);
      hide Digits;
      assert AllDigits(s) <==> AllDigits(front) && IsDigit(c);
    }
  }

  /** A number that is written is read as itself. */
  lemma {:induction false} DecimalRead(n: nat)
    ensures Digits(Decimal(n)) == Some(n)
  {
    var tens, ones := n / 10, n % 10;
    if n < 10 {
      assert Decimal(n) == "" + Decimal(n);
      DigitsPush("", Decimal(n)[0]);
    } else {
      DecimalRead(tens);
      var c := Decimal(ones)[0];
      assert Decimal(n) == Decimal(tens) + [c];
      DigitsPush(Decimal(tens), c);
      DigitsIff(Decimal(n));
    }
  }

  lemma {:induction false} LeadingZero(s: string)
    requires s != ""
    ensures Digits("0" + s) == Digits(s)
  {
    var front, c := s[..|s| - 1], s[|s| - 1];
    assert s == front + [c] && "0" + s == ("0" + front) + [c];
    DigitsPush(front, c);
    DigitsPush("0" + front, c);
    if front == "" {
      DigitsPush("", '0');
      assert "0" + front == "" + ['0'];
    } else {
      LeadingZero(front);
    }
    hide Digits;
  }

  /** A sign counts, and only in front. */
  lemma {:induction false} AtoiIs(n: nat)
    ensures Atoi(Decimal(n)) == Some(n) && Atoi("+" + Decimal(n)) == Some(n)
    ensures Atoi("-" + Decimal(n)).Some? && Atoi("-" + Decimal(n)).value + n == 0
  {
    DecimalRead(n);
    assert IsDigit(Decimal(n)[0]);
    assert ("+" + Decimal(n))[1..] == Decimal(n) && ("-" + Decimal(n))[1..] == Decimal(n);
    hide Digits, Decimal;
  }

  lemma {:induction false} AtoiIff(s: string)
    ensures Atoi(s).Some? <==>
              s != "" && if s[0] == '-' || s[0] == '+' then s[1..] != "" && AllDigits(s[1..]) else AllDigits(s)
  {
    DigitsIff(s);
    if s != "" {
      DigitsIff(s[1..]);
    }
    hide Digits;
  }

  // ----- What is left of text without the white space around it -----

  const WHITE_SPACE :=
    "\t\n\U{B}\U{C}\r \U{85}\U{A0}\U{1680}\U{2000}\U{2001}\U{2002}\U{2003}\U{2004}\U{2005}\U{2006}\U{2007}"
    + "\U{2008}\U{2009}\U{200A}\U{2028}\U{2029}\U{202F}\U{205F}\U{3000}"

  lemma {:induction false} SpacesAre(c: char)
    ensures IsSpace(c) <==> c in WHITE_SPACE
  {
  }

  predicate AllSpace(s: string) {
    forall i :: 0 <= i < |s| ==> IsSpace(s[i])
  }

  predicate Bare(s: string) {
    s == "" || (!IsSpace(s[0]) && !IsSpace(s[|s| - 1]))
  }

  /** Exactly the white space at either end goes. */
  lemma {:induction false} TrimIs(before: string, s: string, behind: string)
    requires AllSpace(before) && Bare(s) && AllSpace(behind)
    ensures TrimSpace(before + s + behind) == s
  {
    hide IsSpace;
    var all := before + s + behind;
    if before != "" {
      assert all[1..] == before[1..] + s + behind && all[0] == before[0];
      TrimIs(before[1..], s, behind);
    } else if s == "" && behind != "" {
      assert all[1..] == before + s + behind[1..] && all[0] == behind[0];
      TrimIs(before, s, behind[1..]);
    } else if behind != "" {
      var n := |behind| - 1;
      assert all[0] == s[0] && all[|all| - 1] == behind[n] && all[..|all| - 1] == before + s + behind[..n];
      TrimIs(before, s, behind[..n]);
    } else {
      assert all == s;
    }
  }

  lemma {:induction false} TrimLeaves(s: string) returns (before: string, behind: string)
    ensures AllSpace(before) && AllSpace(behind) && Bare(TrimSpace(s)) && s == before + TrimSpace(s) + behind
  {
    hide IsSpace;
    if s == "" {
      before, behind := "", "";
    } else if IsSpace(s[0]) {
      before, behind := TrimLeaves(s[1..]);
      before := [s[0]] + before;
      assert s == [s[0]] + s[1..];
    } else if IsSpace(s[|s| - 1]) {
      before, behind := TrimLeaves(s[..|s| - 1]);
      behind := behind + [s[|s| - 1]];
      assert s == s[..|s| - 1] + [s[|s| - 1]];
    } else {
      before, behind := "", "";
    }
  }

  lemma {:induction false} SplitOne(s: string, sep: char)
    requires sep !in s
    ensures SplitOn(s, sep) == [s]
  {
    if s != "" {
      SplitOne(s[1..], sep);
      assert s[0] in s && s == [s[0]] + s[1..];
    }
  }

  /** Text behind a separator is split on its own. */
  lemma {:induction false} SplitFirst(s: string, sep: char, rest: string)
    requires sep !in s
    ensures SplitOn(s + [sep] + rest, sep) == [s] + SplitOn(rest, sep)
  {
    var all := s + [sep] + rest;
    if s == "" {
      assert all[1..] == rest;
    } else {
      assert s[0] in s && all[1..] == s[1..] + [sep] + rest && s == [s[0]] + s[1..];
      SplitFirst(s[1..], sep, rest);
      assert ([s[1..]] + SplitOn(rest, sep))[1..] == SplitOn(rest, sep);
    }
  }

  /** Splitting undoes joining. */
  lemma {:induction false} JoinedSplits(parts: seq<string>, sep: char)
    requires parts != [] && forall i :: 0 <= i < |parts| ==> sep !in parts[i]
    ensures SplitOn(Joined(parts, sep), sep) == parts
  {
    if |parts| == 1 {
      SplitOne(parts[0], sep);
    } else {
      JoinedSplits(parts[1..], sep);
      SplitFirst(parts[0], sep, Joined(parts[1..], sep));
      hide SplitOn;
      assert parts == [parts[0]] + parts[1..];
    }
  }
}
