/** The pieces of the JavaScript host that the input shims rely on: numbers
    that may be NaN, `parseInt` on a decimal string, `String.split(" ")`, and
    the iteration count of a `for (let i = 0; i < n; i++)` loop. */
module Js {

  /** A JavaScript number as `parseInt` can produce it: an integer, or NaN
      when no digits were found. */
  datatype Num = NaN | Int(value: int)

  /* ---------------------------------------------------------------------- */
  /* Counted loops                                                          */
  /* ---------------------------------------------------------------------- */

  /** JavaScript's `i < n` for an integer `i`: every comparison with NaN is false. */
  predicate JsLess(i: int, n: Num) {
    n.Int? && i < n.value
  }

  /** How many times `for (let i = 0; i < n; i++)` runs its body: the loop
      test holds exactly for the counters `0 .. k-1`, so a NaN or a
      non-positive count gives no iteration at all. */
  function LoopCount(n: Num): (k: nat)
    ensures forall i: nat :: i < k <==> JsLess(i, n)
  {
    match n
    case NaN => 0
    case Int(v) => if v < 0 then 0 else v
  }

  /* ---------------------------------------------------------------------- */
  /* parseInt                                                               */
  /* ---------------------------------------------------------------------- */

  /** The whitespace `parseInt` skips before the number (a subset of the
      characters JavaScript treats as white space). */
  predicate IsSpace(c: char) {
    c == ' ' || c == '\t' || c == '\n' || c == '\r'
  }

  predicate IsDigit(c: char) {
    '0' <= c <= '9'
  }

  predicate AllDigits(s: string) {
    forall i :: 0 <= i < |s| ==> IsDigit(s[i])
  }

  function DigitValue(c: char): nat
    requires IsDigit(c)
  {
    c as int - '0' as int
  }

  /** The number a run of decimal digits denotes, most significant first. */
  function DecimalValue(ds: string): nat
    requires AllDigits(ds)
  {
    if |ds| == 0 then 0 else DecimalValue(ds[..|ds| - 1]) * 10 + DigitValue(ds[|ds| - 1])
  }

  /** Where `parseInt` is in the text: still skipping white space, just past
      a sign, or inside the run of digits. */
  datatype ScanMode = Leading | AfterSign(negative: bool) | InDigits(negative: bool)

  function Signed(negative: bool, m: nat): int {
    if negative then -(m as int) else m
  }

  /** `parseInt` as a left-to-right scan from position `i`, with `acc` the
      value of the digits read so far. */
  function Scan(s: string, i: nat, mode: ScanMode, acc: nat): Num
    requires i <= |s|
    decreases |s| - i
  {
    if i == |s| then
      (if mode.InDigits? then Int(Signed(mode.negative, acc)) else NaN)
    else
      var c := s[i];
      match mode
      case Leading =>
        if IsSpace(c) then Scan(s, i + 1, Leading, 0)
        else if c == '-' then Scan(s, i + 1, AfterSign(true), 0)
        else if c == '+' then Scan(s, i + 1, AfterSign(false), 0)
        else if IsDigit(c) then Scan(s, i + 1, InDigits(false), DigitValue(c))
        else NaN
      case AfterSign(negative) =>
        if IsDigit(c) then Scan(s, i + 1, InDigits(negative), DigitValue(c)) else NaN
      case InDigits(negative) =>
        if IsDigit(c) then Scan(s, i + 1, InDigits(negative), acc * 10 + DigitValue(c))
        else Int(Signed(negative, acc))
  }

  /** `parseInt(s)` with radix 10: skip leading white space, read an
      optional sign, then the longest run of digits; anything after the
      digits is ignored, and no digit at all gives NaN. */
  function ParseInt(s: string): Num {
    Scan(s, 0, Leading, 0)
  }

  /* ---------------------------------------------------------------------- */
  /* Canonical decimal rendering, the inverse of ParseInt                   */
  /* ---------------------------------------------------------------------- */

  function DigitChar(d: nat): (c: char)
    requires d < 10
    ensures IsDigit(c) && DigitValue(c) == d
  {
    ('0' as int + d) as char
  }

  /** Decimal digits of `n` with no leading zero. */
  function ShowNat(n: nat): (s: string)
    ensures |s| >= 1 && AllDigits(s)
    ensures |s| > 1 ==> s[0] != '0'
  {
    if n < 10 then [DigitChar(n)]
    else ShowNat(n / 10) + [DigitChar(n % 10)]
  }

  /** The decimal text of `i` as the game server writes it. */
  function ShowInt(i: int): (s: string)
    ensures ' ' !in s
  {
    if i < 0 then "-" + ShowNat(-i) else ShowNat(i)
  }

  lemma {:induction false} DecimalValueShowNat(n: nat)
    ensures DecimalValue(ShowNat(n)) == n
  {
    if n >= 10 {
      var ds := ShowNat(n);
      assert ds[..|ds| - 1] == ShowNat(n / 10);
      DecimalValueShowNat(n / 10);
    }
  }

  /** Inside a run of digits the scan keeps the value of the digits read so
      far, and the first non-digit (or the end of the text) ends the number. */
  lemma {:induction false} ScanDigitRun(s: string, start: nat, i: nat, j: nat, negative: bool)
    requires start < i <= j <= |s|
    requires forall k :: start <= k < j ==> IsDigit(s[k])
    requires j == |s| || !IsDigit(s[j])
    ensures AllDigits(s[start..i]) && AllDigits(s[start..j])
    ensures Scan(s, i, InDigits(negative), DecimalValue(s[start..i]))
         == Int(Signed(negative, DecimalValue(s[start..j])))
    decreases j - i
  {
    assert AllDigits(s[start..i]);
    assert AllDigits(s[start..j]);
    if i < j {
      var run := s[start..i + 1];
      assert AllDigits(run);
      assert run[..|run| - 1] == s[start..i];
      assert DecimalValue(run) == DecimalValue(s[start..i]) * 10 + DigitValue(s[i]);
      ScanDigitRun(s, start, i + 1, j, negative);
    }
  }

  /** The digits of a rendered natural number, then a sign and text that
      does not continue the digits, scan back to the signed number. */
  lemma ScanShowNat(s: string, start: nat, n: nat, negative: bool)
    requires start + |ShowNat(n)| <= |s|
    requires s[start..start + |ShowNat(n)|] == ShowNat(n)
    requires start + |ShowNat(n)| == |s| || !IsDigit(s[start + |ShowNat(n)|])
    ensures start < |s| && IsDigit(s[start])
    ensures Scan(s, start + 1, InDigits(negative), DigitValue(s[start])) == Int(Signed(negative, n))
  {
    var ds := ShowNat(n);
    var j := start + |ds|;
    assert s[start] == ds[0];
    forall k | start <= k < j
      ensures IsDigit(s[k])
    {
      assert s[k] == ds[k - start];
    }
    var first := s[start..start + 1];
    assert first[..0] == [];
    assert DecimalValue(first) == DigitValue(s[start]);
    ScanDigitRun(s, start, start + 1, j, negative);
    DecimalValueShowNat(n);
  }

  lemma ParseIntShowNonNegative(i: int, tail: string)
    requires i >= 0
    requires |tail| == 0 || !IsDigit(tail[0])
    ensures ParseInt(ShowInt(i) + tail) == Int(i)
  {
    var ds := ShowNat(i);
    var text := ds + tail;
    assert text[0..|ds|] == ds;
    if |tail| > 0 {
      assert text[|ds|] == tail[0];
    }
    ScanShowNat(text, 0, i, false);
    assert !IsSpace(text[0]) && text[0] != '-' && text[0] != '+';
  }

  lemma ParseIntShowNegative(i: int, tail: string)
    requires i < 0
    requires |tail| == 0 || !IsDigit(tail[0])
    ensures ParseInt(ShowInt(i) + tail) == Int(i)
  {
    var ds := ShowNat(-i);
    var text := "-" + ds + tail;
    assert ShowInt(i) + tail == text;
    assert text[1..1 + |ds|] == ds;
    if |tail| > 0 {
      assert text[1 + |ds|] == tail[0];
    }
    ScanShowNat(text, 1, -i, true);
    assert text[0] == '-';
    assert Scan(text, 0, Leading, 0) == Scan(text, 1, AfterSign(true), 0);
    assert Scan(text, 1, AfterSign(true), 0) == Scan(text, 2, InDigits(true), DigitValue(text[1]));
  }

  /** Round trip: `parseInt` reads back exactly the integer that was
      rendered, and ignores any text after it that does not start with a
      digit (for example the rest of a line). */
  lemma ParseIntShowInt(i: int, tail: string)
    requires |tail| == 0 || !IsDigit(tail[0])
    ensures ParseInt(ShowInt(i) + tail) == Int(i)
  {
    if i < 0 {
      ParseIntShowNegative(i, tail);
    } else {
      ParseIntShowNonNegative(i, tail);
    }
  }

  /** A whole line holding one rendered integer parses back to it. */
  lemma ParseIntShown(i: int)
    ensures ParseInt(ShowInt(i)) == Int(i)
  {
    ParseIntShowInt(i, "");
    assert ShowInt(i) + "" == ShowInt(i);
  }

  /** A number as a token: its decimal text, or `NaN` for NaN (a token
      without digits, which `parseInt` reads back as NaN). */
  function ShowNum(n: Num): (s: string)
    ensures ' ' !in s
  {
    match n
    case NaN => "NaN"
    case Int(v) => ShowInt(v)
  }

  /** A token holding a rendered number parses back to that number. */
  lemma ParseIntShowNum(n: Num)
    ensures ParseInt(ShowNum(n)) == n
  {
    match n
    case NaN =>
    case Int(v) => ParseIntShown(v);
  }

  /** The scan does not depend on the text before its position. */
  lemma {:induction false} ScanShift(p: string, s: string, i: nat, mode: ScanMode, acc: nat)
    requires i <= |s|
    ensures Scan(p + s, |p| + i, mode, acc) == Scan(s, i, mode, acc)
    decreases |s| - i
  {
    if i < |s| {
      var c := s[i];
      assert (p + s)[|p| + i] == c;
      match mode
      case Leading =>
        ScanShift(p, s, i + 1, Leading, 0);
        ScanShift(p, s, i + 1, AfterSign(true), 0);
        ScanShift(p, s, i + 1, AfterSign(false), 0);
        if IsDigit(c) {
          ScanShift(p, s, i + 1, InDigits(false), DigitValue(c));
        }
      case AfterSign(negative) =>
        if IsDigit(c) {
          ScanShift(p, s, i + 1, InDigits(negative), DigitValue(c));
        }
      case InDigits(negative) =>
        if IsDigit(c) {
          ScanShift(p, s, i + 1, InDigits(negative), acc * 10 + DigitValue(c));
        }
    }
  }

  /** White space before the number is skipped. */
  lemma {:induction false} ParseIntSkipsLeadingSpace(spaces: string, s: string)
    requires forall k :: 0 <= k < |spaces| ==> IsSpace(spaces[k])
    ensures ParseInt(spaces + s) == ParseInt(s)
  {
    var text := spaces + s;
    var i := 0;
    while i < |spaces|
      invariant i <= |spaces|
      invariant Scan(text, 0, Leading, 0) == Scan(text, i, Leading, 0)
    {
      assert text[i] == spaces[i];
      i := i + 1;
    }
    ScanShift(spaces, s, 0, Leading, 0);
  }

  /** Before the first digit, a scan that meets no digit ends in NaN. */
  lemma {:induction false} ScanNoDigit(s: string, i: nat, mode: ScanMode)
    requires i <= |s| && !mode.InDigits?
    requires forall k :: i <= k < |s| ==> !IsDigit(s[k])
    ensures Scan(s, i, mode, 0) == NaN
    decreases |s| - i
  {
    if i < |s| {
      match mode
      case Leading =>
        ScanNoDigit(s, i + 1, Leading);
        ScanNoDigit(s, i + 1, AfterSign(true));
        ScanNoDigit(s, i + 1, AfterSign(false));
      case AfterSign(negative) =>
    }
  }

  /** A line without any decimal digit parses to NaN, whatever else it
      holds. */
  lemma ParseIntNoDigit(s: string)
    requires forall k :: 0 <= k < |s| ==> !IsDigit(s[k])
    ensures ParseInt(s) == NaN
  {
    ScanNoDigit(s, 0, Leading);
  }

  /** A few lines as `parseInt` reads them: white space and a sign before
      the digits, text after them, and no digit at all. */
  lemma ParseIntExamples()
    ensures ParseInt(" -7 ") == Int(-7)
    ensures ParseInt("+12ab") == Int(12)
    ensures ParseInt("") == NaN
    ensures ParseInt("-") == NaN
    ensures ParseInt("x1") == NaN
  {
  }

  /* ---------------------------------------------------------------------- */
  /* split(" ")                                                              */
  /* ---------------------------------------------------------------------- */

  /** Tokens joined back with single spaces: the inverse of `Split`. */
  function Join(tokens: seq<string>): string
    requires |tokens| >= 1
  {
    if |tokens| == 1 then tokens[0] else tokens[0] + " " + Join(tokens[1..])
  }

  predicate NoSpaces(tokens: seq<string>) {
    forall k :: 0 <= k < |tokens| ==> ' ' !in tokens[k]
  }

  /** `s.split(" ")`: cut at every single space, keeping empty tokens
      (two spaces in a row, a leading or trailing space, the empty line).
      Gluing the tokens back with spaces gives `s` again. */
  function Split(s: string): (tokens: seq<string>)
    ensures |tokens| >= 1
  {
    if |s| == 0 then [""]
    else
      var more := Split(s[1..]);
      if s[0] == ' ' then [""] + more
      else [[s[0]] + more[0]] + more[1..]
  }

  /** The tokens of `s.split(" ")` contain no space, and gluing them back
      with single spaces gives `s` again. */
  lemma {:induction false} SplitJoinsBack(s: string)
    ensures NoSpaces(Split(s))
    ensures Join(Split(s)) == s
  {
    if |s| > 0 {
      SplitJoinsBack(s[1..]);
      var more := Split(s[1..]);
      if s[0] == ' ' {
        assert s == " " + s[1..];
      } else {
        var tokens := Split(s);
        assert tokens[1..] == more[1..];
        assert s == [s[0]] + s[1..];
      }
    }
  }

  lemma {:induction false} SplitNoSpace(a: string)
    requires ' ' !in a
    ensures Split(a) == [a]
  {
    if |a| > 0 {
      SplitNoSpace(a[1..]);
      assert [a[0]] + a[1..] == a;
    }
  }

  lemma {:induction false} SplitTokenThenSpace(a: string, s: string)
    requires ' ' !in a
    ensures Split(a + " " + s) == [a] + Split(s)
  {
    if |a| == 0 {
      assert a + " " + s == " " + s;
      assert (" " + s)[1..] == s;
    } else {
      var line := a + " " + s;
      assert line[1..] == a[1..] + " " + s;
      SplitTokenThenSpace(a[1..], s);
      assert [a[0]] + a[1..] == a;
    }
  }

  /** The other half of the round trip: tokens without spaces, joined with
      single spaces, split back into the same tokens. */
  lemma {:induction false} SplitJoin(tokens: seq<string>)
    requires |tokens| >= 1 && NoSpaces(tokens)
    ensures Split(Join(tokens)) == tokens
  {
    if |tokens| == 1 {
      SplitNoSpace(tokens[0]);
    } else {
      SplitJoin(tokens[1..]);
      SplitTokenThenSpace(tokens[0], Join(tokens[1..]));
    }
  }

  /** `parseInt(inputs[k])`: a token past the end of the line is
      `undefined`, which `parseInt` turns into NaN. */
  function IntAt(inputs: seq<string>, k: nat): Num {
    if k < |inputs| then ParseInt(inputs[k]) else NaN
  }

  /** A line of numbers as the game server writes it, one token per number. */
  function ShowNums(xs: seq<Num>): string
    requires |xs| >= 1
  {
    Join(seq(|xs|, k requires 0 <= k < |xs| => ShowNum(xs[k])))
  }

  /** Entry `k` of a list of numbers, as `parseInt` gives it for the `k`-th
      token of a line: NaN past the end. */
  function NumAt(xs: seq<Num>, k: nat): Num {
    if k < |xs| then xs[k] else NaN
  }

  /** Splitting a rendered line of numbers and parsing its token `k` gives
      back `xs[k]`; a position past the last number gives NaN. */
  lemma IntAtShowNums(xs: seq<Num>, k: nat)
    requires |xs| >= 1
    ensures IntAt(Split(ShowNums(xs)), k) == NumAt(xs, k)
  {
    var tokens := seq(|xs|, j requires 0 <= j < |xs| => ShowNum(xs[j]));
    SplitJoin(tokens);
    if k < |xs| {
      ParseIntShowNum(xs[k]);
    }
  }

  /** A line of two or more numbers is its first token, a space, and the
      line of the rest. */
  lemma ShowNumsCons(xs: seq<Num>)
    requires |xs| >= 2
    ensures ShowNums(xs) == ShowNum(xs[0]) + " " + ShowNums(xs[1..])
  {
    var tokens := seq(|xs|, k requires 0 <= k < |xs| => ShowNum(xs[k]));
    var rest := seq(|xs| - 1, k requires 0 <= k < |xs| - 1 => ShowNum(xs[1..][k]));
    assert tokens[1..] == rest;
  }

  lemma ShowNumsPair(a: Num, b: Num)
    ensures ShowNums([a, b]) == ShowNum(a) + " " + ShowNum(b)
  {
    ShowNumsCons([a, b]);
    assert [a, b][1..] == [b];
  }

  lemma ShowNumsTriple(a: Num, b: Num, c: Num)
    ensures ShowNums([a, b, c]) == ShowNum(a) + " " + (ShowNum(b) + " " + ShowNum(c))
  {
    ShowNumsCons([a, b, c]);
    assert [a, b, c][1..] == [b, c];
    ShowNumsPair(b, c);
  }
}
