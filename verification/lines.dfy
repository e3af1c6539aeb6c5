/** Standard input as the shims see it: the lines of the input, read one at
    a time with `readline()`. A cursor is the position of the next unread
    line; a parse step starts at a cursor and returns what it built together
    with the cursor after the last line it read. */
module Lines {
  import opened Js

  /** The outcome of reading from the input: a value and the position of the
      first line left unread, or the end of input reached before the value
      was complete (the host's `readline()` then fails and the process
      ends). */
  datatype Read<T> = Got(value: T, next: nat) | EndOfInput

  /** `readline()` at position `at`: that line, if there is one. */
  function ReadLine(lines: seq<string>, at: nat): (r: Read<string>)
    requires at <= |lines|
    ensures r.Got? <==> at < |lines|
    ensures r.Got? ==> r.value == lines[at] && r.next == at + 1
  {
    if at < |lines| then Got(lines[at], at + 1) else EndOfInput
  }

  /** `for (let i = 0; i < n; i++) list.push(parse(readline()))`, starting
      from an empty list: reads exactly `n` lines, one per entry, and keeps
      the entries in input order. */
  function ReadEach<T>(lines: seq<string>, at: nat, n: nat, parse: string -> T): (r: Read<seq<T>>)
    requires at <= |lines|
    ensures r.Got? <==> at + n <= |lines|
    ensures r.Got? ==> |r.value| == n && r.next == at + n
    ensures r.Got? ==> forall i :: 0 <= i < n ==> r.value[i] == parse(lines[at + i])
    decreases n
  {
    if n == 0 then Got([], at)
    else
      match ReadLine(lines, at)
      case EndOfInput => EndOfInput
      case Got(line, next) =>
        match ReadEach(lines, next, n - 1, parse)
        case EndOfInput => EndOfInput
        case Got(entries, end) => Got([parse(line)] + entries, end)
  }

  /** A count read from one line together with the entries read after it. */
  datatype Counted<T> = Counted(count: Num, entries: seq<T>)

  /** A count-prefixed block: `count = parseInt(readline())`, then one entry
      per line for as many lines as the loop `i < count` runs. */
  function ReadCounted<T>(lines: seq<string>, at: nat, parse: string -> T): (r: Read<Counted<T>>)
    requires at <= |lines|
    ensures r.Got? <==> at < |lines| && at + 1 + LoopCount(ParseInt(lines[at])) <= |lines|
    ensures r.Got? ==>
      && r.value.count == ParseInt(lines[at])
      && |r.value.entries| == LoopCount(r.value.count)
      && (forall i :: 0 <= i < |r.value.entries| ==> r.value.entries[i] == parse(lines[at + 1 + i]))
      && r.next == at + 1 + |r.value.entries|
  {
    match ReadLine(lines, at)
    case EndOfInput => EndOfInput
    case Got(countLine, next) =>
      var count := ParseInt(countLine);
      match ReadEach(lines, next, LoopCount(count), parse)
      case EndOfInput => EndOfInput
      case Got(entries, end) => Got(Counted(count, entries), end)
  }

  /* ---------------------------------------------------------------------- */
  /* Windows: the lines a writer put at a given position                    */
  /* ---------------------------------------------------------------------- */

  /** The input holds the lines `shown` starting at position `at`. */
  predicate Window(lines: seq<string>, at: nat, shown: seq<string>)
    decreases |shown|
  {
    if |shown| == 0 then at <= |lines|
    else at < |lines| && lines[at] == shown[0] && Window(lines, at + 1, shown[1..])
  }

  lemma {:induction false} WindowAt(lines: seq<string>, at: nat, shown: seq<string>, i: nat)
    requires Window(lines, at, shown) && i < |shown|
    ensures at + |shown| <= |lines|
    ensures lines[at + i] == shown[i]
    decreases |shown|
  {
    if i > 0 {
      WindowAt(lines, at + 1, shown[1..], i - 1);
    } else if |shown| > 1 {
      WindowAt(lines, at + 1, shown[1..], 0);
    }
  }

  lemma {:induction false} WindowFits(lines: seq<string>, at: nat, shown: seq<string>)
    requires Window(lines, at, shown)
    ensures at + |shown| <= |lines|
  {
    if |shown| > 0 {
      WindowAt(lines, at, shown, 0);
    }
  }

  /** A window on two consecutive pieces is a window on each of them, the
      second starting at position `mid`, right after the first. */
  lemma {:induction false} WindowConcat(lines: seq<string>, at: nat, a: seq<string>, b: seq<string>, mid: nat)
    requires mid == at + |a|
    ensures Window(lines, at, a + b) <==> Window(lines, at, a) && Window(lines, mid, b)
    decreases |a|
  {
    if |a| == 0 {
      assert a + b == b;
      if Window(lines, at, b) && |b| > 0 {
        WindowAt(lines, at, b, 0);
      }
    } else {
      assert (a + b)[0] == a[0];
      assert (a + b)[1..] == a[1..] + b;
      WindowConcat(lines, at + 1, a[1..], b, mid);
    }
  }

  /** The lines `shown`, with any lines before and after them, hold `shown`
      right after the lines before. */
  lemma {:induction false} WindowIn(before: seq<string>, shown: seq<string>, after: seq<string>)
    ensures Window(before + shown + after, |before|, shown)
    decreases |shown|
  {
    if |shown| > 0 {
      var lines := before + shown + after;
      assert lines == (before + [shown[0]]) + shown[1..] + after;
      WindowIn(before + [shown[0]], shown[1..], after);
    }
  }

  lemma WindowPrefix(a: seq<string>, b: seq<string>)
    ensures Window(a + b, 0, a)
  {
    WindowIn([], a, b);
    assert [] + a + b == a + b;
  }

  lemma WindowSuffix(a: seq<string>, b: seq<string>)
    ensures Window(a + b, |a|, b)
  {
    WindowIn(a, b, []);
    assert a + b + [] == a + b;
  }

  lemma ConsTail<T>(xs: seq<T>)
    requires |xs| > 0
    ensures [xs[0]] + xs[1..] == xs
  {
  }

  /** Where the parts of a count-prefixed block come from: the count from
      the line at `at`, entry `i` from line `at + 1 + i`. */
  lemma ReadCountedLayout<T>(lines: seq<string>, at: nat, parse: string -> T,
                             count: Num, entries: seq<T>, next: nat)
    requires at <= |lines| && ReadCounted(lines, at, parse) == Got(Counted(count, entries), next)
    ensures at < |lines| && count == ParseInt(lines[at])
    ensures |entries| == LoopCount(count)
    ensures forall i :: 0 <= i < |entries| ==> entries[i] == parse(lines[at + 1 + i])
    ensures next == at + 1 + |entries|
  {
  }

  /** Round trip of a count-prefixed block: the count written as an
      integer, then one line per entry that parses back to that entry, reads
      back as exactly those entries, and the cursor stops right after them. */
  lemma ReadCountedShown<T>(lines: seq<string>, at: nat, entries: seq<T>, parse: string -> T)
    requires at + 1 + |entries| <= |lines|
    requires lines[at] == ShowInt(|entries|)
    requires forall i :: 0 <= i < |entries| ==> parse(lines[at + 1 + i]) == entries[i]
    ensures ReadCounted(lines, at, parse) == Got(Counted(Int(|entries|), entries), at + 1 + |entries|)
  {
    ParseIntShown(|entries|);
    var r := ReadCounted(lines, at, parse);
    assert r.value.entries == entries;
  }
}
