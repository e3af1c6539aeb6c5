/** The input shim of the graph/gateway game (CodinGame.js): a one-time
    block describing the network (the sizes, the links, the exit gateways),
    then one line per turn giving the node the Skynet agent is on. */
module GraphShim {
  import opened Js
  import opened Lines

  /* ---------------------------------------------------------------------- */
  /* Records                                                                */
  /* ---------------------------------------------------------------------- */

  /** A link between nodes `n1` and `n2` (the pair `[n1, n2]`). */
  datatype Link = Link(n1: Num, n2: Num)

  /** The init record handed to the game logic once, before the first turn. */
  datatype InitData = InitData(
    nodeCount: Num, linkCount: Num, exitCount: Num,
    links: seq<Link>, exits: seq<Num>)

  /** The turn record: the node the Skynet agent is on this turn. */
  datatype TurnData = TurnData(skynetNode: Num)

  /* ---------------------------------------------------------------------- */
  /* Parsing                                                                */
  /* ---------------------------------------------------------------------- */

  /** An `n1 n2` line: tokens 0 and 1. */
  function ParseLink(line: string): Link {
    var inputs := Split(line);
    Link(IntAt(inputs, 0), IntAt(inputs, 1))
  }

  /** The counts line `nodeCount linkCount exitCount`: tokens 0, 1 and 2. */
  function LinkCountOf(first: string): Num {
    IntAt(Split(first), 1)
  }

  function ExitCountOf(first: string): Num {
    IntAt(Split(first), 2)
  }

  /** The init block: the counts line, then one line per link, then one line
      per exit gateway, each exit line read as one whole integer. */
  function ReadInitData(lines: seq<string>): (r: Read<InitData>)
    ensures r.Got? <==>
      && |lines| >= 1
      && 1 + LoopCount(LinkCountOf(lines[0])) + LoopCount(ExitCountOf(lines[0])) <= |lines|
    ensures r.Got? ==>
      var l := LoopCount(LinkCountOf(lines[0]));
      var e := LoopCount(ExitCountOf(lines[0]));
      && r.value.nodeCount == IntAt(Split(lines[0]), 0)
      && r.value.linkCount == LinkCountOf(lines[0])
      && r.value.exitCount == ExitCountOf(lines[0])
      && |r.value.links| == l
      && (forall i :: 0 <= i < l ==> r.value.links[i] == ParseLink(lines[1 + i]))
      && |r.value.exits| == e
      && (forall i :: 0 <= i < e ==> r.value.exits[i] == ParseInt(lines[1 + l + i]))
      && r.next == 1 + l + e
  {
    match ReadLine(lines, 0)
    case EndOfInput => EndOfInput
    case Got(first, afterFirst) =>
      var inputs := Split(first);
      var nodeCount := IntAt(inputs, 0);
      var linkCount := IntAt(inputs, 1);
      var exitCount := IntAt(inputs, 2);
      match ReadEach(lines, afterFirst, LoopCount(linkCount), ParseLink)
      case EndOfInput => EndOfInput
      case Got(links, afterLinks) =>
        match ReadEach(lines, afterLinks, LoopCount(exitCount), ParseInt)
        case EndOfInput => EndOfInput
        case Got(exits, next) => Got(InitData(nodeCount, linkCount, exitCount, links, exits), next)
  }

  /** `readLinesIntoTurnData`: one line, read as one integer. */
  function ReadTurnData(lines: seq<string>, at: nat): (r: Read<TurnData>)
    requires at <= |lines|
    ensures r.Got? <==> at < |lines|
    ensures r.Got? ==> r.value.skynetNode == ParseInt(lines[at]) && r.next == at + 1
  {
    match ReadLine(lines, at)
    case EndOfInput => EndOfInput
    case Got(line, next) => Got(TurnData(ParseInt(line)), next)
  }

  /** The turn records delivered to the game logic from position `at`: one
      per remaining line, in order, until the input runs out. */
  function Turns(lines: seq<string>, at: nat): (turns: seq<TurnData>)
    requires at <= |lines|
    ensures |turns| == |lines| - at
    ensures forall i :: 0 <= i < |turns| ==> turns[i].skynetNode == ParseInt(lines[at + i])
    decreases |lines| - at
  {
    match ReadTurnData(lines, at)
    case EndOfInput => []
    case Got(t, next) => [t] + Turns(lines, next)
  }

  /** Outcome of a whole run of the shim. */
  datatype Run = EndedDuringInit | Ran(init: InitData, turns: seq<TurnData>)

  /** The shim on a whole input: the init block once, then turns until the
      input runs out. */
  function RunShim(lines: seq<string>): (run: Run)
    ensures run.Ran? <==>
      && |lines| >= 1
      && 1 + LoopCount(LinkCountOf(lines[0])) + LoopCount(ExitCountOf(lines[0])) <= |lines|
    ensures run.Ran? ==> 1 + |run.init.links| + |run.init.exits| + |run.turns| == |lines|
  {
    match ReadInitData(lines)
    case EndOfInput => EndedDuringInit
    case Got(init, next) => Ran(init, Turns(lines, next))
  }

  /* ---------------------------------------------------------------------- */
  /* Rendering: the input as the game server writes it                      */
  /* ---------------------------------------------------------------------- */

  /** An init record the server could have sent: the counts say how many
      link and exit lines follow. */
  predicate WellFormedInit(d: InitData) {
    d.linkCount == Int(|d.links|) && d.exitCount == Int(|d.exits|)
  }

  function ShowLink(l: Link): string {
    ShowNums([l.n1, l.n2])
  }

  /** The counts line. */
  function ShowCounts(d: InitData): string {
    ShowNums([d.nodeCount, d.linkCount, d.exitCount])
  }

  function ShowLinks(links: seq<Link>): seq<string> {
    seq(|links|, i requires 0 <= i < |links| => ShowLink(links[i]))
  }

  function ShowExits(exits: seq<Num>): seq<string> {
    seq(|exits|, i requires 0 <= i < |exits| => ShowNum(exits[i]))
  }

  function ShowInitData(d: InitData): seq<string> {
    [ShowCounts(d)] + (ShowLinks(d.links) + ShowExits(d.exits))
  }

  function ShowTurns(ts: seq<TurnData>): seq<string> {
    seq(|ts|, i requires 0 <= i < |ts| => ShowNum(ts[i].skynetNode))
  }

  /* ---------------------------------------------------------------------- */
  /* Properties                                                             */
  /* ---------------------------------------------------------------------- */

  /** `n1` and `n2` are tokens 0 and 1 of the line, whatever the tokens
      hold; further tokens are ignored and a missing token gives NaN. */
  lemma ParseLinkTokens(ts: seq<string>)
    requires |ts| >= 1 && NoSpaces(ts)
    ensures ParseLink(Join(ts)) == Link(IntAt(ts, 0), IntAt(ts, 1))
  {
    SplitJoin(ts);
  }

  /** A link line as the server writes it parses back to that link. */
  lemma ParseLinkShown(l: Link)
    ensures ParseLink(ShowLink(l)) == l
  {
    var xs := [l.n1, l.n2];
    IntAtShowNums(xs, 0);
    IntAtShowNums(xs, 1);
  }

  /** The init block read stage by stage: the counts line, the link lines,
      the exit lines, each starting where the previous stage stopped. */
  lemma ReadInitDataStages(lines: seq<string>, d: InitData, exitsAt: nat, next: nat)
    requires |lines| >= 1
    requires IntAt(Split(lines[0]), 0) == d.nodeCount
    requires IntAt(Split(lines[0]), 1) == d.linkCount
    requires IntAt(Split(lines[0]), 2) == d.exitCount
    requires ReadEach(lines, 1, LoopCount(d.linkCount), ParseLink) == Got(d.links, exitsAt)
    requires ReadEach(lines, exitsAt, LoopCount(d.exitCount), ParseInt) == Got(d.exits, next)
    ensures ReadInitData(lines) == Got(d, next)
  {
  }

  /** Link lines as the server writes them read back as the links. */
  lemma LinksShown(links: seq<Link>, lines: seq<string>, at: nat, n: nat, next: nat)
    requires Window(lines, at, ShowLinks(links)) && n == |links| && next == at + n
    ensures ReadEach(lines, at, n, ParseLink) == Got(links, next)
  {
    var shown := ShowLinks(links);
    WindowFits(lines, at, shown);
    var r := ReadEach(lines, at, n, ParseLink);
    forall i | 0 <= i < n
      ensures r.value[i] == links[i]
    {
      WindowAt(lines, at, shown, i);
      ParseLinkShown(links[i]);
    }
    assert r.value == links;
  }

  /** Exit lines as the server writes them read back as the exits. */
  lemma ExitsShown(exits: seq<Num>, lines: seq<string>, at: nat, n: nat, next: nat)
    requires Window(lines, at, ShowExits(exits)) && n == |exits| && next == at + n
    ensures ReadEach(lines, at, n, ParseInt) == Got(exits, next)
  {
    var shown := ShowExits(exits);
    WindowFits(lines, at, shown);
    var r := ReadEach(lines, at, n, ParseInt);
    forall i | 0 <= i < n
      ensures r.value[i] == exits[i]
    {
      WindowAt(lines, at, shown, i);
      ParseIntShowNum(exits[i]);
    }
    assert r.value == exits;
  }

  /** Round trip of the init block: reading the lines the server writes
      for a record gives that record back and stops right after them. */
  lemma ReadInitDataShown(d: InitData, lines: seq<string>, next: nat)
    requires WellFormedInit(d)
    requires Window(lines, 0, ShowInitData(d)) && next == 1 + |d.links| + |d.exits|
    ensures ReadInitData(lines) == Got(d, next)
  {
    var linkLines := ShowLinks(d.links);
    var exitLines := ShowExits(d.exits);
    var exitsAt := 1 + |d.links|;
    WindowConcat(lines, 0, [ShowCounts(d)], linkLines + exitLines, 1);
    WindowConcat(lines, 1, linkLines, exitLines, exitsAt);
    WindowAt(lines, 0, [ShowCounts(d)], 0);
    var counts := [d.nodeCount, d.linkCount, d.exitCount];
    IntAtShowNums(counts, 0);
    IntAtShowNums(counts, 1);
    IntAtShowNums(counts, 2);
    LinksShown(d.links, lines, 1, LoopCount(d.linkCount), exitsAt);
    ExitsShown(d.exits, lines, exitsAt, LoopCount(d.exitCount), next);
    ReadInitDataStages(lines, d, exitsAt, next);
  }

  /** Round trip of the turns: one line per turn record, up to the end of
      the input, is read back as exactly that list of records, in order. */
  lemma TurnsShown(ts: seq<TurnData>, lines: seq<string>, at: nat)
    requires Window(lines, at, ShowTurns(ts)) && at + |ts| == |lines|
    ensures Turns(lines, at) == ts
  {
    var shown := ShowTurns(ts);
    var r := Turns(lines, at);
    forall i | 0 <= i < |ts|
      ensures r[i] == ts[i]
    {
      WindowAt(lines, at, shown, i);
      ParseIntShowNum(ts[i].skynetNode);
    }
  }

  /** End to end: the shim on the server's lines for an init record and a
      list of turns hands exactly those records to the game logic. */
  lemma RunShimShown(d: InitData, ts: seq<TurnData>)
    requires WellFormedInit(d)
    ensures RunShim(ShowInitData(d) + ShowTurns(ts)) == Ran(d, ts)
  {
    var init := ShowInitData(d);
    var turns := ShowTurns(ts);
    var lines := init + turns;
    var start := |init|;
    WindowPrefix(init, turns);
    WindowSuffix(init, turns);
    ReadInitDataShown(d, lines, start);
    TurnsShown(ts, lines, start);
  }

  /** A counts line with fewer than three tokens leaves the missing counts
      NaN, and a NaN count reads no line: with only the node count on the
      first line, no link or exit line is read and the turns start on the
      second line. */
  lemma ShortCountsLine(lines: seq<string>)
    requires |lines| >= 1 && |Split(lines[0])| < 2
    ensures ReadInitData(lines) == Got(InitData(IntAt(Split(lines[0]), 0), NaN, NaN, [], []), 1)
  {
    var r := ReadInitData(lines);
    assert |r.value.links| == 0 && |r.value.exits| == 0;
  }

  /** Worked example: a network of four nodes, four links and two exit
      gateways, then one turn with the agent on node 0. */
  lemma Example()
    ensures RunShim(["4 4 2", "0 1", "0 2", "1 3", "2 3", "1", "3", "0"])
         == Ran(InitData(Int(4), Int(4), Int(2),
                         [Link(Int(0), Int(1)), Link(Int(0), Int(2)), Link(Int(1), Int(3)), Link(Int(2), Int(3))],
                         [Int(1), Int(3)]),
                [TurnData(Int(0))])
  {
    var d := InitData(Int(4), Int(4), Int(2),
                      [Link(Int(0), Int(1)), Link(Int(0), Int(2)), Link(Int(1), Int(3)), Link(Int(2), Int(3))],
                      [Int(1), Int(3)]);
    var ts := [TurnData(Int(0))];
    ShowNumsTriple(Int(4), Int(4), Int(2));
    ShowNumsPair(Int(0), Int(1));
    ShowNumsPair(Int(0), Int(2));
    ShowNumsPair(Int(1), Int(3));
    ShowNumsPair(Int(2), Int(3));
    var lines := ["4 4 2", "0 1", "0 2", "1 3", "2 3", "1", "3", "0"];
    assert ShowCounts(d) == "4 4 2";
    assert ShowLink(d.links[0]) == "0 1";
    assert ShowLink(d.links[1]) == "0 2";
    assert ShowLink(d.links[2]) == "1 3";
    assert ShowLink(d.links[3]) == "2 3";
    assert ShowLinks(d.links) == ["0 1", "0 2", "1 3", "2 3"];
    assert ShowExits(d.exits) == ["1", "3"];
    assert ShowTurns(ts) == ["0"];
    assert ShowInitData(d) + ShowTurns(ts) == lines;
    RunShimShown(d, ts);
  }
}
