/** The input shim of the mines/economy game (CodingGame.js): a one-time
    block of mine spots, then one block per turn with the money, the twelve
    terrain rows, the buildings and the units. */
module MinesShim {
  import opened Js
  import opened Lines

  /* ---------------------------------------------------------------------- */
  /* Records                                                                */
  /* ---------------------------------------------------------------------- */

  datatype MineSpot = MineSpot(x: Num, y: Num)

  /** The init record handed to the game logic once, before the first turn. */
  datatype InitData = InitData(numberMineSpots: Num, mines: seq<MineSpot>)

  datatype Building = Building(owner: Num, buildingType: Num, x: Num, y: Num)

  datatype Unit = Unit(owner: Num, unitId: Num, level: Num, x: Num, y: Num)

  /** The turn record handed to the game logic once per turn. */
  datatype GameData = GameData(
    gold: Num, income: Num, opponentGold: Num, opponentIncome: Num,
    terrain: seq<string>,
    buildingCount: Num, buildings: seq<Building>,
    unitCount: Num, units: seq<Unit>)

  /** The map always has this many rows, each read as one line. */
  const TerrainRows: nat := 12

  /** Lines of a turn before the building count: four money lines and the terrain. */
  const BuildingCountLine: nat := 4 + TerrainRows

  /* ---------------------------------------------------------------------- */
  /* One line each                                                          */
  /* ---------------------------------------------------------------------- */

  /** An `x y` line: tokens 0 and 1. */
  function ParseMineSpot(line: string): MineSpot {
    var inputs := Split(line);
    MineSpot(IntAt(inputs, 0), IntAt(inputs, 1))
  }

  /** An `owner buildingType x y` line: tokens 0 to 3. */
  function ParseBuilding(line: string): Building {
    var inputs := Split(line);
    Building(IntAt(inputs, 0), IntAt(inputs, 1), IntAt(inputs, 2), IntAt(inputs, 3))
  }

  /** An `owner unitId level x y` line: tokens 0 to 4. */
  function ParseUnit(line: string): Unit {
    var inputs := Split(line);
    Unit(IntAt(inputs, 0), IntAt(inputs, 1), IntAt(inputs, 2), IntAt(inputs, 3), IntAt(inputs, 4))
  }

  /** A terrain row is kept as it was read, neither split nor parsed. */
  function Verbatim(line: string): string {
    line
  }

  /* ---------------------------------------------------------------------- */
  /* The init block                                                         */
  /* ---------------------------------------------------------------------- */

  /** The init block at the start of the input: the mine-spot count, then
      one `x y` line per spot. A count that is NaN or not positive reads no
      spot line at all. */
  function ReadInitData(lines: seq<string>): (r: Read<InitData>)
    ensures r.Got? <==> |lines| >= 1 && 1 + LoopCount(ParseInt(lines[0])) <= |lines|
    ensures r.Got? ==>
      var n := LoopCount(ParseInt(lines[0]));
      && r.value.numberMineSpots == ParseInt(lines[0])
      && |r.value.mines| == n
      && (forall i :: 0 <= i < n ==> r.value.mines[i] == ParseMineSpot(lines[1 + i]))
      && r.next == 1 + n
  {
    match ReadCounted(lines, 0, ParseMineSpot)
    case EndOfInput => EndOfInput
    case Got(spots, next) => Got(InitData(spots.count, spots.entries), next)
  }

  /* ---------------------------------------------------------------------- */
  /* One turn                                                               */
  /* ---------------------------------------------------------------------- */

  /** The input holds a whole turn from position `at`: the money and terrain
      lines, the building count and as many building lines as it says, then
      the unit count and as many unit lines as it says. */
  predicate HasTurn(lines: seq<string>, at: nat) {
    && at + BuildingCountLine < |lines|
    && var b := LoopCount(ParseInt(lines[at + BuildingCountLine]));
    && at + BuildingCountLine + 1 + b < |lines|
    && var u := LoopCount(ParseInt(lines[at + BuildingCountLine + 1 + b]));
    && at + BuildingCountLine + 2 + b + u <= |lines|
  }

  /** Lines one turn takes from the input:
      4 + 12 + 1 + buildings + 1 + units. */
  function TurnLength(g: GameData): nat {
    BuildingCountLine + 2 + |g.buildings| + |g.units|
  }

  /** `readLinesIntoGameData`: one turn from position `at`, read in the
      order money, terrain, buildings, units. Every list starts empty, so
      the record is built from this turn's lines alone; the next turn
      starts on the line right after them. */
  function ReadGameData(lines: seq<string>, at: nat): (r: Read<GameData>)
    requires at <= |lines|
    ensures r.Got? ==> r.next == at + TurnLength(r.value) <= |lines|
  {
    match ReadEach(lines, at, 4, ParseInt)
    case EndOfInput => EndOfInput
    case Got(money, afterMoney) =>
      match ReadEach(lines, afterMoney, TerrainRows, Verbatim)
      case EndOfInput => EndOfInput
      case Got(terrain, afterTerrain) =>
        match ReadCounted(lines, afterTerrain, ParseBuilding)
        case EndOfInput => EndOfInput
        case Got(buildings, afterBuildings) =>
          match ReadCounted(lines, afterBuildings, ParseUnit)
          case EndOfInput => EndOfInput
          case Got(units, next) =>
            Got(GameData(money[0], money[1], money[2], money[3], terrain,
                         buildings.count, buildings.entries, units.count, units.entries), next)
  }

  /** A turn is read whenever the input holds one, and only then. */
  lemma ReadGameDataSucceeds(lines: seq<string>, at: nat)
    requires at <= |lines|
    ensures ReadGameData(lines, at).Got? <==> HasTurn(lines, at)
  {
  }

  /** A turn that was read splits into its four stages, each read where the
      previous one stopped. */
  lemma ReadGameDataParts(lines: seq<string>, at: nat, g: GameData, next: nat)
    requires at <= |lines| && ReadGameData(lines, at) == Got(g, next)
    ensures ReadEach(lines, at, 4, ParseInt)
         == Got([g.gold, g.income, g.opponentGold, g.opponentIncome], at + 4)
    ensures ReadEach(lines, at + 4, TerrainRows, Verbatim) == Got(g.terrain, at + BuildingCountLine)
    ensures ReadCounted(lines, at + BuildingCountLine, ParseBuilding)
         == Got(Counted(g.buildingCount, g.buildings), at + BuildingCountLine + 1 + |g.buildings|)
    ensures ReadCounted(lines, at + BuildingCountLine + 1 + |g.buildings|, ParseUnit)
         == Got(Counted(g.unitCount, g.units), next)
  {
    var money := ReadEach(lines, at, 4, ParseInt);
    var m := money.value;
    assert m == [m[0], m[1], m[2], m[3]];
  }

  /** The money comes from the first four lines of the turn, in the order
      gold, income, opponentGold, opponentIncome. */
  lemma MoneyLayout(lines: seq<string>, at: nat, g: GameData, next: nat)
    requires at <= |lines| && ReadGameData(lines, at) == Got(g, next)
    ensures g.gold == ParseInt(lines[at])
    ensures g.income == ParseInt(lines[at + 1])
    ensures g.opponentGold == ParseInt(lines[at + 2])
    ensures g.opponentIncome == ParseInt(lines[at + 3])
  {
    ReadGameDataParts(lines, at, g, next);
  }

  /** The terrain is always the next twelve lines, each copied verbatim, in
      order. */
  lemma TerrainLayout(lines: seq<string>, at: nat, g: GameData, next: nat)
    requires at <= |lines| && ReadGameData(lines, at) == Got(g, next)
    ensures |g.terrain| == TerrainRows
    ensures forall i :: 0 <= i < TerrainRows ==> g.terrain[i] == lines[at + 4 + i]
  {
    ReadGameDataParts(lines, at, g, next);
  }

  /** Then the building count, and one building per line for as many lines
      as the count loop runs. */
  lemma BuildingsLayout(lines: seq<string>, at: nat, g: GameData, next: nat)
    requires at <= |lines| && ReadGameData(lines, at) == Got(g, next)
    ensures g.buildingCount == ParseInt(lines[at + BuildingCountLine])
    ensures |g.buildings| == LoopCount(g.buildingCount)
    ensures forall i :: 0 <= i < |g.buildings| ==> g.buildings[i] == ParseBuilding(lines[at + BuildingCountLine + 1 + i])
  {
    ReadGameDataParts(lines, at, g, next);
  }

  /** Then the unit count on line `unitsAt`, right after the last building
      line, and one unit per line for as many lines as the count loop
      runs; the turn ends after the last unit line. */
  lemma UnitsLayout(lines: seq<string>, at: nat, g: GameData, next: nat, unitsAt: nat)
    requires at <= |lines| && ReadGameData(lines, at) == Got(g, next)
    requires unitsAt == at + BuildingCountLine + 1 + |g.buildings|
    ensures unitsAt < |lines| && g.unitCount == ParseInt(lines[unitsAt])
    ensures |g.units| == LoopCount(g.unitCount)
    ensures forall i :: 0 <= i < |g.units| ==> g.units[i] == ParseUnit(lines[unitsAt + 1 + i])
    ensures next == unitsAt + 1 + |g.units|
  {
    ReadGameDataParts(lines, at, g, next);
    ReadCountedLayout(lines, unitsAt, ParseUnit, g.unitCount, g.units, next);
  }

  /* ---------------------------------------------------------------------- */
  /* The game loop                                                          */
  /* ---------------------------------------------------------------------- */

  /** The turn records delivered to the game logic from position `at`, one
      per loop pass, until the input runs out in the middle of a turn (which
      ends the process before that turn is delivered). */
  function Turns(lines: seq<string>, at: nat): (turns: seq<GameData>)
    requires at <= |lines|
    ensures at + 18 * |turns| <= |lines|
    ensures |turns| > 0 <==> HasTurn(lines, at)
    decreases |lines| - at
  {
    ReadGameDataSucceeds(lines, at);
    match ReadGameData(lines, at)
    case EndOfInput => []
    case Got(g, next) => [g] + Turns(lines, next)
  }

  /** Outcome of a whole run of the shim. */
  datatype Run = EndedDuringInit | Ran(init: InitData, turns: seq<GameData>)

  /** The shim on a whole input: the init block once, then turns until the
      input runs out. */
  function RunShim(lines: seq<string>): (run: Run)
    ensures run.Ran? <==> |lines| >= 1 && 1 + LoopCount(ParseInt(lines[0])) <= |lines|
    ensures run.Ran? ==> 1 + |run.init.mines| + 18 * |run.turns| <= |lines|
  {
    match ReadInitData(lines)
    case EndOfInput => EndedDuringInit
    case Got(init, next) => Ran(init, Turns(lines, next))
  }

  /* ---------------------------------------------------------------------- */
  /* Rendering: the input as the game server writes it                      */
  /* ---------------------------------------------------------------------- */

  /** An init record the server could have sent: the count line says how
      many spot lines follow. */
  predicate WellFormedInit(d: InitData) {
    d.numberMineSpots == Int(|d.mines|)
  }

  /** A turn record the server could have sent: twelve terrain rows, and
      each count says how many lines of its block follow. */
  predicate WellFormedGameData(g: GameData) {
    && |g.terrain| == TerrainRows
    && g.buildingCount == Int(|g.buildings|)
    && g.unitCount == Int(|g.units|)
  }

  function ShowMineSpot(m: MineSpot): string {
    ShowNums([m.x, m.y])
  }

  function ShowBuilding(b: Building): string {
    ShowNums([b.owner, b.buildingType, b.x, b.y])
  }

  function ShowUnit(u: Unit): string {
    ShowNums([u.owner, u.unitId, u.level, u.x, u.y])
  }

  function ShowInitData(d: InitData): seq<string> {
    [ShowInt(|d.mines|)] + seq(|d.mines|, i requires 0 <= i < |d.mines| => ShowMineSpot(d.mines[i]))
  }

  function ShowMoney(g: GameData): seq<string> {
    [ShowNum(g.gold), ShowNum(g.income), ShowNum(g.opponentGold), ShowNum(g.opponentIncome)]
  }

  function ShowBuildingBlock(g: GameData): seq<string> {
    [ShowInt(|g.buildings|)]
    + seq(|g.buildings|, i requires 0 <= i < |g.buildings| => ShowBuilding(g.buildings[i]))
  }

  function ShowUnitBlock(g: GameData): seq<string> {
    [ShowInt(|g.units|)] + seq(|g.units|, i requires 0 <= i < |g.units| => ShowUnit(g.units[i]))
  }

  /** The lines of one turn as the server writes them. */
  function ShowGameData(g: GameData): seq<string> {
    ShowMoney(g) + (g.terrain + (ShowBuildingBlock(g) + ShowUnitBlock(g)))
  }

  /** The lines of several turns, one after the other. */
  function ShowTurns(gs: seq<GameData>): seq<string> {
    if |gs| == 0 then [] else ShowGameData(gs[0]) + ShowTurns(gs[1..])
  }

  /* ---------------------------------------------------------------------- */
  /* Properties                                                             */
  /* ---------------------------------------------------------------------- */

  /** `x` and `y` are tokens 0 and 1 of the line, whatever the tokens
      hold (empty ones from doubled spaces included); further tokens are
      ignored and a missing token gives NaN. */
  lemma ParseMineSpotTokens(ts: seq<string>)
    requires |ts| >= 1 && NoSpaces(ts)
    ensures ParseMineSpot(Join(ts)) == MineSpot(IntAt(ts, 0), IntAt(ts, 1))
  {
    SplitJoin(ts);
  }

  /** `owner`, `buildingType`, `x`, `y` are tokens 0 to 3 of the line. */
  lemma ParseBuildingTokens(ts: seq<string>)
    requires |ts| >= 1 && NoSpaces(ts)
    ensures ParseBuilding(Join(ts)) == Building(IntAt(ts, 0), IntAt(ts, 1), IntAt(ts, 2), IntAt(ts, 3))
  {
    SplitJoin(ts);
  }

  /** `owner`, `unitId`, `level`, `x`, `y` are tokens 0 to 4 of the line. */
  lemma ParseUnitTokens(ts: seq<string>)
    requires |ts| >= 1 && NoSpaces(ts)
    ensures ParseUnit(Join(ts)) == Unit(IntAt(ts, 0), IntAt(ts, 1), IntAt(ts, 2), IntAt(ts, 3), IntAt(ts, 4))
  {
    SplitJoin(ts);
  }

  /** A mine spot line as the server writes it parses back to that spot. */
  lemma ParseMineSpotShown(m: MineSpot)
    ensures ParseMineSpot(ShowMineSpot(m)) == m
  {
    var xs := [m.x, m.y];
    IntAtShowNums(xs, 0);
    IntAtShowNums(xs, 1);
  }

  /** A building line as the server writes it parses back to that building. */
  lemma ParseBuildingShown(b: Building)
    ensures ParseBuilding(ShowBuilding(b)) == b
  {
    var xs := [b.owner, b.buildingType, b.x, b.y];
    IntAtShowNums(xs, 0);
    IntAtShowNums(xs, 1);
    IntAtShowNums(xs, 2);
    IntAtShowNums(xs, 3);
  }

  /** A unit line as the server writes it parses back to that unit. */
  lemma ParseUnitShown(u: Unit)
    ensures ParseUnit(ShowUnit(u)) == u
  {
    var xs := [u.owner, u.unitId, u.level, u.x, u.y];
    IntAtShowNums(xs, 0);
    IntAtShowNums(xs, 1);
    IntAtShowNums(xs, 2);
    IntAtShowNums(xs, 3);
    IntAtShowNums(xs, 4);
  }

  /** Round trip of the init block: reading the lines the server writes
      for a record gives that record back and stops right after them. */
  lemma ReadInitDataShown(d: InitData, lines: seq<string>, next: nat)
    requires WellFormedInit(d)
    requires Window(lines, 0, ShowInitData(d)) && next == 1 + |d.mines|
    ensures ReadInitData(lines) == Got(d, next)
  {
    var block := ShowInitData(d);
    WindowAt(lines, 0, block, 0);
    forall i | 0 <= i < |d.mines|
      ensures ParseMineSpot(lines[1 + i]) == d.mines[i]
    {
      WindowAt(lines, 0, block, 1 + i);
      assert block[1 + i] == ShowMineSpot(d.mines[i]);
      ParseMineSpotShown(d.mines[i]);
    }
    ReadCountedShown(lines, 0, d.mines, ParseMineSpot);
  }

  lemma ShowGameDataLength(g: GameData)
    ensures |ShowGameData(g)| == 4 + |g.terrain| + 2 + |g.buildings| + |g.units|
  {
  }

  /** A turn read stage by stage: the money lines, the terrain rows, the
      building block and the unit block, each starting where the previous
      stage stopped. */
  lemma ReadGameDataStages(lines: seq<string>, at: nat, g: GameData,
                           terrainAt: nat, buildingsAt: nat, unitsAt: nat, next: nat)
    requires at <= |lines|
    requires terrainAt == at + 4 && buildingsAt == at + BuildingCountLine
    requires unitsAt == buildingsAt + 1 + |g.buildings| && next == unitsAt + 1 + |g.units|
    requires ReadEach(lines, at, 4, ParseInt)
          == Got([g.gold, g.income, g.opponentGold, g.opponentIncome], terrainAt)
    requires ReadEach(lines, terrainAt, TerrainRows, Verbatim) == Got(g.terrain, buildingsAt)
    requires ReadCounted(lines, buildingsAt, ParseBuilding) == Got(Counted(g.buildingCount, g.buildings), unitsAt)
    requires ReadCounted(lines, unitsAt, ParseUnit) == Got(Counted(g.unitCount, g.units), next)
    ensures ReadGameData(lines, at) == Got(g, next)
  {
  }

  /** The four money lines as the server writes them read back as the four
      numbers, in order. */
  lemma MoneyShown(g: GameData, lines: seq<string>, at: nat, next: nat)
    requires Window(lines, at, ShowMoney(g)) && next == at + 4
    ensures ReadEach(lines, at, 4, ParseInt)
         == Got([g.gold, g.income, g.opponentGold, g.opponentIncome], next)
  {
    var money := ShowMoney(g);
    ParseIntShowNum(g.gold);
    ParseIntShowNum(g.income);
    ParseIntShowNum(g.opponentGold);
    ParseIntShowNum(g.opponentIncome);
    WindowAt(lines, at, money, 0);
    WindowAt(lines, at, money, 1);
    WindowAt(lines, at, money, 2);
    WindowAt(lines, at, money, 3);
    var m := ReadEach(lines, at, 4, ParseInt);
    assert m.value == [g.gold, g.income, g.opponentGold, g.opponentIncome];
  }

  /** Terrain rows are read back as they were written, whatever they hold. */
  lemma TerrainShown(terrain: seq<string>, lines: seq<string>, at: nat, next: nat)
    requires Window(lines, at, terrain) && next == at + |terrain|
    ensures ReadEach(lines, at, |terrain|, Verbatim) == Got(terrain, next)
  {
    WindowFits(lines, at, terrain);
    var t := ReadEach(lines, at, |terrain|, Verbatim);
    forall i | 0 <= i < |terrain|
      ensures t.value[i] == terrain[i]
    {
      WindowAt(lines, at, terrain, i);
    }
    assert t.value == terrain;
  }

  /** The building block as the server writes it reads back as the
      buildings of the record. */
  lemma BuildingBlockShown(g: GameData, lines: seq<string>, at: nat, next: nat)
    requires g.buildingCount == Int(|g.buildings|)
    requires Window(lines, at, ShowBuildingBlock(g)) && next == at + 1 + |g.buildings|
    ensures ReadCounted(lines, at, ParseBuilding) == Got(Counted(g.buildingCount, g.buildings), next)
  {
    var block := ShowBuildingBlock(g);
    WindowAt(lines, at, block, 0);
    forall i | 0 <= i < |g.buildings|
      ensures ParseBuilding(lines[at + 1 + i]) == g.buildings[i]
    {
      WindowAt(lines, at, block, 1 + i);
      assert block[1 + i] == ShowBuilding(g.buildings[i]);
      ParseBuildingShown(g.buildings[i]);
    }
    ReadCountedShown(lines, at, g.buildings, ParseBuilding);
  }

  /** The unit block as the server writes it reads back as the units of
      the record. */
  lemma UnitBlockShown(g: GameData, lines: seq<string>, at: nat, next: nat)
    requires g.unitCount == Int(|g.units|)
    requires Window(lines, at, ShowUnitBlock(g)) && next == at + 1 + |g.units|
    ensures ReadCounted(lines, at, ParseUnit) == Got(Counted(g.unitCount, g.units), next)
  {
    var block := ShowUnitBlock(g);
    WindowAt(lines, at, block, 0);
    forall i | 0 <= i < |g.units|
      ensures ParseUnit(lines[at + 1 + i]) == g.units[i]
    {
      WindowAt(lines, at, block, 1 + i);
      assert block[1 + i] == ShowUnit(g.units[i]);
      ParseUnitShown(g.units[i]);
    }
    ReadCountedShown(lines, at, g.units, ParseUnit);
  }

  /** Round trip of one turn: reading the lines the server writes for a
      turn record gives that record back, the terrain rows unchanged
      whatever they hold, and the cursor stops right after the turn. */
  lemma ReadGameDataShown(g: GameData, lines: seq<string>, at: nat, next: nat)
    requires WellFormedGameData(g)
    requires Window(lines, at, ShowGameData(g)) && next == at + TurnLength(g)
    ensures ReadGameData(lines, at) == Got(g, next)
  {
    var buildingBlock := ShowBuildingBlock(g);
    var unitBlock := ShowUnitBlock(g);
    var blocks := buildingBlock + unitBlock;
    var terrainAt := at + 4;
    var buildingsAt := at + BuildingCountLine;
    var unitsAt := buildingsAt + 1 + |g.buildings|;
    WindowConcat(lines, at, ShowMoney(g), g.terrain + blocks, terrainAt);
    WindowConcat(lines, terrainAt, g.terrain, blocks, buildingsAt);
    WindowConcat(lines, buildingsAt, buildingBlock, unitBlock, unitsAt);
    MoneyShown(g, lines, at, terrainAt);
    TerrainShown(g.terrain, lines, terrainAt, buildingsAt);
    BuildingBlockShown(g, lines, buildingsAt, unitsAt);
    UnitBlockShown(g, lines, unitsAt, next);
    ReadGameDataStages(lines, at, g, terrainAt, buildingsAt, unitsAt, next);
  }

  /** One pass of the game loop: a turn read from `at` is delivered first,
      and the loop carries on from the line after it. */
  lemma TurnsStep(lines: seq<string>, at: nat, g: GameData, next: nat)
    requires at <= |lines| && ReadGameData(lines, at) == Got(g, next)
    ensures Turns(lines, at) == [g] + Turns(lines, next)
  {
  }

  /** Round trip of the game loop: the lines of a list of turns, up to the
      end of the input, are read back as exactly that list of turn records,
      in order. */
  lemma {:induction false} TurnsShown(gs: seq<GameData>, lines: seq<string>, at: nat)
    requires forall i :: 0 <= i < |gs| ==> WellFormedGameData(gs[i])
    requires Window(lines, at, ShowTurns(gs)) && at + |ShowTurns(gs)| == |lines|
    ensures Turns(lines, at) == gs
  {
    if |gs| > 0 {
      var g := gs[0];
      var next := at + TurnLength(g);
      ShowGameDataLength(g);
      WindowConcat(lines, at, ShowGameData(g), ShowTurns(gs[1..]), next);
      ReadGameDataShown(g, lines, at, next);
      TurnsShown(gs[1..], lines, next);
      TurnsStep(lines, at, g, next);
      ConsTail(gs);
    } else {
      ReadGameDataSucceeds(lines, at);
    }
  }

  /** End to end: the shim on the server's lines for an init record and a
      list of turns hands exactly those records to the game logic. */
  lemma RunShimShown(d: InitData, gs: seq<GameData>)
    requires WellFormedInit(d)
    requires forall i :: 0 <= i < |gs| ==> WellFormedGameData(gs[i])
    ensures RunShim(ShowInitData(d) + ShowTurns(gs)) == Ran(d, gs)
  {
    var init := ShowInitData(d);
    var turns := ShowTurns(gs);
    var lines := init + turns;
    var start := |init|;
    WindowPrefix(init, turns);
    WindowSuffix(init, turns);
    ReadInitDataShown(d, lines, start);
    TurnsShown(gs, lines, start);
  }

  /** A count line without digits, or with a count below one, reads no spot:
      the list is empty and the next line is left for the first turn. */
  lemma NoSpotsBelowOne(lines: seq<string>)
    requires |lines| >= 1
    requires ParseInt(lines[0]).NaN? || ParseInt(lines[0]).value < 1
    ensures ReadInitData(lines) == Got(InitData(ParseInt(lines[0]), []), 1)
  {
    var r := ReadInitData(lines);
    assert |r.value.mines| == 0;
  }

  /** Two spaces in a row leave an empty token between them, so `y` is
      read from that empty token and is NaN. */
  lemma DoubledSpaceExample()
    ensures ParseMineSpot("3  4") == MineSpot(Int(3), NaN)
  {
    ParseMineSpotTokens(["3", "", "4"]);
    assert Join(["3", "", "4"]) == "3  4";
  }

  /** Worked example: init block `2`, `3 4`, `5 6`. */
  lemma InitExample()
    ensures ReadInitData(["2", "3 4", "5 6"])
         == Got(InitData(Int(2), [MineSpot(Int(3), Int(4)), MineSpot(Int(5), Int(6))]), 3)
  {
    var d := InitData(Int(2), [MineSpot(Int(3), Int(4)), MineSpot(Int(5), Int(6))]);
    var lines := ["2", "3 4", "5 6"];
    ShowNumsPair(Int(3), Int(4));
    ShowNumsPair(Int(5), Int(6));
    assert ShowInitData(d)[1] == "3 4";
    assert ShowInitData(d)[2] == "5 6";
    assert ShowInitData(d) == lines;
    WindowPrefix(lines, []);
    assert lines + [] == lines;
    ReadInitDataShown(d, lines, 3);
  }

  /** Worked example: money `10`, `5`, `12`, `3`, any twelve terrain rows,
      no building and no unit. */
  lemma TurnExample(terrain: seq<string>)
    requires |terrain| == TerrainRows
    ensures ReadGameData(["10", "5", "12", "3"] + terrain + ["0", "0"], 0)
         == Got(GameData(Int(10), Int(5), Int(12), Int(3), terrain, Int(0), [], Int(0), []), 18)
  {
    var g := GameData(Int(10), Int(5), Int(12), Int(3), terrain, Int(0), [], Int(0), []);
    assert ShowInt(10) == "10" by { assert ShowNat(10) == ShowNat(1) + ['0']; }
    assert ShowInt(12) == "12" by { assert ShowNat(12) == ShowNat(1) + ['2']; }
    var lines := ["10", "5", "12", "3"] + terrain + ["0", "0"];
    assert ShowGameData(g) == lines;
    WindowPrefix(lines, []);
    assert lines + [] == lines;
    ReadGameDataShown(g, lines, 0, 18);
  }
}
