# Input shims of two CodinGame bots, in Dafny

Both bots keep their game logic in Elm and put a small JavaScript shim in
front of it. The shim reads the referee's input with `readline()` and turns
each block of lines into a plain record. It hands the record to the Elm
program once at start-up, as the init flags, and then once per turn through
an incoming port. This project models the reading side of both shims.

- `CodingGame.js` is the mines/economy game. The init block is a mine-spot
  count followed by one `x y` line per spot. Each turn has:
  - four money lines;
  - twelve terrain rows, kept verbatim;
  - a building count followed by one `owner buildingType x y` line per
    building;
  - a unit count followed by one `owner unitId level x y` line per unit.
- `CodinGame.js` is the graph/gateway game. The init block is a
  `nodeCount linkCount exitCount` line, one `n1 n2` line per link and one
  line per exit gateway. Each turn is a single line holding the node the
  Skynet agent is on.

The model is split into four modules:

- `Js` (`js.dfy`) covers the host behaviour the shims rely on:
  - NaN-or-integer numbers;
  - `parseInt` as a left-to-right scanner;
  - `split(" ")`, which keeps empty tokens;
  - `parseInt(inputs[k])` past the end of the token list, which gives NaN;
  - the iteration count of `for (let i = 0; i < n; i++)`, which is zero
    for a NaN or negative `n`.
- `Lines` (`lines.dfy`) models the input as a sequence of lines with a
  cursor:
  - reading one line;
  - reading `n` lines in a counted loop;
  - reading a count-prefixed block.

  Running out of input is a result (`EndOfInput`), not a precondition.
- `MinesShim` (`mines_shim.dfy`) and `GraphShim` (`graph_shim.dfy`) model
  the two shims. Each one has:
  - the records;
  - the init read;
  - the per-turn read;
  - the game loop over a finite input;
  - a rendering of records as the referee writes them;
  - round-trip lemmas, which show that the shim reads back exactly the
    records the referee wrote.

## Model

| member | source | states |
|---|---|---|
| Js.ParseInt | CodingGame.js:3 | `parseInt(s)` with radix 10, defined as the left-to-right scanner `Scan` started in leading-white-space mode; what it returns is stated by `ParseIntShowInt`, `ParseIntNoDigit`, `ParseIntSkipsLeadingSpace` and `ParseIntExamples` |
| Js.ParseIntNoDigit | CodingGame.js:3 | a line without any decimal digit parses to NaN, whatever else it holds (a sign, letters, white space, the empty line) |
| Js.Split | CodingGame.js:6 | `split(" ")` always gives at least one token (the empty line gives one empty token); `SplitJoinsBack` and `SplitJoin` state that it is the inverse of joining with single spaces |
| Js.IntAt | CodingGame.js:8-9 | `parseInt(inputs[k])`: token `k` parsed, or NaN when `k` is past the last token (`parseInt(undefined)`); `IntAtShowNums` states it on written lines |
| Lines.ReadLine | CodingGame.js:3 | `readline()` succeeds exactly when a line remains at the cursor; it gives that line and moves the cursor by one |
| Js.LoopCount | CodingGame.js:5 | the body of `for (let i = 0; i < n; i++)` runs for exactly the counters `i` for which `i < n` holds in JavaScript, so a NaN count gives no pass |
| Js.ParseIntExamples | CodingGame.js:3 | `parseInt` skips leading white space, accepts a sign, ignores text after the digits, and gives NaN for the empty line, a lone sign or a leading letter |
| Js.ParseIntSkipsLeadingSpace | CodingGame.js:3 | white space before the number never changes what `parseInt` returns |
| Js.ParseIntShowInt | CodingGame.js:43 | `parseInt` reads back any integer written in decimal, whatever follows it, as long as what follows does not start with a digit |
| Js.ParseIntShowNum | CodingGame.js:60-63 | every token the referee writes for a number, NaN included, parses back to that number |
| Js.SplitJoinsBack | CodingGame.js:6 | the tokens of `split(" ")` hold no space, and joining them with single spaces gives back the line |
| Js.SplitJoin | CodingGame.js:58 | tokens without spaces, joined with single spaces, split back into the same tokens (empty tokens included) |
| Js.IntAtShowNums | CodingGame.js:6-9 | `parseInt(inputs[k])` on a written line of numbers gives the `k`-th number, and NaN for a `k` past the last token |
| Lines.ReadEach | CodingGame.js:49-52 | the counted `readline()` loop succeeds exactly when `n` lines remain; it then yields one entry per line, in input order, and moves the cursor by `n` |
| Lines.ReadCounted | CodingGame.js:55-65 | a count line then one entry per loop pass: it succeeds exactly when the lines the count asks for are there, and it reads no entry line for a NaN or non-positive count |
| Lines.ReadCountedShown | CodingGame.js:55-65 | a written count followed by lines that parse to given entries reads back as those entries, and the cursor stops right after them |
| MinesShim.ReadInitData | CodingGame.js:2-11 | the init read succeeds exactly when the count line and the spot lines it asks for are there; spot `i` comes from line `1 + i`, and the turns start right after the spots |
| MinesShim.NoSpotsBelowOne | CodingGame.js:3-5 | a count line without digits, or with a count below one, yields an empty spot list and leaves the next line for the first turn |
| MinesShim.ParseMineSpot | CodingGame.js:6-9 | splits the line at single spaces and parses tokens 0 and 1 as `x` and `y`; stated for every line by `ParseMineSpotTokens` |
| MinesShim.ParseMineSpotTokens | CodingGame.js:6-9 | for any tokens without spaces (empty ones from doubled spaces included), `x` and `y` are tokens 0 and 1 of the joined line; further tokens are ignored and a missing token gives NaN |
| MinesShim.DoubledSpaceExample | CodingGame.js:6-9 | the line `3  4` (two spaces) reads as `x` 3 and `y` NaN, because `split(" ")` leaves an empty token in between |
| MinesShim.ParseMineSpotShown | CodingGame.js:6-10 | a spot line as the referee writes it parses back to that spot |
| MinesShim.ParseBuilding | CodingGame.js:58-63 | splits the line at single spaces and parses tokens 0 to 3; stated for every line by `ParseBuildingTokens` |
| MinesShim.ParseBuildingTokens | CodingGame.js:58-63 | for any tokens without spaces, `owner`, `buildingType`, `x` and `y` are tokens 0 to 3 of the joined line, NaN where a token is missing |
| MinesShim.ParseBuildingShown | CodingGame.js:58-64 | a building line as the referee writes it parses back to that building |
| MinesShim.ParseUnit | CodingGame.js:71-77 | splits the line at single spaces and parses tokens 0 to 4; stated for every line by `ParseUnitTokens` |
| MinesShim.ParseUnitTokens | CodingGame.js:71-77 | for any tokens without spaces, `owner`, `unitId`, `level`, `x` and `y` are tokens 0 to 4 of the joined line, NaN where a token is missing |
| MinesShim.ParseUnitShown | CodingGame.js:71-78 | a unit line as the referee writes it parses back to that unit |
| MinesShim.ReadInitDataShown | CodingGame.js:2-11 | the init lines as the referee writes them read back as the same record, and the cursor stops right after the last spot |
| MinesShim.InitExample | CodingGame.js:2-11 | the lines `2`, `3 4`, `5 6` read as two mine spots (3,4) and (5,6) |
| MinesShim.ReadGameData | CodingGame.js:41-80 | a turn that was read fits in the input and takes exactly 18 lines plus one per building and one per unit; the next turn starts right after it |
| MinesShim.ReadGameDataSucceeds | CodingGame.js:41-80 | a turn is read if and only if the money lines, the terrain, both count lines and as many entry lines as the counts ask for are all there |
| MinesShim.ReadGameDataParts | CodingGame.js:41-80 | a turn that was read splits into the money, terrain, building and unit stages, each read where the previous one stopped |
| MinesShim.ReadGameDataStages | CodingGame.js:41-80 | conversely, four consecutive successful stages give the turn made of their results |
| MinesShim.MoneyLayout | CodingGame.js:43-46 | `gold`, `income`, `opponentGold` and `opponentIncome` are the first four lines of the turn, in that order |
| MinesShim.TerrainLayout | CodingGame.js:49-52 | the terrain is always the next twelve lines, copied verbatim and in order |
| MinesShim.BuildingsLayout | CodingGame.js:55-65 | the building count is line 16 of the turn, and building `i` is the line `i + 1` after it, for as many lines as the count loop runs |
| MinesShim.UnitsLayout | CodingGame.js:68-79 | the unit count is the line right after the last building, unit `i` is the line `i + 1` after it, and the turn ends right after the last unit line |
| MinesShim.MoneyShown | CodingGame.js:43-46 | the four money lines as the referee writes them read back as the four numbers, in order |
| MinesShim.TerrainShown | CodingGame.js:49-52 | terrain rows are read back exactly as written, whatever they hold |
| MinesShim.BuildingBlockShown | CodingGame.js:55-65 | the building block as the referee writes it reads back as the same count and buildings |
| MinesShim.UnitBlockShown | CodingGame.js:68-79 | the unit block as the referee writes it reads back as the same count and units |
| MinesShim.ReadGameDataShown | CodingGame.js:41-80 | a turn as the referee writes it reads back as the same turn record, and the next turn starts right after its last line |
| MinesShim.TurnExample | CodingGame.js:41-80 | money `10 5 12 3`, any twelve terrain rows and two zero counts read as that turn, and the cursor moves 18 lines |
| MinesShim.Turns | CodingGame.js:27-37 | the game loop delivers at least one turn exactly when the input holds a whole turn, and each turn delivered takes at least 18 lines |
| MinesShim.TurnsStep | CodingGame.js:27-37 | one loop pass delivers the turn read at the cursor, then the loop continues from the line after it |
| MinesShim.TurnsShown | CodingGame.js:27-37 | the lines of a list of turns, up to the end of the input, are delivered as exactly that list, in order |
| MinesShim.RunShim | CodingGame.js:2-37 | the shim gets past start-up exactly when the init block is complete; the spot lines and the turns fit in the input |
| MinesShim.RunShimShown | CodingGame.js:2-37 | on the referee's lines for an init record and a list of turns, the shim hands exactly those records to the game logic |
| GraphShim.ReadInitData | CodinGame.js:5-20 | the init read succeeds exactly when the counts line, the link lines and the exit lines it asks for are there. The counts come from tokens 0 to 2 of the first line, link `i` from line `1 + i`, and exit `i` from the `i`-th line after the links, read as one integer |
| GraphShim.ShortCountsLine | CodinGame.js:6-20 | a counts line with only one token leaves both counts NaN, and then no link or exit line is read |
| GraphShim.ParseLink | CodinGame.js:12-14 | splits a link line at single spaces and parses tokens 0 and 1 as `n1` and `n2`; stated for every line by `ParseLinkTokens` |
| GraphShim.ParseLinkTokens | CodinGame.js:12-15 | for any tokens without spaces, `n1` and `n2` are tokens 0 and 1 of the joined line; further tokens are ignored and a missing token gives NaN |
| GraphShim.ParseLinkShown | CodinGame.js:12-15 | a link line as the referee writes it parses back to that link |
| GraphShim.LinkCountOf | CodinGame.js:6-8 | `linkCount` is token 1 of the counts line parsed, NaN when the line has fewer tokens; `ReadInitData` states how it bounds the link loop |
| GraphShim.ExitCountOf | CodinGame.js:6-9 | `exitCount` is token 2 of the counts line parsed, NaN when the line has fewer tokens; `ReadInitData` states how it bounds the exit loop |
| GraphShim.ReadInitDataStages | CodinGame.js:5-20 | the counts, then the link lines, then the exit lines, each read where the previous stage stopped, give the init record |
| GraphShim.LinksShown | CodinGame.js:10-16 | link lines as the referee writes them read back as the same links |
| GraphShim.ExitsShown | CodinGame.js:17-20 | exit lines as the referee writes them read back as the same gateway indices |
| GraphShim.ReadInitDataShown | CodinGame.js:5-20 | the init lines as the referee writes them read back as the same record, and the cursor stops right after the last exit |
| GraphShim.ReadTurnData | CodinGame.js:47-51 | a turn is read exactly when a line remains; `skynetNode` is that whole line read as one integer, and the cursor moves by one |
| GraphShim.Turns | CodinGame.js:33-43 | the game loop delivers one turn per remaining line, in order, and turn `i` carries the node on line `i` |
| GraphShim.TurnsShown | CodinGame.js:33-51 | the turn lines as the referee writes them are delivered as exactly the same turns |
| GraphShim.RunShim | CodinGame.js:5-43 | the shim gets past start-up exactly when the init block is complete, and then every remaining line becomes a turn |
| GraphShim.RunShimShown | CodinGame.js:5-51 | on the referee's lines for an init record and a list of turns, the shim hands exactly those records to the game logic |
| GraphShim.Example | CodinGame.js:5-51 | the network `4 4 2` with links 0-1, 0-2, 1-3 and 2-3, exits 1 and 3, and one turn on node 0, is read as those records |

## Left out

- `build.js` is left out. It runs the Elm compiler, `terser` and `prettier` as
  external processes and writes the bundled file under `build/`. It then
  copies the result to the clipboard, and it exits with the status of a
  failing tool. It does no input parsing.
- The Elm side is left out: `Elm.Main.init`, the `order`, `command` and
  `debug` ports, `console.log` and `console.error`. These are foreign calls
  whose behaviour lies outside the shims.
- The `setTimeout` scheduling of the game loop is left out. The loop is
  modelled as the sequence of records it delivers from a finite list of
  lines, and the asynchronous interleaving with the Elm output port is not
  modelled.
- Lines.ReadLine: reading past the last line is modelled as `EndOfInput`,
  which ends the run. In the mines game this means no partial turn is
  delivered. What the host's `readline()` does at end of input is not
  modelled further.
- Js.ParseInt: the `0x`/`0X` prefix is not modelled. `parseInt` without a
  radix reads such a prefix as hexadecimal, but the model reads `0` and
  stops at the `x`. The referee never writes such a prefix.
- Js.ParseInt: white space is limited to space, tab, line feed and carriage
  return. JavaScript also skips vertical tab (U+000B), form feed (U+000C),
  the byte order mark U+FEFF, the line terminators U+2028 and U+2029, and
  every space separator: U+00A0, U+1680, U+2000 to U+200A, U+202F, U+205F
  and U+3000.
- Js.ParseInt: numbers are unbounded integers. JavaScript loses precision
  beyond 2^53, and `parseInt("-0")` is negative zero, which the model does
  not distinguish from `0`.
- The reuse of the one global `gameData` object across turns is modelled as
  a fresh record per turn. Every field is assigned again and every list
  starts empty on each turn, so no value carries over.
- Writing NaN as the token `NaN` is part of the rendering used for the round
  trips, not of the shims. The referee itself only writes integers.
- The rendering functions (`ShowInitData`, `ShowGameData`, `ShowTurns` and
  so on) describe the referee's output format. They are a partner for the
  readers and model no line of the shims.
