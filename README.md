# WoodsyWalk rules engine, modelled in Dafny

WoodsyWalk is a turn-based board game for Android. Each player has a 7-row,
8-column board. Players lay road tiles inside the board. They place
coloured people and houses on the green-grass ring around its edge. Then
they walk each person along the roads to the house of the same colour,
collecting coins on the way. This project models the rules engine of the
game. The user interface, the Android services and serialisation are not
part of the model.

| file | module | models |
|---|---|---|
| `coordinates.dfy` | `Coordinates` | `Coordinates.java`: an immutable (x, y, not-found) value |
| `pieces.dfy` | `Pieces` | `Pieces.java`: the piece codec, the 36-tile table and its Fisher-Yates shuffle |
| `piece_info.dfy` | `PieceInfo` | `PieceInfo.java`: the older copy of the codec, proved equal to `Pieces` function by function |
| `board.dfy` | `BoardData` | `WoodsyBoardData.java`: a board as a class over a two-dimensional array, proved against functions on grid values |
| `game.dfy` | `GameData` | `WoodsyGameData.java`: the game as a class, with every turn operation proved against a pure function on a snapshot of the turn state |

A piece is a Java `int` bit record, so it is a `bv32` here. Each operation
is written with the same masks and shifts as the source, including what
they do to bits 18-31. Java's `Integer.MAX_VALUE` is the constant
`0x7FFF_FFFF`. Coordinates, scores and counters are unbounded integers.

The model follows the code as written, including these behaviours,
several of which differ from what the source's own comments describe:

- `copyFrom` calls `setCell(i, j, …)` with the row index as x. It
  therefore writes the transpose of the 7-by-7 part of the source board
  and leaves the target's last column alone (`CopyGridTransposes`,
  `CopyOfInitialGrid`). The comment above the method
  (WoodsyBoardData.java:119) calls it copying a board.
- `setCoins(p, false, false)` sets nothing. The "clear the coins" call in
  a person's move is therefore a no-op (`SetCoins`, `MoveCells`).
- The goal points are read at `personScores[colour]` from an array of four.
  Colour 4 therefore runs past the end and Java throws. This is the
  `IndexOutOfBounds` outcome, and it comes after the board, the moves
  left and the coin score have already changed. Colour 1 scores from
  slot 1 (`ColourIndex`, `MoveEffect`).
- Nothing sets the moving-person flag. Every operation keeps it as it was
  (`PlayAt`, `DiscardAt`), so the person-moving branch is not reachable
  from a new game.
- A moving person's step does not check whether a person already stands
  on the target.
- The goal test compares the target cell with a green-grass piece that
  has a road stub. A house placed by the game has no road stub, so the
  test never matches such a cell (`GoalNeverMatchesPlacedFigure`).
- The winner test inspects the board before the person is written onto
  the goal cell (`Arrived`).
- The branch of `playPieceAt` for a road tile (WoodsyGameData.java:242-247)
  and the accepting path of `playPieceDiscard` (WoodsyGameData.java:254-258)
  have no statements. Both methods return `int`, so Java rejects them with
  "missing return statement" and they do not compile as written; line 235
  also lacks a closing parenthesis. The outcome `NoReturn`, with no state
  change, stands in for the missing code. The comments at
  WoodsyGameData.java:243-245 and 251-253 say what that code was meant to
  do: start moving the person on the target cell, place the tile on a
  blank cell, or discard the piece.
- `getNextPiece` returns the head of the queue even while a person is
  moving.

## Model

| member | source | states |
|---|---|---|
| Coordinates.Of | src/main/java/com/davewhitesoftware/woodsywalk/Coordinates.java:14-18 | the three-argument constructor stores x, y and the not-found flag as given |
| Coordinates.At | src/main/java/com/davewhitesoftware/woodsywalk/Coordinates.java:19-23 | the two-argument constructor gives a found position, the same value as the three-argument one with `false` |
| Coordinates.Equals | src/main/java/com/davewhitesoftware/woodsywalk/Coordinates.java:24-26 | `equals` holds exactly when all three fields agree, i.e. the values are identical |
| Coordinates.EqualsIsReflexiveAndSymmetric | src/main/java/com/davewhitesoftware/woodsywalk/Coordinates.java:24-26 | `equals` is reflexive and symmetric |
| Coordinates.NotFoundNeverEqualsFound | src/main/java/com/davewhitesoftware/woodsywalk/Coordinates.java:24-26 | a not-found position never equals a found one, in either order and whatever their x and y; in particular not the found one at the same x and y |
| Pieces.PieceNumber | src/main/java/com/davewhitesoftware/woodsywalk/Pieces.java:71 | the piece number is a six-bit field: below 64 |
| Pieces.PersonNumber | src/main/java/com/davewhitesoftware/woodsywalk/Pieces.java:72 | the person colour is a three-bit field: below 8 |
| Pieces.HouseNumber | src/main/java/com/davewhitesoftware/woodsywalk/Pieces.java:73 | the house colour is a three-bit field: below 8 |
| Pieces.IsHouse | src/main/java/com/davewhitesoftware/woodsywalk/Pieces.java:74-76 | "just a house": holds iff piece number, person, roads and coins are all zero |
| Pieces.IsPerson | src/main/java/com/davewhitesoftware/woodsywalk/Pieces.java:77-79 | "just a person": holds iff piece number, house, roads and coins are all zero |
| Pieces.IsPersonAndHouse | src/main/java/com/davewhitesoftware/woodsywalk/Pieces.java:80-82 | holds iff piece number, roads and coins are zero; every pure person and pure house passes it |
| Pieces.IsTile | src/main/java/com/davewhitesoftware/woodsywalk/Pieces.java:83-85 | a tile is exactly a piece with a piece number, a road or a coin, i.e. the complement of IsPersonAndHouse |
| Pieces.IsBlank | src/main/java/com/davewhitesoftware/woodsywalk/Pieces.java:86 | the blank piece counts as a person, a house and both, and is not a tile |
| Pieces.IsEndOfTurn | src/main/java/com/davewhitesoftware/woodsywalk/Pieces.java:87 | every exact End-of-Turn piece passes the piece-number test |
| Pieces.NumberMoves | src/main/java/com/davewhitesoftware/woodsywalk/Pieces.java:88-92 | between 0 and 4; 0 iff the piece has no road stub, 4 iff it has all four |
| Pieces.PiecesConnect | src/main/java/com/davewhitesoftware/woodsywalk/Pieces.java:94-109 | holds iff the cells are orthogonal neighbours and both stubs on their shared edge are present (down/up vertically, right/left horizontally) |
| Pieces.PiecesConnectSymmetric | src/main/java/com/davewhitesoftware/woodsywalk/Pieces.java:94-109 | connection does not depend on which cell is the source |
| Pieces.PiecesConnectOnlyNeighbours | src/main/java/com/davewhitesoftware/woodsywalk/Pieces.java:94-109 | connected cells are at Manhattan distance exactly 1 |
| Pieces.SetDirections | src/main/java/com/davewhitesoftware/woodsywalk/Pieces.java:111-118 | each road stub is set iff it was set or is asked for; every other bit is unchanged |
| Pieces.SetCoins | src/main/java/com/davewhitesoftware/woodsywalk/Pieces.java:120-124 | each coin is set iff it was set or is asked for; other bits unchanged; asking for no coin changes nothing |
| Pieces.NumberMovesOfDirections | src/main/java/com/davewhitesoftware/woodsywalk/Pieces.java:88-92 | a piece built from road stubs alone allows as many moves as it has stubs |
| Pieces.CreatePiece | src/main/java/com/davewhitesoftware/woodsywalk/Pieces.java:127-135 | for in-range fields every extractor gives back what was packed, and the piece fits in 18 bits |
| Pieces.CreatePieceFromFields | src/main/java/com/davewhitesoftware/woodsywalk/Pieces.java:127-135 | the other round trip: every 18-bit piece is the packing of its own fields |
| Pieces.CreateHousePiece | src/main/java/com/davewhitesoftware/woodsywalk/Pieces.java:137-139 | for a colour below 8, a pure house of that colour |
| Pieces.CreatePersonPiece | src/main/java/com/davewhitesoftware/woodsywalk/Pieces.java:141-143 | for a colour below 8, a pure person of that colour |
| Pieces.CreateBlankPiece | src/main/java/com/davewhitesoftware/woodsywalk/Pieces.java:146 | the blank piece |
| Pieces.CreateEndOfTurnPiece | src/main/java/com/davewhitesoftware/woodsywalk/Pieces.java:147-149 | piece number 63 and every other field zero |
| Pieces.CreateSuccessPiece | src/main/java/com/davewhitesoftware/woodsywalk/Pieces.java:150-152 | piece number 62 and every other field zero |
| Pieces.CreateFailurePiece | src/main/java/com/davewhitesoftware/woodsywalk/Pieces.java:153-155 | piece number 61 and every other field zero |
| Pieces.CreateGreenGrassPiece | src/main/java/com/davewhitesoftware/woodsywalk/Pieces.java:156-158 | piece number 60 and every other field zero |
| Pieces.SentinelsDistinct | src/main/java/com/davewhitesoftware/woodsywalk/Pieces.java:147-158 | the four sentinels are pairwise distinct and all count as tiles |
| Pieces.GetPersonPieceFrom | src/main/java/com/davewhitesoftware/woodsywalk/Pieces.java:159-164 | the Failure piece when no person stands on p, else the pure person of p's person colour |
| Pieces.GetHousePieceFrom | src/main/java/com/davewhitesoftware/woodsywalk/Pieces.java:165-170 | the Failure piece when no house stands on p, else the pure house of p's house colour |
| Pieces.IsEndOfTurnPiece | src/main/java/com/davewhitesoftware/woodsywalk/Pieces.java:171 | holds exactly for the End-of-Turn sentinel: number 63 and every other bit zero |
| Pieces.IsSuccessPiece | src/main/java/com/davewhitesoftware/woodsywalk/Pieces.java:172 | holds exactly for the Success sentinel: number 62 and every other bit zero |
| Pieces.IsFailurePiece | src/main/java/com/davewhitesoftware/woodsywalk/Pieces.java:173 | holds exactly for the Failure sentinel: number 61 and every other bit zero |
| Pieces.IsGreenGrassPiece | src/main/java/com/davewhitesoftware/woodsywalk/Pieces.java:174 | holds exactly for plain green grass: number 60 and every other bit zero |
| Pieces.EndOfTurnTestIsLooser | src/main/java/com/davewhitesoftware/woodsywalk/Pieces.java:87 | the piece-number test accepts a piece with number 63 and a road, which the exact sentinel test rejects |
| Pieces.TakeCoins | src/main/java/com/davewhitesoftware/woodsywalk/Pieces.java:177-180 | both coins are gone; roads, piece number, person and house are kept; bits above 17 are cleared |
| Pieces.SetHouseNumber | src/main/java/com/davewhitesoftware/woodsywalk/Pieces.java:181-184 | the house colour becomes the low three bits of the argument; every other field is kept; bits above 17 are cleared |
| Pieces.SetPersonNumber | src/main/java/com/davewhitesoftware/woodsywalk/Pieces.java:185-188 | the person colour becomes the low three bits of the argument; every other field is kept; bits above 17 are cleared |
| Pieces.SetNumbersIdempotent | src/main/java/com/davewhitesoftware/woodsywalk/Pieces.java:181-188 | setting the same colour twice is the same as setting it once |
| Pieces.CombinePieces | src/main/java/com/davewhitesoftware/woodsywalk/Pieces.java:189-196 | a pure person or house with a tile, in either order, puts that figure's colour on the tile; any other pair gives the Failure piece |
| Pieces.CombinePiecesCommutative | src/main/java/com/davewhitesoftware/woodsywalk/Pieces.java:189-196 | the order of the two arguments does not matter |
| Pieces.TileTableEntries | src/main/java/com/davewhitesoftware/woodsywalk/Pieces.java:49-56 | the table has 36 entries; the entry at row r, column j has piece number 6j + r + 1, no person, no house |
| Pieces.TileTableTiles | src/main/java/com/davewhitesoftware/woodsywalk/Pieces.java:49-56 | every table entry is a tile numbered 1..36 with no person and no house |
| Pieces.TileTableDistinct | src/main/java/com/davewhitesoftware/woodsywalk/Pieces.java:49-56 | no two table entries share a piece number |
| Pieces.TileTableComplete | src/main/java/com/davewhitesoftware/woodsywalk/Pieces.java:49-56 | every piece number 1..36 occurs in the table |
| Pieces.Swap | src/main/java/com/davewhitesoftware/woodsywalk/Pieces.java:39-41 | the two entries are exchanged and every other entry is kept |
| Pieces.SwapPermutes | src/main/java/com/davewhitesoftware/woodsywalk/Pieces.java:39-41 | an exchange keeps the multiset of entries |
| Pieces.ShuffleDownPermutes | src/main/java/com/davewhitesoftware/woodsywalk/Pieces.java:35-42 | the loop's passes from any position down to 1 keep the multiset of entries |
| Pieces.FisherYates | src/main/java/com/davewhitesoftware/woodsywalk/Pieces.java:35-42 | the whole shuffle keeps the length |
| Pieces.FisherYatesPermutes | src/main/java/com/davewhitesoftware/woodsywalk/Pieces.java:32-43 | the shuffle is a permutation |
| Pieces.ShuffleArray | src/main/java/com/davewhitesoftware/woodsywalk/Pieces.java:32-43 | the array ends as the Fisher-Yates shuffle of its old contents under the given swap choices, a permutation of them |
| Pieces.Pieces | src/main/java/com/davewhitesoftware/woodsywalk/Pieces.java:45-59 | a new array holding the tile table, shuffled |
| Pieces.ShuffledTable | src/main/java/com/davewhitesoftware/woodsywalk/Pieces.java:45-59 | any rearrangement of the table still has 36 entries, person-free and house-free tiles, with every number 1..36 |
| PieceInfo.Up | src/main/java/com/davewhitesoftware/woodsywalk/PieceInfo.java:57 | agrees with `Pieces.Up` on every piece |
| PieceInfo.Down | src/main/java/com/davewhitesoftware/woodsywalk/PieceInfo.java:58 | agrees with `Pieces.Down` on every piece |
| PieceInfo.Left | src/main/java/com/davewhitesoftware/woodsywalk/PieceInfo.java:59 | agrees with `Pieces.Left` on every piece |
| PieceInfo.Right | src/main/java/com/davewhitesoftware/woodsywalk/PieceInfo.java:60 | agrees with `Pieces.Right` on every piece |
| PieceInfo.Silver | src/main/java/com/davewhitesoftware/woodsywalk/PieceInfo.java:61 | agrees with `Pieces.Silver` on every piece |
| PieceInfo.Gold | src/main/java/com/davewhitesoftware/woodsywalk/PieceInfo.java:62 | agrees with `Pieces.Gold` on every piece |
| PieceInfo.PieceNumber | src/main/java/com/davewhitesoftware/woodsywalk/PieceInfo.java:63 | at most 63, and equal to `Pieces.PieceNumber` |
| PieceInfo.PersonNumber | src/main/java/com/davewhitesoftware/woodsywalk/PieceInfo.java:64 | at most 7, and equal to `Pieces.PersonNumber` |
| PieceInfo.HouseNumber | src/main/java/com/davewhitesoftware/woodsywalk/PieceInfo.java:65 | at most 7, and equal to `Pieces.HouseNumber` |
| PieceInfo.CreatePiece | src/main/java/com/davewhitesoftware/woodsywalk/PieceInfo.java:68-80 | setting the six low bits directly gives the same piece as the `Pieces` constructor, for every input |
| PieceInfo.CreatePieceRoundTrip | src/main/java/com/davewhitesoftware/woodsywalk/PieceInfo.java:68-80 | for in-range fields every extractor gives back what was packed |
| PieceInfo.TakeCoins | src/main/java/com/davewhitesoftware/woodsywalk/PieceInfo.java:83-86 | equal to `Pieces.TakeCoins`: no coins, bits 2-17 kept |
| PieceInfo.SetHouseNumber | src/main/java/com/davewhitesoftware/woodsywalk/PieceInfo.java:87-90 | equal to `Pieces.SetHouseNumber`: new house colour, bits 0-14 kept |
| PieceInfo.SetPersonNumber | src/main/java/com/davewhitesoftware/woodsywalk/PieceInfo.java:91-94 | equal to `Pieces.SetPersonNumber`: new person colour, bits 0-11 and 15-17 kept |
| PieceInfo.ShuffleArray | src/main/java/com/davewhitesoftware/woodsywalk/PieceInfo.java:27-38 | the array ends as the Fisher-Yates shuffle of its old contents, a permutation of them |
| PieceInfo.Pieces | src/main/java/com/davewhitesoftware/woodsywalk/PieceInfo.java:40-54 | a new array holding the same 36-tile table, shuffled |
| BoardData.IsValidCoords | src/main/java/com/davewhitesoftware/woodsywalk/WoodsyBoardData.java:66-72 | holds iff 0 <= x < 8 and 0 <= y < 7 |
| BoardData.IsOnEdge | src/main/java/com/davewhitesoftware/woodsywalk/WoodsyBoardData.java:73-79 | holds iff the position is on the board and in its first or last row or column |
| BoardData.Distance | src/main/java/com/davewhitesoftware/woodsywalk/WoodsyBoardData.java:81-86 | Integer.MAX_VALUE when either position is not found, else the Manhattan distance; never negative |
| BoardData.DistanceSymmetric | src/main/java/com/davewhitesoftware/woodsywalk/WoodsyBoardData.java:81-86 | the distance is symmetric |
| BoardData.DistanceZero | src/main/java/com/davewhitesoftware/woodsywalk/WoodsyBoardData.java:81-86 | the distance is 0 iff both positions are found and equal |
| BoardData.CreateGoalPiece | src/main/java/com/davewhitesoftware/woodsywalk/WoodsyBoardData.java:100-106 | green grass (number 60) with the given colours and no coins; a road stub points inward from each edge the cell lies on (two at a corner, none for an inner cell) and there is no other stub |
| BoardData.Get | src/main/java/com/davewhitesoftware/woodsywalk/WoodsyBoardData.java:32-36 | the cell at column x, row y; 0 for a position off the board |
| BoardData.Set | src/main/java/com/davewhitesoftware/woodsywalk/WoodsyBoardData.java:37-41 | reading any cell of the result gives p at (x, y) when on the board, and the old piece everywhere else |
| BoardData.GetAt | src/main/java/com/davewhitesoftware/woodsywalk/WoodsyBoardData.java:42-45 | the Failure piece for a not-found position, else the cell |
| BoardData.SetAt | src/main/java/com/davewhitesoftware/woodsywalk/WoodsyBoardData.java:46-49 | no change for a not-found position, else the cell update |
| BoardData.GetSetAt | src/main/java/com/davewhitesoftware/woodsywalk/WoodsyBoardData.java:42-49 | reading a written cell gives the written piece; every other cell is unchanged |
| BoardData.InitialGrid | src/main/java/com/davewhitesoftware/woodsywalk/WoodsyBoardData.java:14-27 | a 7-by-8 grid whose cell at row i, column j is the new-board piece for that position |
| BoardData.InitialGridCells | src/main/java/com/davewhitesoftware/woodsywalk/WoodsyBoardData.java:19-26 | a new board has green grass exactly on the edge and blank cells inside |
| BoardData.FirstCellFrom | src/main/java/com/davewhitesoftware/woodsywalk/WoodsyBoardData.java:51-57 | the row-major scan from position k: the first matching cell, or (0, 0, not found) when no cell from k on matches |
| BoardData.FirstCell | src/main/java/com/davewhitesoftware/woodsywalk/WoodsyBoardData.java:51-64 | the first cell in row-major order with the given colour, and no earlier cell has it; (0, 0, not found) iff no cell has it |
| BoardData.FirstCellAt | src/main/java/com/davewhitesoftware/woodsywalk/WoodsyBoardData.java:51-64 | a match with no match before it is what the scan returns |
| BoardData.FirstCellNone | src/main/java/com/davewhitesoftware/woodsywalk/WoodsyBoardData.java:51-64 | with no matching cell the scan returns (0, 0, not found) |
| BoardData.PartnerDistance | src/main/java/com/davewhitesoftware/woodsywalk/WoodsyBoardData.java:87-97 | a person's distance to its house, a house's distance to its person, Integer.MAX_VALUE for anything else |
| BoardData.NotHomeNotWinning | src/main/java/com/davewhitesoftware/woodsywalk/WoodsyBoardData.java:108-118 | one colour 1..4 without its house and person on the same cell makes the board not winning |
| BoardData.InitialNotWinning | src/main/java/com/davewhitesoftware/woodsywalk/WoodsyBoardData.java:108-118 | a new board is not winning |
| BoardData.CopyGrid | src/main/java/com/davewhitesoftware/woodsywalk/WoodsyBoardData.java:120-126 | copyFrom's whole loop gives a 7-by-8 grid; its cells are described by CopyGridTransposes |
| BoardData.CopyStepsCells | src/main/java/com/davewhitesoftware/woodsywalk/WoodsyBoardData.java:121-125 | after k iterations, cell (x, y) holds the source's cell at row x, column y if that iteration has run, else its old piece |
| BoardData.CopyStep | src/main/java/com/davewhitesoftware/woodsywalk/WoodsyBoardData.java:123 | one more iteration writes source row i, column j to column i, row j |
| BoardData.CopyGridTransposes | src/main/java/com/davewhitesoftware/woodsywalk/WoodsyBoardData.java:120-126 | copyFrom transposes columns 0-6 of the source and leaves the target's column 7 unchanged |
| BoardData.CopyOfInitialGrid | src/main/java/com/davewhitesoftware/woodsywalk/WoodsyBoardData.java:120-126 | copying a new board turns an edge cell into a blank one and an inner cell into green grass |
| BoardData.WoodsyBoardData.constructor | src/main/java/com/davewhitesoftware/woodsywalk/WoodsyBoardData.java:14-27 | a new 7-by-8 array holding the new-board grid |
| BoardData.WoodsyBoardData.GetCell | src/main/java/com/davewhitesoftware/woodsywalk/WoodsyBoardData.java:32-36 | reads the grid cell, 0 off the board |
| BoardData.WoodsyBoardData.SetCell | src/main/java/com/davewhitesoftware/woodsywalk/WoodsyBoardData.java:37-41 | the new grid is the old one with that cell set, unchanged off the board |
| BoardData.WoodsyBoardData.GetCellAt | src/main/java/com/davewhitesoftware/woodsywalk/WoodsyBoardData.java:42-45 | reads by coordinates, the Failure piece when not found |
| BoardData.WoodsyBoardData.SetCellAt | src/main/java/com/davewhitesoftware/woodsywalk/WoodsyBoardData.java:46-49 | writes by coordinates, no change when not found |
| BoardData.WoodsyBoardData.LocatePerson | src/main/java/com/davewhitesoftware/woodsywalk/WoodsyBoardData.java:51-57 | the nested loop returns the first person of that colour in row-major order, or not found |
| BoardData.WoodsyBoardData.LocateHouse | src/main/java/com/davewhitesoftware/woodsywalk/WoodsyBoardData.java:58-64 | the nested loop returns the first house of that colour in row-major order, or not found |
| BoardData.WoodsyBoardData.DistanceToPartner | src/main/java/com/davewhitesoftware/woodsywalk/WoodsyBoardData.java:87-97 | the partner distance on the board's grid; Integer.MAX_VALUE for a piece that is neither a pure person nor a pure house |
| BoardData.WoodsyBoardData.IsWinningBoard | src/main/java/com/davewhitesoftware/woodsywalk/WoodsyBoardData.java:108-118 | true iff for every colour 1..4 a house and a person are found and the first of each is on the same cell |
| BoardData.WoodsyBoardData.CopyFrom | src/main/java/com/davewhitesoftware/woodsywalk/WoodsyBoardData.java:120-126 | the board's new grid is copyFrom's loop applied to its old grid and the source's grid |
| BoardData.WoodsyBoardData.CopyRow | src/main/java/com/davewhitesoftware/woodsywalk/WoodsyBoardData.java:122-124 | the inner loop performs the eight iterations of source row i |
| GameData.Latch | src/main/java/com/davewhitesoftware/woodsywalk/WoodsyGameData.java:138-143 | the turn is finished iff it already was or the queue is empty; nothing else changes |
| GameData.Fail | src/main/java/com/davewhitesoftware/woodsywalk/WoodsyGameData.java:157-161 | returns the Failure piece and records the error; nothing else changes |
| GameData.PiecePlayed | src/main/java/com/davewhitesoftware/woodsywalk/WoodsyGameData.java:168-173 | the queue's head moves to the end of the played list (no change on an empty queue); the two lists together keep their multiset; nothing else changes |
| GameData.AddScore | src/main/java/com/davewhitesoftware/woodsywalk/WoodsyGameData.java:175-179 | the current participant's score grows by x; every other score and field is kept |
| GameData.CoinPoints | src/main/java/com/davewhitesoftware/woodsywalk/WoodsyGameData.java:214-218 | a cell's coins are worth 0 to 3 points, 0 iff it has no coin |
| GameData.ColourIndex | src/main/java/com/davewhitesoftware/woodsywalk/WoodsyGameData.java:221-223 | the array index is the colour number itself, within the array of four iff the colour is below 4 |
| GameData.CoinScore | src/main/java/com/davewhitesoftware/woodsywalk/WoodsyGameData.java:214-218 | the current participant scores the coin points of the entered cell; nothing else changes |
| GameData.GoalPoints | src/main/java/com/davewhitesoftware/woodsywalk/WoodsyGameData.java:221-223 | the current participant scores the colour's goal points, which then drop by one but not below 0; other colours and fields are kept |
| GameData.WinClaimed | src/main/java/com/davewhitesoftware/woodsywalk/WoodsyGameData.java:225 | a winning board makes the current participant the winner; otherwise nothing changes |
| GameData.Departed | src/main/java/com/davewhitesoftware/woodsywalk/WoodsyGameData.java:208-212 | the old cell loses its person, one move is used and the tracked position becomes the target; nothing else changes |
| GameData.Arrived | src/main/java/com/davewhitesoftware/woodsywalk/WoodsyGameData.java:219-229 | the index fails exactly at a goal of colour 4 or more; otherwise the play succeeds and the target cell is written; off the goal winner, goal points and scores are kept; at the goal of colour 1-3 the winner becomes the current participant iff the board before the target write is winning (else it is kept), and that colour's goal points drop by one, floored at 0, with the other colours kept |
| GameData.MoveOn | src/main/java/com/davewhitesoftware/woodsywalk/WoodsyGameData.java:207-229 | a step that goes ahead ends in Success or in the index failure, and keeps the turn invariant and the moving flag |
| GameData.PersonOfCell | src/main/java/com/davewhitesoftware/woodsywalk/WoodsyGameData.java:197-199 | the colour read through getPersonPieceFrom is the cell's person number, 0 when no person is there |
| GameData.MoverCell | src/main/java/com/davewhitesoftware/woodsywalk/WoodsyGameData.java:197 | the cell at the tracked position, the Failure piece when it is not found |
| GameData.MoverColour | src/main/java/com/davewhitesoftware/woodsywalk/WoodsyGameData.java:197-199 | the moving person's colour is the person number of its cell |
| GameData.MoveStep | src/main/java/com/davewhitesoftware/woodsywalk/WoodsyGameData.java:194-230 | a rejected step changes only the error, which is set; the turn invariant and the moving flag are kept |
| GameData.PlaceStep | src/main/java/com/davewhitesoftware/woodsywalk/WoodsyGameData.java:231-242 | returns Success or Failure; a rejection changes only the error; the turn invariant and the moving flag are kept |
| GameData.PlayAt | src/main/java/com/davewhitesoftware/woodsywalk/WoodsyGameData.java:181-248 | a rejected play changes only the error and the finished latch, which it sets only for an empty queue; nothing sets the moving flag |
| GameData.DiscardAt | src/main/java/com/davewhitesoftware/woodsywalk/WoodsyGameData.java:250-258 | a discard either fails or falls off the end of the method; the moving flag is kept |
| GameData.PlayAtGuards | src/main/java/com/davewhitesoftware/woodsywalk/WoodsyGameData.java:187-191 | no moves left, then an empty or finished queue, then invalid coordinates each fail with their own error and no other change |
| GameData.CombineOnGreenGrass | src/main/java/com/davewhitesoftware/woodsywalk/WoodsyGameData.java:235-238 | a figure combined onto green grass is never the Failure piece and carries the figure's colour, so the unexpected-problem rejection cannot occur |
| GameData.PlayAtDispatch | src/main/java/com/davewhitesoftware/woodsywalk/WoodsyGameData.java:194-247 | past the guards: a person moves while a person is moving, a figure is placed otherwise, any tile falls off the end |
| GameData.PlacementAccepted | src/main/java/com/davewhitesoftware/woodsywalk/WoodsyGameData.java:233-241 | a placement succeeds iff the target is on the edge, holds plain green grass and is at least 5 from the partner on the board before placement |
| GameData.PlacementEffect | src/main/java/com/davewhitesoftware/woodsywalk/WoodsyGameData.java:237-241 | an accepted placement writes the combined piece, plays the queue's head and changes nothing else |
| GameData.MoveAccepted | src/main/java/com/davewhitesoftware/woodsywalk/WoodsyGameData.java:200-205 | a step fails unless the cells connect by road and an edge target is the goal; an allowed step succeeds or hits the index failure |
| GameData.MoveEffect | src/main/java/com/davewhitesoftware/woodsywalk/WoodsyGameData.java:207-223 | an allowed step uses one move, moves the tracked position, scores the target's coins and, at the goal, the colour's goal points; it fails on the index iff at the goal with colour 4 or more; a step off the goal keeps goal points and winner; at the goal of colour 1-3 that colour's goal points drop by one, floored at 0, the others are kept, and the winner becomes the current participant iff the board after the departure and before the target write is winning, else it is kept |
| GameData.DepartedGrid | src/main/java/com/davewhitesoftware/woodsywalk/WoodsyGameData.java:208-210 | the board the winner test sees: the mover's cell with its person taken off, every other cell as before the step |
| GameData.MoveCells | src/main/java/com/davewhitesoftware/woodsywalk/WoodsyGameData.java:208-228 | after an allowed step the old cell holds no person and the target holds the person, its coins untouched |
| GameData.GoalNeverMatchesPlacedFigure | src/main/java/com/davewhitesoftware/woodsywalk/WoodsyGameData.java:200-201 | a goal piece never equals green grass, with or without a placed figure, so a person never reaches a house the game placed |
| GameData.DiscardRule | src/main/java/com/davewhitesoftware/woodsywalk/WoodsyGameData.java:250-258 | a discard fails iff a person moves or p is a pure house or person, with the errors in that order; a tile leaves everything unchanged |
| GameData.PairPieces | src/main/java/com/davewhitesoftware/woodsywalk/WoodsyGameData.java:113-118 | after k rounds the queue has at most 2k pieces, all taken from the two lists |
| GameData.PairPiecesAlternate | src/main/java/com/davewhitesoftware/woodsywalk/WoodsyGameData.java:113-118 | with both lists long enough, the queue is person 0, house 0, person 1, house 1, … |
| GameData.NumPairs | src/main/java/com/davewhitesoftware/woodsywalk/WoodsyGameData.java:111-112 | two pairs iff there are exactly two participants, else one |
| GameData.TurnPieces | src/main/java/com/davewhitesoftware/woodsywalk/WoodsyGameData.java:108-124 | the pairs while persons remain, else the head of the participant's queue (nothing if it is empty) |
| GameData.StartingPersons | src/main/java/com/davewhitesoftware/woodsywalk/WoodsyGameData.java:51-55 | four pure persons of colours 1 to 4 |
| GameData.StartingHouses | src/main/java/com/davewhitesoftware/woodsywalk/WoodsyGameData.java:51-55 | four pure houses of colours 1 to 4 |
| GameData.StartingTables | src/main/java/com/davewhitesoftware/woodsywalk/WoodsyGameData.java:50-55 | the loop builds exactly the starting persons, houses and a new goal-points array of four 5s |
| GameData.StartingEntry | src/main/java/com/davewhitesoftware/woodsywalk/WoodsyGameData.java:52-53 | colour i's entries are the house and person of colour i |
| GameData.TurnPiecesAtStart | src/main/java/com/davewhitesoftware/woodsywalk/WoodsyGameData.java:110-119 | with the starting lists a turn plays person 1, house 1 and, in a two-player game, person 2, house 2 |
| GameData.RegisterNew | src/main/java/com/davewhitesoftware/woodsywalk/WoodsyGameData.java:80-84 | registering a new id keeps the participant list duplicate-free and its score, board and queue maps in agreement |
| GameData.AddIdsSpec | src/main/java/com/davewhitesoftware/woodsywalk/WoodsyGameData.java:66-68 | the constructor's loop keeps the list duplicate-free and extends it, and its ids are exactly the old ones plus the non-null inputs |
| GameData.AddIdsStep | src/main/java/com/davewhitesoftware/woodsywalk/WoodsyGameData.java:66-68 | one more input is one more round of the loop |
| GameData.DropToSize | src/main/java/com/davewhitesoftware/woodsywalk/WoodsyGameData.java:88-89 | removing from the front while longer than n leaves the last n pieces, or all of them when there are fewer |
| GameData.WoodsyGameData.constructor | src/main/java/com/davewhitesoftware/woodsywalk/WoodsyGameData.java:44-69 | a valid game with the starting persons and houses, four goal points of 5, the shuffled bag with 36 as minimum, the non-null ids without repeats, every participant new, and no turn started |
| GameData.WoodsyGameData.JoinAll | src/main/java/com/davewhitesoftware/woodsywalk/WoodsyGameData.java:66-68 | each non-null id joins unless already present; the game stays valid with every participant new |
| GameData.WoodsyGameData.AddParticipantIfNeeded | src/main/java/com/davewhitesoftware/woodsywalk/WoodsyGameData.java:77-91 | a known id changes nothing; a new one joins, with a fresh board |
| GameData.WoodsyGameData.AddParticipant | src/main/java/com/davewhitesoftware/woodsywalk/WoodsyGameData.java:81-89 | the new id is last in the list, with score 0, a new empty board and the bag shortened to the minimum as queue; nothing else changes |
| GameData.WoodsyGameData.Register | src/main/java/com/davewhitesoftware/woodsywalk/WoodsyGameData.java:81-84 | registering the id with its board and queue keeps the bookkeeping and every board valid |
| GameData.WoodsyGameData.Insert | src/main/java/com/davewhitesoftware/woodsywalk/WoodsyGameData.java:81-84 | the id is appended and mapped to score 0, its board and its queue |
| GameData.WoodsyGameData.JoinKeepsAllNew | src/main/java/com/davewhitesoftware/woodsywalk/WoodsyGameData.java:77-91 | a join, or a step that changes nothing, keeps every participant in its starting state |
| GameData.WoodsyGameData.BagQueue | src/main/java/com/davewhitesoftware/woodsywalk/WoodsyGameData.java:87-89 | copying the bag and dropping from the front gives the last minPiecesLeft pieces of the bag |
| GameData.WoodsyGameData.GetBoard | src/main/java/com/davewhitesoftware/woodsywalk/WoodsyGameData.java:94-97 | the participant's board, valid and distinct from the current board, or None (Java's null) for an unknown id |
| GameData.WoodsyGameData.BeginTurn | src/main/java/com/davewhitesoftware/woodsywalk/WoodsyGameData.java:99-131 | the current board gets copyFrom of the participant's board; the queue is the turn's pieces; the moving state, latch and error are reset |
| GameData.WoodsyGameData.NewTurn | src/main/java/com/davewhitesoftware/woodsywalk/WoodsyGameData.java:102-130 | the turn fields of a new turn of the participant; the game stays valid |
| GameData.WoodsyGameData.LoadBoard | src/main/java/com/davewhitesoftware/woodsywalk/WoodsyGameData.java:103 | the current board gets copyFrom of the participant's board |
| GameData.WoodsyGameData.StartTurn | src/main/java/com/davewhitesoftware/woodsywalk/WoodsyGameData.java:125-130 | the participant and queue are set; the played list, moving state, latch, tracked position and error are reset |
| GameData.WoodsyGameData.TurnQueue | src/main/java/com/davewhitesoftware/woodsywalk/WoodsyGameData.java:108-124 | the loop computes the turn's pieces |
| GameData.WoodsyGameData.RewindTurn | src/main/java/com/davewhitesoftware/woodsywalk/WoodsyGameData.java:133-136 | begins the current participant's turn again |
| GameData.WoodsyGameData.PiecesLeft | src/main/java/com/davewhitesoftware/woodsywalk/WoodsyGameData.java:138-143 | latches the finished flag and answers whether the turn goes on, which needs a non-empty queue |
| GameData.WoodsyGameData.GetNextPiece | src/main/java/com/davewhitesoftware/woodsywalk/WoodsyGameData.java:145-150 | End of Turn once the turn is finished, else the queue's head, which stays queued |
| GameData.WoodsyGameData.SetFailure | src/main/java/com/davewhitesoftware/woodsywalk/WoodsyGameData.java:157-161 | records the error and returns the Failure piece |
| GameData.WoodsyGameData.SetCurrentPiecePlayed | src/main/java/com/davewhitesoftware/woodsywalk/WoodsyGameData.java:168-173 | moves the queue's head to the played list |
| GameData.WoodsyGameData.IncrementScore | src/main/java/com/davewhitesoftware/woodsywalk/WoodsyGameData.java:175-179 | adds x to the current participant's score |
| GameData.WoodsyGameData.MovingPersonMovesLeft | src/main/java/com/davewhitesoftware/woodsywalk/WoodsyGameData.java:265-268 | 0 unless a person moves, else the moves left |
| GameData.WoodsyGameData.PlayPieceAt | src/main/java/com/davewhitesoftware/woodsywalk/WoodsyGameData.java:181-248 | the outcome and new turn state are exactly PlayAt of the old state, so every rule lemma above holds of it |
| GameData.WoodsyGameData.PlaceFigure | src/main/java/com/davewhitesoftware/woodsywalk/WoodsyGameData.java:231-242 | the house-or-person branch: outcome and new state are PlaceStep of the old state |
| GameData.WoodsyGameData.PutPiece | src/main/java/com/davewhitesoftware/woodsywalk/WoodsyGameData.java:239-240 | writes the cell, then plays the queue's head |
| GameData.WoodsyGameData.MovePerson | src/main/java/com/davewhitesoftware/woodsywalk/WoodsyGameData.java:194-230 | the moving-person branch: outcome and new state are MoveStep of the old state |
| GameData.WoodsyGameData.EnterCell | src/main/java/com/davewhitesoftware/woodsywalk/WoodsyGameData.java:207-229 | the move, its coins and its goal: outcome and new state are MoveOn of the old state |
| GameData.WoodsyGameData.Arrive | src/main/java/com/davewhitesoftware/woodsywalk/WoodsyGameData.java:219-229 | the goal scoring and the target write: outcome and new state are Arrived of the old state |
| GameData.WoodsyGameData.CollectCoins | src/main/java/com/davewhitesoftware/woodsywalk/WoodsyGameData.java:214-216 | scores gold then silver for the current participant |
| GameData.WoodsyGameData.Depart | src/main/java/com/davewhitesoftware/woodsywalk/WoodsyGameData.java:208-212 | takes the person off its cell, uses a move and tracks the target |
| GameData.WoodsyGameData.ScoreGoal | src/main/java/com/davewhitesoftware/woodsywalk/WoodsyGameData.java:221-223 | scores the colour's goal points, which drop by one but not below 0 |
| GameData.WoodsyGameData.DeclareWinner | src/main/java/com/davewhitesoftware/woodsywalk/WoodsyGameData.java:225 | a winning current board makes the current participant the winner |
| GameData.WoodsyGameData.PlayPieceDiscard | src/main/java/com/davewhitesoftware/woodsywalk/WoodsyGameData.java:250-258 | the outcome and new state are exactly DiscardAt of the old state |

## Left out

- Android: the `Context` that `beginTurn` stores and `getString`, which turns resource ids into messages. An error is the symbolic `ErrorCode` here.
- `java.util.Random` in `shuffleArray`: the random index drawn at each position is the `picks` parameter, and `ValidPicks` states its range.
- Serialisation: `Serializable`, `serialVersionUID` and the `transient` markers have no effect on the rules.
- `endTurn` (WoodsyGameData.java:275-281) does not compile: it calls a `getIndex` that does not exist, indexes a map as an array and lacks a semicolon. Nothing commits a turn, so no turn changes the remaining persons and houses, a participant's queue, a participant's board or `minPiecesLeft`.
- The road-tile branch of `playPieceAt` and the accepting path of `playPieceDiscard` have no code, so neither method compiles as written (missing return statement). They are the `NoReturn` outcome with no state change.
- Plain accessors have no member of their own. `getHeight`/`getWidth` are `Height`/`Width`, `numberOfPeople` is `NumberOfPeople`, `pointsForGold`/`pointsForSilver`/`maxPointsForGoal` are constants. `getLastErrorMessage`, `movingPerson`, `getCurrentBoard` and `getWinner` read a field of `WoodsyGameData` directly.
- `Pieces.Up` to `Pieces.Gold`: single-bit tests with no contract of their own; every other member's contract is stated through them.
- Java `int` overflow of coordinates, scores and move counters is not modelled; only pieces are 32-bit values.
- `GameData.WoodsyGameData.BeginTurn`: requires a known participant. For an unknown id, `copyFrom(null)` throws a NullPointerException, which is not modelled.
- `GameData.WoodsyGameData.RewindTurn`: requires that a turn has begun. Before that the current participant is null and the source throws.
- `BoardData.WoodsyBoardData.CopyFrom`: requires a source board other than the target, as every call in the game passes; copying a board onto itself is not modelled.
- `GameData.WoodsyGameData.PlayPieceAt`: requires the turn invariant (`TurnReady`): a valid current board, four goal-point entries and a current participant with a score whenever one is set. Its branches are split into `PlaceFigure`, `PutPiece`, `MovePerson`, `EnterCell`, `Depart`, `CollectCoins`, `Arrive`, `ScoreGoal` and `DeclareWinner`. Each is proved against its own piece of `PlayAt`.
- `GameData.WoodsyGameData.AddParticipantIfNeeded`: requires the invariant on the participants' bookkeeping, not the whole game invariant. The source calls it only from the constructor, while that invariant is being built. Its work is split into `AddParticipant`, `BagQueue`, `Register` and `Insert`.
- `GameData.WoodsyGameData.BeginTurn`: split into `LoadBoard`, then `NewTurn` (`TurnQueue`, `StartTurn`). The per-turn reset of the moving state is stated in each of them.
- `GameData.WoodsyGameData.GetBoard`: `None` stands for Java's `null`.
- Aliasing between participants' boards is excluded by the game invariant: each participant has a board object of its own.
