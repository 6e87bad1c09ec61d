/** The piece codec.  A piece is a Java `int` used as an 18-bit record:

      bits 17-15  house colour (0 = no house, 1..4 a colour)
      bits 14-12  person colour (0 = no person, 1..4 a colour)
      bits 11-6   piece number (60 green grass, 61 failure, 62 success,
                  63 end of turn, 1..36 the road tiles)
      bit 5 up, bit 4 down, bit 3 left, bit 2 right (road stubs)
      bit 1 silver coin, bit 0 gold coin

    A Java `int` is 32 bits wide, so a piece is a `bv32` here and every
    operation is the same bit arithmetic, including what it does to bits
    18-31 of an argument. */
module Pieces {

  type Piece = bv32

  /** Number of person/house colour pairs in the game. */
  const NumberOfPeople: bv32 := 4

  // ---------------------------------------------------------------------
  // Field extractors

  predicate Up(p: Piece) { p & 0x20 != 0 }
  predicate Down(p: Piece) { p & 0x10 != 0 }
  predicate Left(p: Piece) { p & 0x8 != 0 }
  predicate Right(p: Piece) { p & 0x4 != 0 }
  predicate Silver(p: Piece) { p & 0x2 != 0 }
  predicate Gold(p: Piece) { p & 0x1 != 0 }

  function PieceNumber(p: Piece): (r: bv32)
    ensures r < 64
  {
    (p >> 6) & 0x3F
  }

  function PersonNumber(p: Piece): (r: bv32)
    ensures r < 8
  {
    (p >> 12) & 0x7
  }

  function HouseNumber(p: Piece): (r: bv32)
    ensures r < 8
  {
    (p >> 15) & 0x7
  }

  /** No road stub and no coin. */
  predicate Bare(p: Piece) {
    !Up(p) && !Down(p) && !Left(p) && !Right(p) && !Silver(p) && !Gold(p)
  }

  /** The six low bits (roads and coins) of `p` and `q` agree. */
  predicate SameRoadsAndCoins(p: Piece, q: Piece) {
    Up(p) == Up(q) && Down(p) == Down(q) && Left(p) == Left(q) && Right(p) == Right(q)
    && Silver(p) == Silver(q) && Gold(p) == Gold(q)
  }

  // ---------------------------------------------------------------------
  // Classification.  Only bits 0-17 are inspected: bits 18-31 are ignored.

  /** Just a house: every field but the house colour is zero. */
  predicate IsHouse(p: Piece)
    ensures IsHouse(p) <==> PieceNumber(p) == 0 && PersonNumber(p) == 0 && Bare(p)
  {
    p & 0x7FFF == 0
  }

  /** Just a person: every field but the person colour is zero. */
  predicate IsPerson(p: Piece)
    ensures IsPerson(p) <==> PieceNumber(p) == 0 && HouseNumber(p) == 0 && Bare(p)
  {
    p & 0x38FFF == 0
  }

  /** A person and/or a house and nothing else. */
  predicate IsPersonAndHouse(p: Piece)
    ensures IsPersonAndHouse(p) <==> PieceNumber(p) == 0 && Bare(p)
    ensures IsPerson(p) || IsHouse(p) ==> IsPersonAndHouse(p)
  {
    p & 0xFFF == 0
  }

  /** A pure person or a pure house: what can be placed on green grass
      and combined into a tile. */
  predicate IsFigure(p: Piece) {
    IsPerson(p) || IsHouse(p)
  }

  /** Anything with a piece number, a road or a coin. */
  predicate IsTile(p: Piece)
    ensures IsTile(p) <==> PieceNumber(p) != 0 || !Bare(p)
    ensures IsTile(p) <==> !IsPersonAndHouse(p)
  {
    !IsHouse(p) && !IsPerson(p) && !IsPersonAndHouse(p)
  }

  /** The all-zero piece, which counts as a person, a house and both. */
  predicate IsBlank(p: Piece)
    ensures IsBlank(p) ==> IsPerson(p) && IsHouse(p) && IsPersonAndHouse(p) && !IsTile(p)
  {
    p == 0
  }

  /** Looser than IsEndOfTurnPiece: only the piece number is checked. */
  predicate IsEndOfTurn(p: Piece)
    ensures IsEndOfTurnPiece(p) ==> IsEndOfTurn(p)
  {
    PieceNumber(p) == 63
  }

  /** How many steps a person may take: the number of road stubs. */
  function NumberMoves(p: Piece): (r: int)
    ensures 0 <= r <= 4
    ensures r == 0 <==> !Up(p) && !Down(p) && !Left(p) && !Right(p)
    ensures r == 4 <==> Up(p) && Down(p) && Left(p) && Right(p)
  {
    (if Up(p) then 1 else 0) + (if Down(p) then 1 else 0)
    + (if Left(p) then 1 else 0) + (if Right(p) then 1 else 0)
  }

  function Abs(x: int): int { if x < 0 then -x else x }

  /** Whether a person may step from piece `a` at (aX, aY) to piece `b` at
      (bX, bY): the cells are orthogonal neighbours and both stubs on their
      shared edge are present. */
  predicate PiecesConnect(a: Piece, b: Piece, aX: int, aY: int, bX: int, bY: int)
    ensures PiecesConnect(a, b, aX, aY, bX, bY) <==>
      || (aX == bX && aY + 1 == bY && Down(a) && Up(b))
      || (aX == bX && aY == bY + 1 && Up(a) && Down(b))
      || (aY == bY && aX + 1 == bX && Right(a) && Left(b))
      || (aY == bY && aX == bX + 1 && Left(a) && Right(b))
  {
    if Abs(aX - bX) > 1 then false
    else if Abs(aY - bY) > 1 then false
    else if aX == bX && aY == bY then false
    else if aX == bX && aY < bY && Down(a) && Up(b) then true
    else if aX == bX && aY > bY && Up(a) && Down(b) then true
    else if aY == bY && aX < bX && Right(a) && Left(b) then true
    else if aY == bY && aX > bX && Left(a) && Right(b) then true
    else false
  }

  lemma PiecesConnectSymmetric(a: Piece, b: Piece, aX: int, aY: int, bX: int, bY: int)
    ensures PiecesConnect(a, b, aX, aY, bX, bY) == PiecesConnect(b, a, bX, bY, aX, aY)
  {
  }

  /** Connection needs two distinct cells at distance one on a single axis. */
  lemma PiecesConnectOnlyNeighbours(a: Piece, b: Piece, aX: int, aY: int, bX: int, bY: int)
    requires PiecesConnect(a, b, aX, aY, bX, bY)
    ensures Abs(aX - bX) + Abs(aY - bY) == 1
  {
  }

  // ---------------------------------------------------------------------
  // Setting roads and coins: both only OR bits in.

  function SetDirections(p: Piece, up: bool, down: bool, left: bool, right: bool): (r: Piece)
    ensures Up(r) == (Up(p) || up) && Down(r) == (Down(p) || down)
    ensures Left(r) == (Left(p) || left) && Right(r) == (Right(p) || right)
    ensures r & 0xFFFF_FFC3 == p & 0xFFFF_FFC3
  {
    p | (if up then 0x20 else 0) | (if down then 0x10 else 0)
      | (if left then 0x8 else 0) | (if right then 0x4 else 0)
  }

  function SetCoins(p: Piece, silver: bool, gold: bool): (r: Piece)
    ensures Silver(r) == (Silver(p) || silver) && Gold(r) == (Gold(p) || gold)
    ensures r & 0xFFFF_FFFC == p & 0xFFFF_FFFC
    ensures !silver && !gold ==> r == p
  {
    if silver && gold then p | 0x3
    else if silver then p | 0x2
    else if gold then p | 0x1
    else p
  }

  function B(b: bool): int { if b then 1 else 0 }

  /** The move budget of a piece built from nothing but road stubs is the
      number of stubs asked for. */
  lemma NumberMovesOfDirections(up: bool, down: bool, left: bool, right: bool)
    ensures NumberMoves(SetDirections(0, up, down, left, right)) == B(up) + B(down) + B(left) + B(right)
  {
  }

  // ---------------------------------------------------------------------
  // Constructors

  /** Packs all nine fields.  Fields that do not fit their width spill into
      neighbouring fields exactly as the Java shifts and ORs do. */
  function CreatePiece(up: bool, down: bool, left: bool, right: bool, silver: bool, gold: bool,
                       pieceNumber: bv32, personNumber: bv32, houseNumber: bv32): (r: Piece)
    ensures pieceNumber < 64 && personNumber < 8 && houseNumber < 8 ==>
      && Up(r) == up && Down(r) == down && Left(r) == left && Right(r) == right
      && Silver(r) == silver && Gold(r) == gold
      && PieceNumber(r) == pieceNumber && PersonNumber(r) == personNumber
      && HouseNumber(r) == houseNumber
      && r < 0x4_0000
  {
    var p := SetDirections(0, up, down, left, right);
    var p := SetCoins(p, silver, gold);
    p | (pieceNumber << 6) | (personNumber << 12) | (houseNumber << 15)
  }

  /** Every 18-bit piece is the packing of its own fields. */
  lemma CreatePieceFromFields(p: Piece)
    requires p < 0x4_0000
    ensures p == CreatePiece(Up(p), Down(p), Left(p), Right(p), Silver(p), Gold(p),
                             PieceNumber(p), PersonNumber(p), HouseNumber(p))
  {
  }

  function CreateHousePiece(h: bv32): (r: Piece)
    ensures h < 8 ==> IsHouse(r) && HouseNumber(r) == h && r < 0x4_0000
  {
    CreatePiece(false, false, false, false, false, false, 0, 0, h)
  }

  function CreatePersonPiece(n: bv32): (r: Piece)
    ensures n < 8 ==> IsPerson(r) && PersonNumber(r) == n && r < 0x4_0000
  {
    CreatePiece(false, false, false, false, false, false, 0, n, 0)
  }

  function CreateBlankPiece(): (r: Piece)
    ensures IsBlank(r)
  {
    0
  }

  /** A sentinel: the given piece number and every other field zero. */
  predicate IsSentinel(p: Piece, number: bv32) {
    PieceNumber(p) == number && PersonNumber(p) == 0 && HouseNumber(p) == 0 && Bare(p) && p < 0x4_0000
  }

  function CreateEndOfTurnPiece(): (r: Piece)
    ensures IsSentinel(r, 63)
  {
    CreatePiece(false, false, false, false, false, false, 63, 0, 0)
  }

  function CreateSuccessPiece(): (r: Piece)
    ensures IsSentinel(r, 62)
  {
    CreatePiece(false, false, false, false, false, false, 62, 0, 0)
  }

  function CreateFailurePiece(): (r: Piece)
    ensures IsSentinel(r, 61)
  {
    CreatePiece(false, false, false, false, false, false, 61, 0, 0)
  }

  function CreateGreenGrassPiece(): (r: Piece)
    ensures IsSentinel(r, 60)
  {
    CreatePiece(false, false, false, false, false, false, 60, 0, 0)
  }

  lemma SentinelsDistinct()
    ensures CreateEndOfTurnPiece() != CreateSuccessPiece()
    ensures CreateEndOfTurnPiece() != CreateFailurePiece()
    ensures CreateEndOfTurnPiece() != CreateGreenGrassPiece()
    ensures CreateSuccessPiece() != CreateFailurePiece()
    ensures CreateSuccessPiece() != CreateGreenGrassPiece()
    ensures CreateFailurePiece() != CreateGreenGrassPiece()
    ensures IsTile(CreateEndOfTurnPiece()) && IsTile(CreateSuccessPiece())
    ensures IsTile(CreateFailurePiece()) && IsTile(CreateGreenGrassPiece())
  {
  }

  /** The pure person of the colour standing on `p`, or Failure if none. */
  function GetPersonPieceFrom(p: Piece): (r: Piece)
    ensures PersonNumber(p) == 0 ==> r == CreateFailurePiece()
    ensures PersonNumber(p) != 0 ==> IsPerson(r) && PersonNumber(r) == PersonNumber(p)
  {
    if PersonNumber(p) == 0 then CreateFailurePiece() else CreatePersonPiece(PersonNumber(p))
  }

  /** The pure house of the colour standing on `p`, or Failure if none. */
  function GetHousePieceFrom(p: Piece): (r: Piece)
    ensures HouseNumber(p) == 0 ==> r == CreateFailurePiece()
    ensures HouseNumber(p) != 0 ==> IsHouse(r) && HouseNumber(r) == HouseNumber(p)
  {
    if HouseNumber(p) == 0 then CreateFailurePiece() else CreateHousePiece(HouseNumber(p))
  }

  // Exact-equality sentinel tests: each holds exactly for the sentinel
  // with that piece number, as the sentinel is 18 bits wide.

  predicate IsEndOfTurnPiece(p: Piece)
    ensures IsEndOfTurnPiece(p) <==> IsSentinel(p, 63)
  {
    p == CreateEndOfTurnPiece()
  }

  predicate IsSuccessPiece(p: Piece)
    ensures IsSuccessPiece(p) <==> IsSentinel(p, 62)
  {
    p == CreateSuccessPiece()
  }

  predicate IsFailurePiece(p: Piece)
    ensures IsFailurePiece(p) <==> IsSentinel(p, 61)
  {
    p == CreateFailurePiece()
  }

  predicate IsGreenGrassPiece(p: Piece)
    ensures IsGreenGrassPiece(p) <==> IsSentinel(p, 60)
  {
    p == CreateGreenGrassPiece()
  }

  /** The end-of-turn test by piece number accepts pieces that the
      exact-equality test rejects. */
  lemma EndOfTurnTestIsLooser()
    ensures IsEndOfTurn(CreateEndOfTurnPiece() | 0x20)
    ensures !IsEndOfTurnPiece(CreateEndOfTurnPiece() | 0x20)
  {
  }

  // ---------------------------------------------------------------------
  // Field overwrites

  /** Clears the two coin bits; keeps bits 2-17 and clears bits 18-31. */
  function TakeCoins(p: Piece): (r: Piece)
    ensures !Silver(r) && !Gold(r)
    ensures Up(r) == Up(p) && Down(r) == Down(p) && Left(r) == Left(p) && Right(r) == Right(p)
    ensures PieceNumber(r) == PieceNumber(p) && PersonNumber(r) == PersonNumber(p)
    ensures HouseNumber(r) == HouseNumber(p)
    ensures r < 0x4_0000
  {
    p & 0x3_FFFC
  }

  /** Overwrites the house colour with `houseNumber & 7`; keeps bits 0-14
      and clears bits 18-31. */
  function SetHouseNumber(p: Piece, houseNumber: bv32): (r: Piece)
    ensures HouseNumber(r) == houseNumber & 7
    ensures PersonNumber(r) == PersonNumber(p) && PieceNumber(r) == PieceNumber(p)
    ensures SameRoadsAndCoins(r, p)
    ensures r < 0x4_0000
  {
    (p & 0x7FFF) | ((houseNumber & 0x7) << 15)
  }

  /** Overwrites the person colour with `personNumber & 7`; keeps bits 0-11
      and 15-17 and clears bits 18-31. */
  function SetPersonNumber(p: Piece, personNumber: bv32): (r: Piece)
    ensures PersonNumber(r) == personNumber & 7
    ensures HouseNumber(r) == HouseNumber(p) && PieceNumber(r) == PieceNumber(p)
    ensures SameRoadsAndCoins(r, p)
    ensures r < 0x4_0000
  {
    (p & 0x3_8FFF) | ((personNumber & 0x7) << 12)
  }

  lemma SetNumbersIdempotent(p: Piece, n: bv32)
    ensures SetPersonNumber(SetPersonNumber(p, n), n) == SetPersonNumber(p, n)
    ensures SetHouseNumber(SetHouseNumber(p, n), n) == SetHouseNumber(p, n)
  {
  }

  /** Puts a pure person or pure house onto a tile, in either argument
      order; any other pairing gives the Failure piece. */
  function CombinePieces(p1: Piece, p2: Piece): (r: Piece)
    ensures (IsPerson(p1) || IsHouse(p1)) && IsTile(p2) ==>
      r == if IsPerson(p1) then SetPersonNumber(p2, PersonNumber(p1)) else SetHouseNumber(p2, HouseNumber(p1))
    ensures (IsPerson(p2) || IsHouse(p2)) && IsTile(p1) ==>
      r == if IsPerson(p2) then SetPersonNumber(p1, PersonNumber(p2)) else SetHouseNumber(p1, HouseNumber(p2))
    ensures !((IsPerson(p1) || IsHouse(p1)) && IsTile(p2)) && !((IsPerson(p2) || IsHouse(p2)) && IsTile(p1)) ==>
      r == CreateFailurePiece()
  {
    var (a, b) := if IsTile(p1) then (p2, p1) else (p1, p2);
    if IsPerson(a) && IsTile(b) then SetPersonNumber(b, PersonNumber(a))
    else if IsHouse(a) && IsTile(b) then SetHouseNumber(b, HouseNumber(a))
    else CreateFailurePiece()
  }

  lemma CombinePiecesCommutative(p1: Piece, p2: Piece)
    ensures CombinePieces(p1, p2) == CombinePieces(p2, p1)
  {
  }

  // ---------------------------------------------------------------------
  // The tile set and the shuffle

  function Tile(number: bv32, bits: bv32): Piece { (number << 6) | bits }

  /** The rows of the source's table of the 36 road tiles, six tiles a
      row; row r holds tile numbers r + 1, r + 7, ..., r + 31. */
  const TileRow0: seq<Piece> := [Tile(1, 0x0C), Tile(7, 0x0C), Tile(13, 0x1E), Tile(19, 0x1A), Tile(25, 0x1C), Tile(31, 0x1C)]
  const TileRow1: seq<Piece> := [Tile(2, 0x3C), Tile(8, 0x3C), Tile(14, 0x26), Tile(20, 0x2A), Tile(26, 0x2E), Tile(32, 0x2C)]
  const TileRow2: seq<Piece> := [Tile(3, 0x0E), Tile(9, 0x0D), Tile(15, 0x0E), Tile(21, 0x0D), Tile(27, 0x30), Tile(33, 0x30)]
  const TileRow3: seq<Piece> := [Tile(4, 0x0C), Tile(10, 0x0C), Tile(16, 0x10), Tile(22, 0x08), Tile(28, 0x34), Tile(34, 0x38)]
  const TileRow4: seq<Piece> := [Tile(5, 0x3C), Tile(11, 0x3C), Tile(17, 0x26), Tile(23, 0x28), Tile(29, 0x34), Tile(35, 0x38)]
  const TileRow5: seq<Piece> := [Tile(6, 0x32), Tile(12, 0x31), Tile(18, 0x32), Tile(24, 0x31), Tile(30, 0x30), Tile(36, 0x30)]

  /** The 36 road tiles, in the order of the source's table. */
  const TileTable: seq<Piece> := TileRow0 + TileRow1 + TileRow2 + TileRow3 + TileRow4 + TileRow5

  /** Tile p has piece number n, no person, no house and nothing above
      bit 17. */
  predicate EntryOk(p: Piece, n: int) {
    && PieceNumber(p) as int == n
    && PersonNumber(p) == 0 && HouseNumber(p) == 0
    && p < 0x4_0000
  }

  /** Entry `k` of the table (row k / 6, column k % 6) has piece number
      6 * (k % 6) + k / 6 + 1. */
  predicate TableEntryOk(k: int)
    requires 0 <= k < |TileTable|
  {
    EntryOk(TileTable[k], 6 * (k % 6) + k / 6 + 1)
  }

  /** Column j of row r carries piece number 6 * j + r + 1. */
  predicate RowOk(row: seq<Piece>, r: int) {
    |row| == 6 && forall j :: 0 <= j < 6 ==> EntryOk(row[j], 6 * j + r + 1)
  }

  /** A row whose six entries are as described is a good row. */
  lemma RowOkByEntries(row: seq<Piece>, r: int)
    requires |row| == 6
    requires EntryOk(row[0], r + 1) && EntryOk(row[1], r + 7) && EntryOk(row[2], r + 13)
    requires EntryOk(row[3], r + 19) && EntryOk(row[4], r + 25) && EntryOk(row[5], r + 31)
    ensures RowOk(row, r)
  {
    forall j | 0 <= j < 6
      ensures EntryOk(row[j], 6 * j + r + 1)
    {
      assert j == 0 || j == 1 || j == 2 || j == 3 || j == 4 || j == 5;
    }
  }

  lemma Row0Ok()
    ensures RowOk(TileRow0, 0)
  {
    assert EntryOk(TileRow0[0], 1); assert EntryOk(TileRow0[1], 7); assert EntryOk(TileRow0[2], 13);
    assert EntryOk(TileRow0[3], 19); assert EntryOk(TileRow0[4], 25); assert EntryOk(TileRow0[5], 31);
    RowOkByEntries(TileRow0, 0);
  }

  lemma Row1Ok()
    ensures RowOk(TileRow1, 1)
  {
    assert EntryOk(TileRow1[0], 2); assert EntryOk(TileRow1[1], 8); assert EntryOk(TileRow1[2], 14);
    assert EntryOk(TileRow1[3], 20); assert EntryOk(TileRow1[4], 26); assert EntryOk(TileRow1[5], 32);
    RowOkByEntries(TileRow1, 1);
  }

  lemma Row2Ok()
    ensures RowOk(TileRow2, 2)
  {
    assert EntryOk(TileRow2[0], 3); assert EntryOk(TileRow2[1], 9); assert EntryOk(TileRow2[2], 15);
    assert EntryOk(TileRow2[3], 21); assert EntryOk(TileRow2[4], 27); assert EntryOk(TileRow2[5], 33);
    RowOkByEntries(TileRow2, 2);
  }

  lemma Row3Ok()
    ensures RowOk(TileRow3, 3)
  {
    assert EntryOk(TileRow3[0], 4); assert EntryOk(TileRow3[1], 10); assert EntryOk(TileRow3[2], 16);
    assert EntryOk(TileRow3[3], 22); assert EntryOk(TileRow3[4], 28); assert EntryOk(TileRow3[5], 34);
    RowOkByEntries(TileRow3, 3);
  }

  lemma Row4Ok()
    ensures RowOk(TileRow4, 4)
  {
    assert EntryOk(TileRow4[0], 5); assert EntryOk(TileRow4[1], 11); assert EntryOk(TileRow4[2], 17);
    assert EntryOk(TileRow4[3], 23); assert EntryOk(TileRow4[4], 29); assert EntryOk(TileRow4[5], 35);
    RowOkByEntries(TileRow4, 4);
  }

  lemma Row5Ok()
    ensures RowOk(TileRow5, 5)
  {
    assert EntryOk(TileRow5[0], 6); assert EntryOk(TileRow5[1], 12); assert EntryOk(TileRow5[2], 18);
    assert EntryOk(TileRow5[3], 24); assert EntryOk(TileRow5[4], 30); assert EntryOk(TileRow5[5], 36);
    RowOkByEntries(TileRow5, 5);
  }

  /** Entries 0..5 of the table are row 0. */
  lemma TableRow0()
    ensures forall k :: 0 <= k < 6 ==> k < |TileTable| && TableEntryOk(k)
  {
    Row0Ok();
    forall k | 0 <= k < 6
      ensures k < |TileTable| && TableEntryOk(k)
    {
      assert TileTable[k] == TileRow0[k];
    }
  }

  /** Entries 6..11 of the table are row 1. */
  lemma TableRow1()
    ensures forall k :: 6 <= k < 12 ==> k < |TileTable| && TableEntryOk(k)
  {
    Row1Ok();
    forall k | 6 <= k < 12
      ensures k < |TileTable| && TableEntryOk(k)
    {
      assert TileTable[k] == TileRow1[k - 6];
    }
  }

  /** Entries 12..17 of the table are row 2. */
  lemma TableRow2()
    ensures forall k :: 12 <= k < 18 ==> k < |TileTable| && TableEntryOk(k)
  {
    Row2Ok();
    forall k | 12 <= k < 18
      ensures k < |TileTable| && TableEntryOk(k)
    {
      assert TileTable[k] == TileRow2[k - 12];
    }
  }

  /** Entries 18..23 of the table are row 3. */
  lemma TableRow3()
    ensures forall k :: 18 <= k < 24 ==> k < |TileTable| && TableEntryOk(k)
  {
    Row3Ok();
    forall k | 18 <= k < 24
      ensures k < |TileTable| && TableEntryOk(k)
    {
      assert TileTable[k] == TileRow3[k - 18];
    }
  }

  /** Entries 24..29 of the table are row 4. */
  lemma TableRow4()
    ensures forall k :: 24 <= k < 30 ==> k < |TileTable| && TableEntryOk(k)
  {
    Row4Ok();
    forall k | 24 <= k < 30
      ensures k < |TileTable| && TableEntryOk(k)
    {
      assert TileTable[k] == TileRow4[k - 24];
    }
  }

  /** Entries 30..35 of the table are row 5. */
  lemma TableRow5()
    ensures forall k :: 30 <= k < 36 ==> k < |TileTable| && TableEntryOk(k)
  {
    Row5Ok();
    forall k | 30 <= k < 36
      ensures k < |TileTable| && TableEntryOk(k)
    {
      assert TileTable[k] == TileRow5[k - 30];
    }
  }

  lemma TileTableEntries()
    ensures |TileTable| == 36
    ensures forall i :: 0 <= i < 36 ==> TableEntryOk(i)
  {
    TableRow0(); TableRow1(); TableRow2(); TableRow3(); TableRow4(); TableRow5();
  }

  /** Some entry of `s` carries piece number `k`. */
  predicate HasNumber(s: seq<Piece>, k: int) {
    exists i :: 0 <= i < |s| && PieceNumber(s[i]) as int == k
  }

  lemma TransposeRange(k: int)
    requires 0 <= k < 36
    ensures 1 <= 6 * (k % 6) + k / 6 + 1 <= 36
  {
  }

  /** Row-major index k maps to 6 * (k % 6) + k / 6, a transposition of the
      6-by-6 table, so no two indices share a number. */
  lemma TransposeInjective(i: int, j: int)
    requires 0 <= i < 36 && 0 <= j < 36
    requires 6 * (i % 6) + i / 6 == 6 * (j % 6) + j / 6
    ensures i == j
  {
    var v := 6 * (i % 6) + i / 6;
    assert v / 6 == i % 6 && v % 6 == i / 6;
    assert v / 6 == j % 6 && v % 6 == j / 6;
  }

  lemma NumberedIsTile(p: Piece)
    requires PieceNumber(p) as int >= 1
    ensures IsTile(p)
  {
    assert PieceNumber(p) != 0;
  }

  /** Every table entry is a tile numbered 1..36 with no person and no
      house. */
  lemma TileTableTiles()
    ensures |TileTable| == 36
    ensures forall i :: 0 <= i < |TileTable| ==>
      && 1 <= PieceNumber(TileTable[i]) as int <= 36 && IsTile(TileTable[i])
      && PersonNumber(TileTable[i]) == 0 && HouseNumber(TileTable[i]) == 0
  {
    TileTableEntries();
    forall i | 0 <= i < 36
      ensures 1 <= PieceNumber(TileTable[i]) as int <= 36 && IsTile(TileTable[i])
      ensures PersonNumber(TileTable[i]) == 0 && HouseNumber(TileTable[i]) == 0
    {
      assert TableEntryOk(i);
      TransposeRange(i);
      NumberedIsTile(TileTable[i]);
    }
  }

  /** No two table entries share a piece number. */
  lemma TileTableDistinct()
    ensures forall i, j :: 0 <= i < j < |TileTable| ==> PieceNumber(TileTable[i]) != PieceNumber(TileTable[j])
  {
    TileTableEntries();
    forall i, j | 0 <= i < j < 36
      ensures PieceNumber(TileTable[i]) != PieceNumber(TileTable[j])
    {
      assert TableEntryOk(i) && TableEntryOk(j);
      if PieceNumber(TileTable[i]) == PieceNumber(TileTable[j]) {
        TransposeInjective(i, j);
      }
    }
  }

  /** Every number 1..36 appears in the table. */
  lemma TileTableComplete()
    ensures forall k :: 1 <= k <= 36 ==> HasNumber(TileTable, k)
  {
    TileTableEntries();
    forall k | 1 <= k <= 36
      ensures HasNumber(TileTable, k)
    {
      var i := 6 * ((k - 1) % 6) + (k - 1) / 6;
      assert i % 6 == (k - 1) / 6 && i / 6 == (k - 1) % 6;
      assert TableEntryOk(i);
    }
  }

  /** Shuffle choices: `picks[i]` is the random index in [0, i] drawn when
      the loop is at position i. */
  predicate ValidPicks(picks: seq<int>, n: int) {
    |picks| == n && forall i :: 0 < i < n ==> 0 <= picks[i] <= i
  }

  /** Exchanges the entries at `i` and `j` (a no-op when they coincide). */
  function Swap(s: seq<Piece>, i: int, j: int): (r: seq<Piece>)
    requires 0 <= i < |s| && 0 <= j < |s|
    ensures |r| == |s| && r[i] == s[j] && r[j] == s[i]
    ensures forall k :: 0 <= k < |s| && k != i && k != j ==> r[k] == s[k]
  {
    s[i := s[j]][j := s[i]]
  }

  /** The Fisher-Yates passes at positions i, i-1, ..., 1 applied to `s`. */
  function ShuffleDown(s: seq<Piece>, picks: seq<int>, i: int): (r: seq<Piece>)
    requires ValidPicks(picks, |s|) && i < |s|
    ensures |r| == |s|
    decreases i
  {
    if i <= 0 then s else ShuffleDown(Swap(s, picks[i], i), picks, i - 1)
  }

  /** The whole shuffle, from the last position down to position 1. */
  function FisherYates(s: seq<Piece>, picks: seq<int>): (r: seq<Piece>)
    requires ValidPicks(picks, |s|)
    ensures |r| == |s|
  {
    ShuffleDown(s, picks, |s| - 1)
  }

  /** An exchange keeps every tile, each as often as before. */
  lemma SwapPermutes(s: seq<Piece>, i: int, j: int)
    requires 0 <= i < |s| && 0 <= j < |s|
    ensures multiset(Swap(s, i, j)) == multiset(s)
  {
  }

  /** The passes from position i down keep every tile, each as often as before. */
  lemma {:induction false} ShuffleDownPermutes(s: seq<Piece>, picks: seq<int>, i: int)
    requires ValidPicks(picks, |s|) && i < |s|
    ensures multiset(ShuffleDown(s, picks, i)) == multiset(s)
    decreases i
  {
    if i > 0 {
      SwapPermutes(s, picks[i], i);
      ShuffleDownPermutes(Swap(s, picks[i], i), picks, i - 1);
    }
  }

  /** The shuffle is a permutation. */
  lemma FisherYatesPermutes(s: seq<Piece>, picks: seq<int>)
    requires ValidPicks(picks, |s|)
    ensures multiset(FisherYates(s, picks)) == multiset(s)
  {
    ShuffleDownPermutes(s, picks, |s| - 1);
  }

  /** Shuffles `ar` in place; `picks` stands for the random generator. */
  method ShuffleArray(ar: array<Piece>, picks: seq<int>)
    requires ValidPicks(picks, ar.Length)
    modifies ar
    ensures ar[..] == FisherYates(old(ar[..]), picks)
    ensures multiset(ar[..]) == multiset(old(ar[..]))
  {
    var i := ar.Length - 1;
    while i > 0
      invariant -1 <= i < ar.Length
      invariant |ar[..]| == ar.Length
      invariant ShuffleDown(ar[..], picks, i) == FisherYates(old(ar[..]), picks)
    {
      var index := picks[i];
      var a := ar[index];
      ar[index] := ar[i];
      ar[i] := a;
      i := i - 1;
    }
    FisherYatesPermutes(old(ar[..]), picks);
  }

  /** A fresh array holding the tile table, shuffled. */
  method Pieces(picks: seq<int>) returns (pieceArray: array<Piece>)
    requires ValidPicks(picks, |TileTable|)
    ensures fresh(pieceArray)
    ensures pieceArray[..] == FisherYates(TileTable, picks)
  {
    pieceArray := new Piece[|TileTable|](i requires 0 <= i < |TileTable| => TileTable[i]);
    assert pieceArray[..] == TileTable;
    ShuffleArray(pieceArray, picks);
  }

  /** Two sequences with the same multiset have the same length and the
      same elements. */
  lemma SameMultisetSameElements(s: seq<Piece>, t: seq<Piece>)
    requires multiset(s) == multiset(t)
    ensures |s| == |t|
    ensures forall x :: x in s <==> x in t
  {
    assert |s| == |multiset(s)| == |multiset(t)| == |t|;
    forall x
      ensures x in s <==> x in t
    {
      assert x in s <==> x in multiset(s);
      assert x in t <==> x in multiset(t);
    }
  }

  /** A rearrangement of a table of person-free, house-free tiles that
      holds every number 1..36 is again such a table. */
  lemma {:induction false} RearrangedTiles(s: seq<Piece>, t: seq<Piece>)
    requires multiset(s) == multiset(t)
    requires forall i :: 0 <= i < |t| ==> IsTile(t[i]) && PersonNumber(t[i]) == 0 && HouseNumber(t[i]) == 0
    requires forall k :: 1 <= k <= 36 ==> HasNumber(t, k)
    ensures |s| == |t|
    ensures forall x :: x in s ==> IsTile(x) && PersonNumber(x) == 0 && HouseNumber(x) == 0
    ensures forall k :: 1 <= k <= 36 ==> HasNumber(s, k)
  {
    SameMultisetSameElements(s, t);
    forall k | 1 <= k <= 36
      ensures HasNumber(s, k)
    {
      assert HasNumber(t, k);
      var j :| 0 <= j < |t| && PieceNumber(t[j]) as int == k;
      assert t[j] in s;
      var i :| 0 <= i < |s| && s[i] == t[j];
    }
  }

  /** Any rearrangement of the table still holds each number 1..36
      and only tiles with no person or house. */
  lemma ShuffledTable(s: seq<Piece>)
    requires multiset(s) == multiset(TileTable)
    ensures |s| == 36
    ensures forall x :: x in s ==> IsTile(x) && PersonNumber(x) == 0 && HouseNumber(x) == 0
    ensures forall k :: 1 <= k <= 36 ==> HasNumber(s, k)
  {
    TileTableTiles();
    TileTableComplete();
    RearrangedTiles(s, TileTable);
  }
}
