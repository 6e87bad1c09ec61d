/** One player's board: a 7-row, 8-column grid of pieces.  The edge cells
    hold the places where people and houses go; road tiles go inside.

    The specification is stated on grid values (`Grid`, a sequence of rows),
    and the class `WoodsyBoardData`, which keeps the cells in a mutable
    two-dimensional array, is proved against it. */
module BoardData {
  import opened Pieces
  import C = Coordinates

  const Height: int := 7
  const Width: int := 8

  /** Java's `Integer.MAX_VALUE`, used as "no distance". */
  const MaxValue: int := 0x7FFF_FFFF

  /** A board's contents: Height rows of Width pieces, indexed [y][x]. */
  type Grid = seq<seq<Piece>>

  predicate IsGrid(g: Grid) {
    |g| == Height && forall y :: 0 <= y < Height ==> |g[y]| == Width
  }

  // ---------------------------------------------------------------------
  // Coordinates on the board

  predicate IsValidCoords(a: C.Coordinates)
    ensures IsValidCoords(a) <==> 0 <= a.x < 8 && 0 <= a.y < 7
  {
    if a.x < 0 || a.y < 0 then false
    else if a.x >= Width then false
    else if a.y >= Height then false
    else true
  }

  /** The border ring of the board, where people and houses are placed. */
  predicate IsOnEdge(a: C.Coordinates)
    ensures IsOnEdge(a) <==> IsValidCoords(a) && (a.x == 0 || a.x == 7 || a.y == 0 || a.y == 6)
    ensures IsOnEdge(a) ==> IsValidCoords(a)
  {
    if !IsValidCoords(a) then false
    else if a.x == 0 || a.x == Width - 1 then true
    else if a.y == 0 || a.y == Height - 1 then true
    else false
  }

  /** Manhattan distance, or MaxValue when either position was not found. */
  function Distance(a: C.Coordinates, b: C.Coordinates): (r: int)
    ensures a.notFound || b.notFound ==> r == MaxValue
    ensures !a.notFound && !b.notFound ==> r == Abs(a.x - b.x) + Abs(a.y - b.y)
    ensures r >= 0
  {
    if a.notFound || b.notFound then MaxValue
    else Abs(a.x - b.x) + Abs(a.y - b.y)
  }

  lemma DistanceSymmetric(a: C.Coordinates, b: C.Coordinates)
    ensures Distance(a, b) == Distance(b, a)
  {
  }

  /** Only a position compared with itself is at distance zero. */
  lemma DistanceZero(a: C.Coordinates, b: C.Coordinates)
    ensures Distance(a, b) == 0 <==> !a.notFound && !b.notFound && a == b
  {
  }

  /** The piece a person must step onto to finish at edge cell `c`: green
      grass carrying the given colours, with a road stub pointing back into
      the board from whichever edge `c` lies on. */
  function CreateGoalPiece(houseNumber: bv32, personNumber: bv32, c: C.Coordinates): (r: Piece)
    ensures PieceNumber(r) == 60
    ensures HouseNumber(r) == houseNumber & 7 && PersonNumber(r) == personNumber & 7
    ensures !Silver(r) && !Gold(r)
    ensures Up(r) == (c.y == 6) && Down(r) == (c.y == 0)
    ensures Left(r) == (c.x == 7) && Right(r) == (c.x == 0)
  {
    var p := CreateGreenGrassPiece();
    var p := SetHouseNumber(p, houseNumber);
    var p := SetPersonNumber(p, personNumber);
    SetDirections(p, c.y == Height - 1, c.y == 0, c.x == Width - 1, c.x == 0)
  }

  // ---------------------------------------------------------------------
  // Cell access on grid values

  /** The cell at column x, row y; 0 outside the board. */
  function Get(g: Grid, x: int, y: int): (r: Piece)
    requires IsGrid(g)
    ensures !IsValidCoords(C.At(x, y)) ==> r == 0
    ensures IsValidCoords(C.At(x, y)) ==> r == g[y][x]
  {
    if x < 0 || x >= Width then 0
    else if y < 0 || y >= Height then 0
    else g[y][x]
  }

  /** The grid with the cell at column x, row y replaced by p; unchanged
      outside the board. */
  function Set(g: Grid, x: int, y: int, p: Piece): (r: Grid)
    requires IsGrid(g)
    ensures IsGrid(r)
    ensures forall x', y' :: Get(r, x', y') == if x' == x && y' == y && IsValidCoords(C.At(x, y)) then p else Get(g, x', y')
  {
    if x < 0 || x >= Width then g
    else if y < 0 || y >= Height then g
    else g[y := g[y][x := p]]
  }

  /** Cell access by coordinates: the Failure piece for a not-found one. */
  function GetAt(g: Grid, c: C.Coordinates): (r: Piece)
    requires IsGrid(g)
    ensures c.notFound ==> r == CreateFailurePiece()
    ensures !c.notFound ==> r == Get(g, c.x, c.y)
  {
    if c.notFound then CreateFailurePiece() else Get(g, c.x, c.y)
  }

  /** Cell update by coordinates: nothing changes for a not-found one. */
  function SetAt(g: Grid, c: C.Coordinates, p: Piece): (r: Grid)
    requires IsGrid(g)
    ensures IsGrid(r)
    ensures c.notFound ==> r == g
    ensures !c.notFound ==> r == Set(g, c.x, c.y, p)
  {
    if c.notFound then g else Set(g, c.x, c.y, p)
  }

  /** Reading back a written cell gives the written piece; the grid is
      otherwise unchanged. */
  lemma GetSetAt(g: Grid, c: C.Coordinates, p: Piece, d: C.Coordinates)
    requires IsGrid(g) && IsValidCoords(c) && !c.notFound && !d.notFound
    ensures GetAt(SetAt(g, c, p), c) == p
    ensures d != c ==> GetAt(SetAt(g, c, p), d) == GetAt(g, d)
  {
  }

  /** What a new board holds at row i, column j: green grass on the edge,
      blank inside. */
  function InitialCell(i: int, j: int): Piece {
    if i == 0 || j == 0 || i + 1 == Height || j + 1 == Width then CreateGreenGrassPiece()
    else CreateBlankPiece()
  }

  function InitialGrid(): (g: Grid)
    ensures IsGrid(g)
    ensures forall i, j :: 0 <= i < Height && 0 <= j < Width ==> g[i][j] == InitialCell(i, j)
  {
    seq(Height, i => seq(Width, j => InitialCell(i, j)))
  }

  /** A new board has green grass exactly on the edge and blank cells
      elsewhere. */
  lemma InitialGridCells(x: int, y: int)
    requires IsValidCoords(C.At(x, y))
    ensures IsOnEdge(C.At(x, y)) ==> Get(InitialGrid(), x, y) == CreateGreenGrassPiece()
    ensures !IsOnEdge(C.At(x, y)) ==> IsBlank(Get(InitialGrid(), x, y))
  {
    assert Get(InitialGrid(), x, y) == InitialCell(y, x);
  }

  // ---------------------------------------------------------------------
  // Finding people and houses

  datatype Figure = Person | House

  /** The colour of the given figure standing on p (0 for none). */
  function FieldOf(f: Figure, p: Piece): (r: bv32)
    ensures r < 8
  {
    match f
    case Person => PersonNumber(p)
    case House => HouseNumber(p)
  }

  /** Cell number k in row-major order carries colour n for figure f. */
  predicate MatchAt(g: Grid, f: Figure, n: bv32, k: int)
    requires IsGrid(g) && 0 <= k < Height * Width
  {
    FieldOf(f, g[k / Width][k % Width]) == n
  }

  /** The first cell at or after row-major position k whose figure-f colour
      is n, or (0, 0, not found). */
  function FirstCellFrom(g: Grid, f: Figure, n: bv32, k: nat): (c: C.Coordinates)
    requires IsGrid(g) && k <= Height * Width
    ensures c.notFound ==> c == C.Of(0, 0, true)
    ensures c.notFound ==> forall m :: k <= m < Height * Width ==> !MatchAt(g, f, n, m)
    ensures !c.notFound ==> IsValidCoords(c) && k <= c.y * Width + c.x
    ensures !c.notFound ==> FieldOf(f, g[c.y][c.x]) == n
    ensures !c.notFound ==> forall m :: k <= m < c.y * Width + c.x ==> !MatchAt(g, f, n, m)
    decreases Height * Width - k
  {
    if k == Height * Width then C.Of(0, 0, true)
    else if MatchAt(g, f, n, k) then C.At(k % Width, k / Width)
    else FirstCellFrom(g, f, n, k + 1)
  }

  /** The row-major scan of locatePerson/locateHouse. */
  function FirstCell(g: Grid, f: Figure, n: bv32): (c: C.Coordinates)
    requires IsGrid(g)
    ensures c.notFound ==> c == C.Of(0, 0, true)
    ensures c.notFound ==> forall m :: 0 <= m < Height * Width ==> !MatchAt(g, f, n, m)
    ensures !c.notFound ==> IsValidCoords(c) && FieldOf(f, g[c.y][c.x]) == n
    ensures !c.notFound ==> forall m :: 0 <= m < c.y * Width + c.x ==> !MatchAt(g, f, n, m)
  {
    FirstCellFrom(g, f, n, 0)
  }

  /** If position k is a match and nothing before it is, the scan stops at
      k. */
  lemma FirstCellAt(g: Grid, f: Figure, n: bv32, k: int)
    requires IsGrid(g) && 0 <= k < Height * Width
    requires MatchAt(g, f, n, k)
    requires forall m :: 0 <= m < k ==> !MatchAt(g, f, n, m)
    ensures FirstCell(g, f, n) == C.At(k % Width, k / Width)
  {
    var c := FirstCell(g, f, n);
    if !c.notFound {
      var m := c.y * Width + c.x;
      assert MatchAt(g, f, n, m) by {
        assert m / Width == c.y && m % Width == c.x;
      }
      assert m == k;
    }
  }

  /** The distance from `c` to where p's partner stands: a person's house
      or a house's person.  MaxValue for anything that is not a pure person
      or pure house, or when the partner is not on the board. */
  function PartnerDistance(g: Grid, p: Piece, c: C.Coordinates): (r: int)
    requires IsGrid(g)
    ensures !IsPerson(p) && !IsHouse(p) ==> r == MaxValue
    ensures IsPerson(p) ==> r == Distance(FirstCell(g, House, PersonNumber(p)), c)
    ensures !IsPerson(p) && IsHouse(p) ==> r == Distance(FirstCell(g, Person, HouseNumber(p)), c)
  {
    if IsPerson(p) then Distance(FirstCell(g, House, PersonNumber(p)), c)
    else if IsHouse(p) then Distance(FirstCell(g, Person, HouseNumber(p)), c)
    else MaxValue
  }

  /** Colour n's house and person are both on the board, and the first of
      each stands on the same cell. */
  ghost predicate ColourHome(g: Grid, n: bv32)
    requires IsGrid(g)
  {
    && !FirstCell(g, House, n).notFound && !FirstCell(g, Person, n).notFound
    && FirstCell(g, House, n) == FirstCell(g, Person, n)
  }

  /** Every colour 1..4 is home. */
  ghost predicate Winning(g: Grid)
    requires IsGrid(g)
  {
    ColourHome(g, 1) && ColourHome(g, 2) && ColourHome(g, 3) && ColourHome(g, 4)
  }

  lemma NotHomeNotWinning(g: Grid, n: bv32)
    requires IsGrid(g) && 1 <= n <= 4 && !ColourHome(g, n)
    ensures !Winning(g)
  {
    assert n == 1 || n == 2 || n == 3 || n == 4;
  }

  /** With no cell carrying colour n for figure f, the scan finds
      nothing. */
  lemma FirstCellNone(g: Grid, f: Figure, n: bv32)
    requires IsGrid(g)
    requires forall m :: 0 <= m < Height * Width ==> !MatchAt(g, f, n, m)
    ensures FirstCell(g, f, n) == C.Of(0, 0, true)
  {
    var c := FirstCell(g, f, n);
    if !c.notFound {
      var m := c.y * Width + c.x;
      assert MatchAt(g, f, n, m) by {
        assert m / Width == c.y && m % Width == c.x;
      }
    }
  }

  /** A new board holds no person, so it is never winning. */
  lemma InitialNotWinning()
    ensures !Winning(InitialGrid())
  {
    var g := InitialGrid();
    forall m | 0 <= m < Height * Width
      ensures !MatchAt(g, Person, 1, m)
    {
      var p := g[m / Width][m % Width];
      assert p == CreateGreenGrassPiece() || p == CreateBlankPiece();
    }
    FirstCellNone(g, Person, 1);
  }

  // ---------------------------------------------------------------------
  // copyFrom

  /** The grid after the first k iterations of copyFrom's loop (row i =
      k / 8, column j = k % 8 of the source), each of which writes the
      source cell at row i, column j to *column i, row j* of the target. */
  function CopySteps(dst: Grid, src: Grid, k: nat): (r: Grid)
    requires IsGrid(dst) && IsGrid(src) && k <= Height * Width
    ensures IsGrid(r)
  {
    if k == 0 then dst
    else
      var i := (k - 1) / Width;
      var j := (k - 1) % Width;
      Set(CopySteps(dst, src, k - 1), i, j, src[i][j])
  }

  /** The whole of copyFrom's loop. */
  function CopyGrid(dst: Grid, src: Grid): (r: Grid)
    requires IsGrid(dst) && IsGrid(src)
    ensures IsGrid(r)
  {
    CopySteps(dst, src, Height * Width)
  }

  /** After k iterations, the cell at column x, row y holds the source's
      cell at row x, column y if that iteration has run, and its old piece
      otherwise. */
  lemma {:induction false} CopyStepsCells(dst: Grid, src: Grid, k: nat, x: int, y: int)
    requires IsGrid(dst) && IsGrid(src) && k <= Height * Width
    requires IsValidCoords(C.At(x, y))
    ensures Get(CopySteps(dst, src, k), x, y)
      == if x < Height && y < Height && x * Width + y < k then src[x][y] else dst[y][x]
  {
    if k > 0 {
      CopyStepsCells(dst, src, k - 1, x, y);
      var i := (k - 1) / Width;
      var j := (k - 1) % Width;
      if x == i && y == j {
        assert x * Width + y == k - 1;
      } else {
        assert x * Width + y != k - 1;
      }
    }
  }

  /** One more iteration of the loop, at source row i, column j. */
  lemma CopyStep(dst: Grid, src: Grid, i: int, j: int)
    requires IsGrid(dst) && IsGrid(src) && 0 <= i < Height && 0 <= j < Width
    ensures CopySteps(dst, src, i * Width + j + 1) == Set(CopySteps(dst, src, i * Width + j), i, j, src[i][j])
  {
    assert (i * Width + j) / Width == i && (i * Width + j) % Width == j;
  }

  /** copyFrom transposes the square part of the board and leaves the last
      column as it was. */
  lemma CopyGridTransposes(dst: Grid, src: Grid, x: int, y: int)
    requires IsGrid(dst) && IsGrid(src) && IsValidCoords(C.At(x, y))
    ensures x < 7 ==> Get(CopyGrid(dst, src), x, y) == Get(src, y, x)
    ensures x == 7 ==> Get(CopyGrid(dst, src), x, y) == Get(dst, x, y)
  {
    CopyStepsCells(dst, src, Height * Width, x, y);
  }

  /** So copying is not copying: from a new board, the bottom edge comes
      back blank and column 6 comes back as green grass. */
  lemma CopyOfInitialGrid(dst: Grid)
    requires IsGrid(dst)
    ensures Get(InitialGrid(), 3, 6) == CreateGreenGrassPiece()
    ensures Get(CopyGrid(dst, InitialGrid()), 3, 6) == CreateBlankPiece()
    ensures Get(InitialGrid(), 6, 3) == CreateBlankPiece()
    ensures Get(CopyGrid(dst, InitialGrid()), 6, 3) == CreateGreenGrassPiece()
  {
    CopyGridTransposes(dst, InitialGrid(), 3, 6);
    CopyGridTransposes(dst, InitialGrid(), 6, 3);
  }

  // ---------------------------------------------------------------------
  // The board object

  class WoodsyBoardData {
    /** Rows first, then columns: board[y, x]. */
    const board: array2<Piece>
    /** The board's contents as a grid value. */
    ghost var cells: Grid

    ghost predicate Valid()
      reads this, board
    {
      && board.Length0 == Height && board.Length1 == Width
      && IsGrid(cells)
      && forall y, x :: 0 <= y < Height && 0 <= x < Width ==> board[y, x] == cells[y][x]
    }

    /** A new board: green grass on the edge, blank inside. */
    constructor()
      ensures Valid() && fresh(board)
      ensures cells == InitialGrid()
    {
      var b := new Piece[Height, Width];
      var i := 0;
      while i < Height
        invariant 0 <= i <= Height
        invariant forall y, x :: 0 <= y < i && 0 <= x < Width ==> b[y, x] == InitialCell(y, x)
      {
        var j := 0;
        while j < Width
          invariant 0 <= j <= Width
          invariant forall y, x :: 0 <= y < i && 0 <= x < Width ==> b[y, x] == InitialCell(y, x)
          invariant forall x :: 0 <= x < j ==> b[i, x] == InitialCell(i, x)
        {
          if i == 0 || j == 0 || i + 1 == Height || j + 1 == Width {
            b[i, j] := CreateGreenGrassPiece();
          } else {
            b[i, j] := CreateBlankPiece();
          }
          j := j + 1;
        }
        i := i + 1;
      }
      board := b;
      cells := InitialGrid();
    }

    function GetCell(x: int, y: int): (r: Piece)
      requires Valid()
      reads this, board
      ensures r == Get(cells, x, y)
    {
      if x < 0 || x >= Width then 0
      else if y < 0 || y >= Height then 0
      else board[y, x]
    }

    method SetCell(x: int, y: int, p: Piece)
      requires Valid()
      modifies this, board
      ensures Valid()
      ensures cells == Set(old(cells), x, y, p)
    {
      if x < 0 || x >= Width { return; }
      if y < 0 || y >= Height { return; }
      board[y, x] := p;
      cells := Set(cells, x, y, p);
    }

    function GetCellAt(c: C.Coordinates): (r: Piece)
      requires Valid()
      reads this, board
      ensures r == GetAt(cells, c)
    {
      if c.notFound then CreateFailurePiece() else GetCell(c.x, c.y)
    }

    method SetCellAt(c: C.Coordinates, p: Piece)
      requires Valid()
      modifies this, board
      ensures Valid()
      ensures cells == SetAt(old(cells), c, p)
    {
      if c.notFound { return; }
      SetCell(c.x, c.y, p);
    }

    method LocatePerson(personNumber: bv32) returns (c: C.Coordinates)
      requires Valid()
      ensures c == FirstCell(cells, Person, personNumber)
    {
      var i := 0;
      while i < Height
        invariant 0 <= i <= Height
        invariant forall m :: 0 <= m < i * Width ==> !MatchAt(cells, Person, personNumber, m)
      {
        var j := 0;
        while j < Width
          invariant 0 <= j <= Width
          invariant forall m :: 0 <= m < i * Width + j ==> !MatchAt(cells, Person, personNumber, m)
        {
          if PersonNumber(board[i, j]) == personNumber {
            FirstCellAt(cells, Person, personNumber, i * Width + j);
            return C.At(j, i);
          }
          j := j + 1;
        }
        i := i + 1;
      }
      FirstCellNone(cells, Person, personNumber);
      return C.Of(0, 0, true);
    }

    method LocateHouse(houseNumber: bv32) returns (c: C.Coordinates)
      requires Valid()
      ensures c == FirstCell(cells, House, houseNumber)
    {
      var i := 0;
      while i < Height
        invariant 0 <= i <= Height
        invariant forall m :: 0 <= m < i * Width ==> !MatchAt(cells, House, houseNumber, m)
      {
        var j := 0;
        while j < Width
          invariant 0 <= j <= Width
          invariant forall m :: 0 <= m < i * Width + j ==> !MatchAt(cells, House, houseNumber, m)
        {
          if HouseNumber(board[i, j]) == houseNumber {
            FirstCellAt(cells, House, houseNumber, i * Width + j);
            return C.At(j, i);
          }
          j := j + 1;
        }
        i := i + 1;
      }
      FirstCellNone(cells, House, houseNumber);
      return C.Of(0, 0, true);
    }

    method DistanceToPartner(p: Piece, c: C.Coordinates) returns (r: int)
      requires Valid()
      ensures r == PartnerDistance(cells, p, c)
      ensures !IsPerson(p) && !IsHouse(p) ==> r == MaxValue
    {
      if IsPerson(p) {
        var h := LocateHouse(PersonNumber(p));
        return Distance(h, c);
      } else if IsHouse(p) {
        var q := LocatePerson(HouseNumber(p));
        return Distance(q, c);
      } else {
        return MaxValue;
      }
    }

    method IsWinningBoard() returns (r: bool)
      requires Valid()
      ensures r == Winning(cells)
    {
      var i: bv32 := 1;
      while i <= NumberOfPeople
        invariant 1 <= i <= 5
        invariant forall n: bv32 :: 1 <= n < i ==> ColourHome(cells, n)
      {
        var ch := LocateHouse(i);
        var cp := LocatePerson(i);
        if !ch.notFound && !cp.notFound {
          if !C.Equals(ch, cp) {
            NotHomeNotWinning(cells, i);
            return false;
          }
        } else {
          NotHomeNotWinning(cells, i);
          return false;
        }
        i := i + 1;
      }
      assert ColourHome(cells, 1) && ColourHome(cells, 2) && ColourHome(cells, 3) && ColourHome(cells, 4);
      return true;
    }

    /** Copies `b` into this board the way the source loop does, which
        transposes it (see CopyGridTransposes). */
    method CopyFrom(b: WoodsyBoardData)
      requires Valid() && b.Valid() && b != this && b.board != board
      modifies this, board
      ensures Valid()
      ensures cells == CopyGrid(old(cells), b.cells)
    {
      var i := 0;
      while i < Height
        invariant 0 <= i <= Height
        invariant Valid()
        invariant cells == CopySteps(old(cells), b.cells, i * Width)
      {
        CopyRow(b, i, old(cells));
        i := i + 1;
      }
    }

    /** The inner loop of copyFrom: source row i, column by column. */
    method CopyRow(b: WoodsyBoardData, i: int, ghost dst: Grid)
      requires Valid() && b.Valid() && b != this && b.board != board
      requires 0 <= i < Height && IsGrid(dst)
      requires cells == CopySteps(dst, b.cells, i * Width)
      modifies this, board
      ensures Valid()
      ensures cells == CopySteps(dst, b.cells, (i + 1) * Width)
    {
      ghost var src := b.cells;
      var j := 0;
      while j < Width
        invariant 0 <= j <= Width
        invariant Valid()
        invariant cells == CopySteps(dst, src, i * Width + j)
      {
        CopyStep(dst, src, i, j);
        var p := b.board[i, j];
        assert p == src[i][j];
        SetCell(i, j, p);
        j := j + 1;
      }
    }
  }
}
