/** The older copy of the piece codec.  It has its own bodies (createPiece
    sets the six low bits directly instead of going through setDirections
    and setCoins); every function here is proved to compute the same value
    as its namesake in the `Pieces` module, so everything proved there carries over. */
module PieceInfo {
  import Codec = Pieces

  type Piece = Codec.Piece

  // ---------------------------------------------------------------------
  // Field extractors

  predicate Up(p: Piece)
    ensures Up(p) == Codec.Up(p)
  {
    p & 0x20 != 0
  }

  predicate Down(p: Piece)
    ensures Down(p) == Codec.Down(p)
  {
    p & 0x10 != 0
  }

  predicate Left(p: Piece)
    ensures Left(p) == Codec.Left(p)
  {
    p & 0x8 != 0
  }

  predicate Right(p: Piece)
    ensures Right(p) == Codec.Right(p)
  {
    p & 0x4 != 0
  }

  predicate Silver(p: Piece)
    ensures Silver(p) == Codec.Silver(p)
  {
    p & 0x2 != 0
  }

  predicate Gold(p: Piece)
    ensures Gold(p) == Codec.Gold(p)
  {
    p & 0x1 != 0
  }

  /** Six bits wide, so never above 63 whatever the header comment says
      about the range of piece numbers. */
  function PieceNumber(p: Piece): (r: bv32)
    ensures r <= 63
    ensures r == Codec.PieceNumber(p)
  {
    (p >> 6) & 0x3F
  }

  function PersonNumber(p: Piece): (r: bv32)
    ensures r <= 7
    ensures r == Codec.PersonNumber(p)
  {
    (p >> 12) & 0x7
  }

  function HouseNumber(p: Piece): (r: bv32)
    ensures r <= 7
    ensures r == Codec.HouseNumber(p)
  {
    (p >> 15) & 0x7
  }

  // ---------------------------------------------------------------------
  // Constructor and field overwrites

  /** Packs all nine fields, setting the six low bits directly; the same
      value as the `Pieces` constructor for every input. */
  function CreatePiece(up: bool, down: bool, left: bool, right: bool, silver: bool, gold: bool,
                       pieceNumber: bv32, personNumber: bv32, houseNumber: bv32): (r: Piece)
    ensures r == Codec.CreatePiece(up, down, left, right, silver, gold, pieceNumber, personNumber, houseNumber)
  {
    var roads := (if up then 0x20 else 0) | (if down then 0x10 else 0)
      | (if left then 0x8 else 0) | (if right then 0x4 else 0);
    var coins := roads | (if silver then 0x2 else 0) | (if gold then 0x1 else 0);
    // The same partial results as the Pieces version, step by step.
    assert roads == Codec.SetDirections(0, up, down, left, right);
    assert coins == Codec.SetCoins(roads, silver, gold);
    coins | (pieceNumber << 6) | (personNumber << 12) | (houseNumber << 15)
  }

  /** For in-range numbers every extractor gives back what was packed. */
  lemma CreatePieceRoundTrip(up: bool, down: bool, left: bool, right: bool, silver: bool, gold: bool,
                             pieceNumber: bv32, personNumber: bv32, houseNumber: bv32)
    requires pieceNumber < 64 && personNumber < 8 && houseNumber < 8
    ensures var r := CreatePiece(up, down, left, right, silver, gold, pieceNumber, personNumber, houseNumber);
      && Up(r) == up && Down(r) == down && Left(r) == left && Right(r) == right
      && Silver(r) == silver && Gold(r) == gold
      && PieceNumber(r) == pieceNumber && PersonNumber(r) == personNumber
      && HouseNumber(r) == houseNumber
  {
  }

  /** Clears the two coin bits and everything above bit 17. */
  function TakeCoins(p: Piece): (r: Piece)
    ensures r == Codec.TakeCoins(p)
    ensures !Silver(r) && !Gold(r)
    ensures r & 0xFFFF_FFFC == p & 0x3_FFFC
  {
    p & 0x3_FFFC
  }

  function SetHouseNumber(p: Piece, houseNumber: bv32): (r: Piece)
    ensures r == Codec.SetHouseNumber(p, houseNumber)
    ensures HouseNumber(r) == houseNumber & 7
    ensures r & 0x7FFF == p & 0x7FFF
  {
    (p & 0x7FFF) | ((houseNumber & 0x7) << 15)
  }

  function SetPersonNumber(p: Piece, personNumber: bv32): (r: Piece)
    ensures r == Codec.SetPersonNumber(p, personNumber)
    ensures PersonNumber(r) == personNumber & 7
    ensures r & 0x3_8FFF == p & 0x3_8FFF
  {
    (p & 0x3_8FFF) | ((personNumber & 0x7) << 12)
  }

  // ---------------------------------------------------------------------
  // The tile set and the shuffle.  The table literal in PieceInfo.java is
  // the same 36 values, in the same order, as in Pieces.java.

  /** Shuffles `ar` in place with the swap indices given by `picks`. */
  method ShuffleArray(ar: array<Piece>, picks: seq<int>)
    requires Codec.ValidPicks(picks, ar.Length)
    modifies ar
    ensures ar[..] == Codec.FisherYates(old(ar[..]), picks)
    ensures multiset(ar[..]) == multiset(old(ar[..]))
  {
    var i := ar.Length - 1;
    while i > 0
      invariant -1 <= i < ar.Length
      invariant Codec.ShuffleDown(ar[..], picks, i) == Codec.FisherYates(old(ar[..]), picks)
    {
      var index := picks[i];
      var a := ar[index];
      ar[index] := ar[i];
      ar[i] := a;
      i := i - 1;
    }
    Codec.FisherYatesPermutes(old(ar[..]), picks);
  }

  /** A fresh array holding the 36 tiles, shuffled. */
  method Pieces(picks: seq<int>) returns (pieceArray: array<Piece>)
    requires Codec.ValidPicks(picks, |Codec.TileTable|)
    ensures fresh(pieceArray)
    ensures pieceArray[..] == Codec.FisherYates(Codec.TileTable, picks)
  {
    pieceArray := new Piece[|Codec.TileTable|](i requires 0 <= i < |Codec.TileTable| => Codec.TileTable[i]);
    assert pieceArray[..] == Codec.TileTable;
    ShuffleArray(pieceArray, picks);
  }
}
