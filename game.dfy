/** The state of one game: who plays, their scores, boards and piece queues,
    and the state of the turn in progress.

    Every turn operation is specified by a pure function on a snapshot of
    the turn state (`Turn`); the rules of the game are lemmas about those
    functions, and each method of `WoodsyGameData` is proved to produce
    exactly the snapshot its function describes. */
module GameData {
  import opened Pieces
  import C = Coordinates
  import opened BoardData

  datatype Option<T> = None | Some(value: T)

  /** The error messages a rejected move leaves behind (the strings
      themselves are resources of the user interface). */
  datatype ErrorCode =
    | NoError
    | AllMovesFinished
    | TurnFinished
    | InvalidCoords
    | PersonHasNoPath
    | PersonOnEdgeCanOnlyGoToTheirHouse
    | PeopleAndHousesEdgeOnly
    | HousePersonTooClose
    | HousesAndPeopleOnlyOnGreenGrass
    | UnexpectedProblem
    | CantDiscardMovingPerson
    | CantDiscardHouse
    | CantDiscardPerson

  /** How a play ends: a piece is returned, the array index of the goal
      score is out of bounds (Java throws), or the code reaches the end of
      a branch that has no return statement. */
  datatype Outcome = Returned(piece: Piece) | IndexOutOfBounds | NoReturn

  const PointsForGold: int := 2
  const PointsForSilver: int := 1
  const MaxPointsForGoal: int := 5

  /** Everything a turn operation reads or writes. */
  datatype Turn = Turn(
    grid: Grid,                           // the current board
    scores: map<string, int>,
    personScores: seq<int>,               // goal points left per colour index
    winner: string,
    currentParticipant: Option<string>,
    currentTurnPieces: seq<Piece>,        // still to play this turn
    currentTurnPlayedPieces: seq<Piece>,  // played this turn
    movingPerson: bool,
    personMovesLeft: int,
    turnFinished: bool,
    personCoordinates: C.Coordinates,     // where the moving person stands
    lastError: ErrorCode)

  /** What every reachable turn state satisfies. */
  predicate TurnOk(t: Turn) {
    && IsGrid(t.grid)
    && |t.personScores| == NumberOfPeople as int
    && (t.movingPerson ==> t.currentParticipant.Some? && t.currentParticipant.value in t.scores)
  }

  // ---------------------------------------------------------------------
  // Small steps

  /** piecesLeft: the turn is over, for good, once its queue is empty. */
  function Latch(t: Turn): (r: Turn)
    ensures r.turnFinished <==> t.turnFinished || |t.currentTurnPieces| == 0
    ensures r.(turnFinished := t.turnFinished) == t
  {
    t.(turnFinished := t.turnFinished || |t.currentTurnPieces| == 0)
  }

  /** setFailure: records the error and yields the Failure piece. */
  function Fail(t: Turn, e: ErrorCode): (r: (Outcome, Turn))
    ensures r.0 == Returned(CreateFailurePiece())
    ensures r.1.lastError == e && r.1.(lastError := t.lastError) == t
  {
    (Returned(CreateFailurePiece()), t.(lastError := e))
  }

  /** setCurrentPiecePlayed: the head of the queue moves to the played
      list. */
  function PiecePlayed(t: Turn): (r: Turn)
    ensures |t.currentTurnPieces| == 0 ==> r == t
    ensures |t.currentTurnPieces| > 0 ==>
      && r.currentTurnPieces == t.currentTurnPieces[1..]
      && r.currentTurnPlayedPieces == t.currentTurnPlayedPieces + [t.currentTurnPieces[0]]
    ensures multiset(r.currentTurnPieces + r.currentTurnPlayedPieces)
      == multiset(t.currentTurnPieces + t.currentTurnPlayedPieces)
    ensures r.(currentTurnPieces := t.currentTurnPieces, currentTurnPlayedPieces := t.currentTurnPlayedPieces) == t
  {
    if |t.currentTurnPieces| == 0 then t
    else
      var played := t.currentTurnPlayedPieces + [t.currentTurnPieces[0]];
      assert t.currentTurnPieces == [t.currentTurnPieces[0]] + t.currentTurnPieces[1..];
      t.(currentTurnPlayedPieces := played, currentTurnPieces := t.currentTurnPieces[1..])
  }

  /** incrementScore for the current participant. */
  function AddScore(t: Turn, x: int): (r: Turn)
    requires t.currentParticipant.Some? && t.currentParticipant.value in t.scores
    ensures r.scores.Keys == t.scores.Keys
    ensures r.scores[t.currentParticipant.value] == t.scores[t.currentParticipant.value] + x
    ensures forall id :: id in t.scores && id != t.currentParticipant.value ==> r.scores[id] == t.scores[id]
    ensures r.(scores := t.scores) == t
  {
    var id := t.currentParticipant.value;
    t.(scores := t.scores[id := t.scores[id] + x])
  }

  /** The points a cell's coins are worth. */
  function CoinPoints(p: Piece): (r: int)
    ensures 0 <= r <= 3
    ensures r == 0 <==> !Gold(p) && !Silver(p)
  {
    (if Gold(p) then PointsForGold else 0) + (if Silver(p) then PointsForSilver else 0)
  }

  // ---------------------------------------------------------------------
  // playPieceAt

  /** The array index a colour number selects (person numbers are three
      bits wide). */
  function ColourIndex(n: bv32): (r: int)
    requires n < 8
    ensures 0 <= r < 8 && r == n as int
    ensures r < NumberOfPeople as int <==> n < NumberOfPeople
  {
    if n == 0 then 0 else if n == 1 then 1 else if n == 2 then 2 else if n == 3 then 3
    else if n == 4 then 4 else if n == 5 then 5 else if n == 6 then 6 else 7
  }

  /** Gold then silver on the cell entered score for the current
      participant. */
  function CoinScore(t: Turn, p: Piece): (r: Turn)
    requires t.currentParticipant.Some? && t.currentParticipant.value in t.scores
    ensures r.scores.Keys == t.scores.Keys
    ensures r.scores[t.currentParticipant.value] == t.scores[t.currentParticipant.value] + CoinPoints(p)
    ensures r.(scores := t.scores) == t
  {
    var t1 := if Gold(p) then AddScore(t, PointsForGold) else t;
    if Silver(p) then AddScore(t1, PointsForSilver) else t1
  }

  /** A person home: the colour's goal points score for the current
      participant, then drop by one, but not below 0. */
  function GoalPoints(t: Turn, i: int): (r: Turn)
    requires t.currentParticipant.Some? && t.currentParticipant.value in t.scores
    requires 0 <= i < |t.personScores|
    ensures TurnOk(t) ==> TurnOk(r)
    ensures r.scores.Keys == t.scores.Keys
    ensures r.scores[t.currentParticipant.value] == t.scores[t.currentParticipant.value] + t.personScores[i]
    ensures |r.personScores| == |t.personScores|
    ensures r.personScores[i] == if t.personScores[i] > 0 then t.personScores[i] - 1 else 0
    ensures forall k :: 0 <= k < |t.personScores| && k != i ==> r.personScores[k] == t.personScores[k]
    ensures r.(scores := t.scores, personScores := t.personScores) == t
  {
    var award := t.personScores[i];
    var id := t.currentParticipant.value;
    t.(scores := t.scores[id := t.scores[id] + award],
       personScores := t.personScores[i := if award - 1 < 0 then 0 else award - 1])
  }

  /** A winning board (`won`) makes the current participant the winner. */
  function WinClaimed(t: Turn, won: bool): (r: Turn)
    requires t.currentParticipant.Some?
    ensures won ==> r.winner == t.currentParticipant.value
    ensures !won ==> r == t
    ensures r.(winner := t.winner) == t
  {
    if won then t.(winner := t.currentParticipant.value) else t
  }

  /** The moving person leaves its cell, which keeps `source` without the
      person, for cell c, using up one move. */
  function Departed(t: Turn, c: C.Coordinates, source: Piece): (r: Turn)
    requires IsGrid(t.grid)
    ensures IsGrid(r.grid)
    ensures r.personCoordinates == c && r.personMovesLeft == t.personMovesLeft - 1
    ensures GetAt(r.grid, t.personCoordinates) == if t.personCoordinates.notFound then GetAt(t.grid, t.personCoordinates) else if IsValidCoords(t.personCoordinates) then SetPersonNumber(source, 0) else 0
    ensures r.(grid := t.grid, personMovesLeft := t.personMovesLeft, personCoordinates := t.personCoordinates) == t
  {
    t.(grid := SetAt(t.grid, t.personCoordinates, SetPersonNumber(source, 0)),
       personMovesLeft := t.personMovesLeft - 1,
       personCoordinates := c)
  }

  /** The person of colour n, carrying no more coins, enters cell c; at
      its goal the goal points score first and the board before the entry
      decides the winner. */
  ghost function Arrived(t: Turn, c: C.Coordinates, entered: Piece, n: bv32, reachedGoal: bool)
    : (r: (Outcome, Turn))
    requires TurnOk(t) && t.movingPerson && n < 8
    ensures TurnOk(r.1)
    ensures r.1.movingPerson == t.movingPerson
    ensures r.0 == IndexOutOfBounds <==> reachedGoal && n >= NumberOfPeople
    ensures r.0 != IndexOutOfBounds ==> r.0 == Returned(CreateSuccessPiece()) && r.1.grid == SetAt(t.grid, c, entered)
    ensures !reachedGoal ==> r.1.winner == t.winner && r.1.personScores == t.personScores && r.1.scores == t.scores
    ensures reachedGoal && n < NumberOfPeople ==>
      && r.1.winner == (if Winning(t.grid) then t.currentParticipant.value else t.winner)
      && r.1.personScores == t.personScores[ColourIndex(n) := if t.personScores[ColourIndex(n)] > 0 then t.personScores[ColourIndex(n)] - 1 else 0]
  {
    if !reachedGoal then
      (Returned(CreateSuccessPiece()), t.(grid := SetAt(t.grid, c, entered)))
    else if ColourIndex(n) >= |t.personScores| then
      (IndexOutOfBounds, t)
    else
      var t1 := WinClaimed(GoalPoints(t, ColourIndex(n)), Winning(t.grid));
      (Returned(CreateSuccessPiece()), t1.(grid := SetAt(t1.grid, c, entered)))
  }

  /** The person (colour n) leaves `source` and enters cell c holding
      `target`. */
  ghost function MoveOn(t: Turn, c: C.Coordinates, source: Piece, target: Piece, n: bv32, reachedGoal: bool)
    : (r: (Outcome, Turn))
    requires TurnOk(t) && t.movingPerson && n < 8
    ensures TurnOk(r.1)
    ensures r.1.movingPerson == t.movingPerson
    ensures r.0 == IndexOutOfBounds || r.0 == Returned(CreateSuccessPiece())
  {
    var moved := SetPersonNumber(target, n);
    var t1 := Departed(t, c, source);
    var t2 := if Gold(moved) || Silver(moved) then CoinScore(t1, moved) else t1;
    var entered := if Gold(moved) || Silver(moved) then SetCoins(moved, false, false) else moved;
    Arrived(t2, c, entered, n, reachedGoal)
  }

  /** The colour read off the moving person's cell is that cell's person
      number, also when the cell holds no person (0). */
  lemma PersonOfCell(p: Piece)
    ensures PersonNumber(GetPersonPieceFrom(p)) == PersonNumber(p)
  {
  }

  /** The cell the moving person stands on. */
  function MoverCell(t: Turn): (r: Piece)
    requires IsGrid(t.grid)
    ensures t.personCoordinates.notFound ==> r == CreateFailurePiece()
    ensures !t.personCoordinates.notFound ==> r == Get(t.grid, t.personCoordinates.x, t.personCoordinates.y)
  {
    GetAt(t.grid, t.personCoordinates)
  }

  /** The moving person's colour, read off its cell through
      getPersonPieceFrom: the cell's person number, 0 when there is none. */
  function MoverColour(t: Turn): (r: bv32)
    requires IsGrid(t.grid)
    ensures r == PersonNumber(MoverCell(t)) && r < 8
  {
    PersonOfCell(MoverCell(t));
    PersonNumber(GetPersonPieceFrom(MoverCell(t)))
  }

  /** Cell (x, y) is the moving person's goal: it equals the goal piece
      built for that cell with the mover's colour as the house colour. */
  predicate ReachesGoal(t: Turn, x: int, y: int)
    requires IsGrid(t.grid)
  {
    CreateGoalPiece(MoverColour(t), 0, C.At(x, y)) == GetAt(t.grid, C.At(x, y))
  }

  /** A step onto (x, y) goes ahead: the two cells connect by road and, on
      the edge, (x, y) is the mover's goal. */
  predicate MoveAllowed(t: Turn, x: int, y: int)
    requires IsGrid(t.grid)
  {
    && PiecesConnect(MoverCell(t), GetAt(t.grid, C.At(x, y)), t.personCoordinates.x, t.personCoordinates.y, x, y)
    && (!IsOnEdge(C.At(x, y)) || ReachesGoal(t, x, y))
  }

  /** One step of a moving person onto cell (x, y). */
  ghost function MoveStep(t: Turn, x: int, y: int): (r: (Outcome, Turn))
    requires TurnOk(t) && t.movingPerson
    ensures TurnOk(r.1)
    ensures r.1.movingPerson == t.movingPerson
    ensures r.0 == Returned(CreateFailurePiece()) ==> r.1 == t.(lastError := r.1.lastError) && r.1.lastError != NoError
  {
    var c := C.At(x, y);
    var pc := t.personCoordinates;
    var target := GetAt(t.grid, c);
    if !PiecesConnect(MoverCell(t), target, pc.x, pc.y, x, y) then Fail(t, PersonHasNoPath)
    else if IsOnEdge(c) && !ReachesGoal(t, x, y) then Fail(t, PersonOnEdgeCanOnlyGoToTheirHouse)
    else MoveOn(t, c, MoverCell(t), target, MoverColour(t), ReachesGoal(t, x, y))
  }

  /** A pure person or house placed on cell (x, y) while no person moves. */
  function PlaceStep(t: Turn, p: Piece, x: int, y: int): (r: (Outcome, Turn))
    requires TurnOk(t)
    ensures TurnOk(r.1)
    ensures r.1.movingPerson == t.movingPerson
    ensures r.0 == Returned(CreateFailurePiece()) ==> r.1 == t.(lastError := r.1.lastError) && r.1.lastError != NoError
    ensures r.0 == Returned(CreateSuccessPiece()) || r.0 == Returned(CreateFailurePiece())
  {
    var c := C.At(x, y);
    var target := GetAt(t.grid, c);
    if !IsOnEdge(c) then Fail(t, PeopleAndHousesEdgeOnly)
    else if PartnerDistance(t.grid, p, c) < 5 then Fail(t, HousePersonTooClose)
    else if !IsGreenGrassPiece(target) then Fail(t, HousesAndPeopleOnlyOnGreenGrass)
    else
      var newPiece := CombinePieces(target, p);
      if IsFailurePiece(newPiece) then Fail(t, UnexpectedProblem)
      else (Returned(CreateSuccessPiece()), PiecePlayed(t.(grid := SetAt(t.grid, c, newPiece))))
  }

  /** playPieceAt(p, x, y) on turn state t.  A rejected play leaves board,
      scores, goal points, winner, queues and the moving-person state
      alone: only the error and the turn-finished latch change. */
  ghost function PlayAt(t: Turn, p: Piece, x: int, y: int): (r: (Outcome, Turn))
    requires TurnOk(t)
    ensures TurnOk(r.1)
    ensures r.1.movingPerson == t.movingPerson
    ensures r.0 == Returned(CreateFailurePiece()) ==>
      && r.1 == t.(lastError := r.1.lastError, turnFinished := r.1.turnFinished)
      && r.1.lastError != NoError
      && (t.turnFinished ==> r.1.turnFinished)
      && (r.1.turnFinished ==> t.turnFinished || |t.currentTurnPieces| == 0)
  {
    if t.movingPerson && t.personMovesLeft <= 0 then Fail(t, AllMovesFinished)
    else
      var t1 := Latch(t);
      if t1.turnFinished then Fail(t1, TurnFinished)
      else if !IsValidCoords(C.At(x, y)) then Fail(t1, InvalidCoords)
      else if IsPerson(p) && t1.movingPerson then MoveStep(t1, x, y)
      else if IsFigure(p) then PlaceStep(t1, p, x, y)
      else (NoReturn, t1)
  }

  /** playPieceDiscard(p): only the rejections exist. */
  function DiscardAt(t: Turn, p: Piece): (r: (Outcome, Turn))
    ensures r.1.movingPerson == t.movingPerson
    ensures r.0 != NoReturn ==> r.0 == Returned(CreateFailurePiece())
  {
    if t.movingPerson then Fail(t, CantDiscardMovingPerson)
    else if IsHouse(p) then Fail(t, CantDiscardHouse)
    else if IsPerson(p) then Fail(t, CantDiscardPerson)
    else (NoReturn, t)
  }

  // ---------------------------------------------------------------------
  // Rules of play, as lemmas about the step functions

  /** The three guards, in their order. */
  lemma PlayAtGuards(t: Turn, p: Piece, x: int, y: int)
    requires TurnOk(t)
    ensures t.movingPerson && t.personMovesLeft <= 0 ==>
      PlayAt(t, p, x, y) == (Returned(CreateFailurePiece()), t.(lastError := AllMovesFinished))
    ensures !(t.movingPerson && t.personMovesLeft <= 0) && (t.turnFinished || |t.currentTurnPieces| == 0) ==>
      PlayAt(t, p, x, y) == (Returned(CreateFailurePiece()), t.(turnFinished := true, lastError := TurnFinished))
    ensures (!(t.movingPerson && t.personMovesLeft <= 0) && !t.turnFinished && |t.currentTurnPieces| > 0
             && !IsValidCoords(C.At(x, y))) ==>
      PlayAt(t, p, x, y) == (Returned(CreateFailurePiece()), t.(lastError := InvalidCoords))
  {
  }

  /** A person or house combined onto green grass is never the Failure
      piece, so the "unexpected problem" rejection cannot happen. */
  lemma CombineOnGreenGrass(target: Piece, p: Piece)
    requires IsGreenGrassPiece(target) && IsFigure(p)
    ensures !IsFailurePiece(CombinePieces(target, p))
    ensures PieceNumber(CombinePieces(target, p)) == 60
    ensures IsPerson(p) ==> PersonNumber(CombinePieces(target, p)) == PersonNumber(p)
    ensures !IsPerson(p) ==> HouseNumber(CombinePieces(target, p)) == HouseNumber(p)
  {
    assert IsTile(target);
    assert !IsTile(p);
  }

  /** Once the guards pass, a person moves while a person is moving; a
      person or house is placed otherwise; any other piece falls off the
      end of the method. */
  lemma PlayAtDispatch(t: Turn, p: Piece, x: int, y: int)
    requires TurnOk(t) && !(t.movingPerson && t.personMovesLeft <= 0)
    requires !t.turnFinished && |t.currentTurnPieces| > 0 && IsValidCoords(C.At(x, y))
    ensures IsPerson(p) && t.movingPerson ==> PlayAt(t, p, x, y) == MoveStep(t, x, y)
    ensures !(IsPerson(p) && t.movingPerson) && IsFigure(p) ==>
      PlayAt(t, p, x, y) == PlaceStep(t, p, x, y)
    ensures !IsFigure(p) ==> PlayAt(t, p, x, y) == (NoReturn, t)
  {
    assert Latch(t) == t;
  }

  /** Placing a person or house succeeds when the target is an edge cell
      holding plain green grass and the partner is at least 5 away on the
      board before placement; any other placement is rejected. */
  lemma PlacementAccepted(t: Turn, p: Piece, x: int, y: int)
    requires TurnOk(t) && IsValidCoords(C.At(x, y)) && IsFigure(p)
    ensures var o := PlaceStep(t, p, x, y).0;
      var accepted := && IsOnEdge(C.At(x, y))
                      && PartnerDistance(t.grid, p, C.At(x, y)) >= 5
                      && IsGreenGrassPiece(Get(t.grid, x, y));
      && (accepted ==> o == Returned(CreateSuccessPiece()))
      && (!accepted ==> o == Returned(CreateFailurePiece()))
  {
    if IsOnEdge(C.At(x, y)) && PartnerDistance(t.grid, p, C.At(x, y)) >= 5 && IsGreenGrassPiece(Get(t.grid, x, y)) {
      CombineOnGreenGrass(Get(t.grid, x, y), p);
    }
  }

  /** An accepted placement writes the figure onto the green grass (the
      cell then has the figure's colour, see CombineOnGreenGrass), plays
      the head of the queue (PiecePlayed) and changes nothing else. */
  lemma PlacementEffect(t: Turn, p: Piece, x: int, y: int)
    requires TurnOk(t) && |t.currentTurnPieces| > 0
    requires IsOnEdge(C.At(x, y)) && IsFigure(p)
    requires PartnerDistance(t.grid, p, C.At(x, y)) >= 5 && IsGreenGrassPiece(Get(t.grid, x, y))
    ensures PlaceStep(t, p, x, y).1 == PiecePlayed(t.(grid := Set(t.grid, x, y, CombinePieces(Get(t.grid, x, y), p))))
  {
    CombineOnGreenGrass(Get(t.grid, x, y), p);
  }

  /** A moving person's step is rejected unless it is allowed (the cells
      connect by road and an edge target is the mover's goal); an allowed
      step goes ahead. */
  lemma MoveAccepted(t: Turn, x: int, y: int)
    requires TurnOk(t) && t.movingPerson
    ensures !MoveAllowed(t, x, y) ==> MoveStep(t, x, y).0 == Returned(CreateFailurePiece())
    ensures MoveAllowed(t, x, y) ==> MoveStep(t, x, y).0 in {IndexOutOfBounds, Returned(CreateSuccessPiece())}
  {
  }

  /** An allowed step uses one move, moves the tracked position, scores
      the coins on the target and, at the goal, the colour's goal points;
      colour 4 and up index past the end of the goal-points array. */
  lemma MoveEffect(t: Turn, x: int, y: int)
    requires TurnOk(t) && t.movingPerson && MoveAllowed(t, x, y)
    ensures var (o, t') := MoveStep(t, x, y);
      var n := MoverColour(t);
      var id := t.currentParticipant.value;
      && t'.personMovesLeft == t.personMovesLeft - 1
      && t'.personCoordinates == C.At(x, y)
      && (o == IndexOutOfBounds <==> ReachesGoal(t, x, y) && n >= NumberOfPeople)
      && t'.scores[id] == t.scores[id] + CoinPoints(GetAt(t.grid, C.At(x, y)))
           + (if ReachesGoal(t, x, y) && n < NumberOfPeople then t.personScores[ColourIndex(n)] else 0)
      && (!ReachesGoal(t, x, y) ==> t'.personScores == t.personScores && t'.winner == t.winner)
      && (ReachesGoal(t, x, y) && n < NumberOfPeople ==>
            && t'.personScores == t.personScores[ColourIndex(n) :=
                 if t.personScores[ColourIndex(n)] > 0 then t.personScores[ColourIndex(n)] - 1 else 0]
            && t'.winner == (if Winning(DepartedGrid(t)) then id else t.winner))
  {
  }

  /** The board once the moving person has left its cell and before it
      enters the target: the board the winner test inspects. */
  function DepartedGrid(t: Turn): (r: Grid)
    requires IsGrid(t.grid)
    ensures IsGrid(r)
    ensures !t.personCoordinates.notFound && IsValidCoords(t.personCoordinates) ==>
      PersonNumber(GetAt(r, t.personCoordinates)) == 0
  {
    SetAt(t.grid, t.personCoordinates, SetPersonNumber(MoverCell(t), 0))
  }

  /** After an allowed step that does not fail on the goal-points index,
      the old cell holds no person and the target holds the person, with
      the target's roads and coins untouched (clearing no coins is a no-op,
      SetCoins). */
  lemma MoveCells(t: Turn, x: int, y: int)
    requires TurnOk(t) && t.movingPerson && MoveAllowed(t, x, y)
    requires MoveStep(t, x, y).0 != IndexOutOfBounds
    ensures MoveStep(t, x, y).1.grid
      == SetAt(SetAt(t.grid, t.personCoordinates, SetPersonNumber(MoverCell(t), 0)),
               C.At(x, y), SetPersonNumber(GetAt(t.grid, C.At(x, y)), MoverColour(t)))
  {
    var moved := SetPersonNumber(GetAt(t.grid, C.At(x, y)), MoverColour(t));
    assert SetCoins(moved, false, false) == moved;
  }

  /** A house or person placed by the game never equals a goal piece: the
      goal always carries a road stub and a placed figure never does.  So
      on a board built by placements a moving person never reaches a
      goal. */
  lemma GoalNeverMatchesPlacedFigure(target: Piece, p: Piece, n: bv32, c: C.Coordinates)
    requires IsGreenGrassPiece(target) && IsFigure(p) && IsOnEdge(c)
    ensures CombinePieces(target, p) != CreateGoalPiece(n, 0, c)
    ensures target != CreateGoalPiece(n, 0, c)
  {
    var g := CreateGoalPiece(n, 0, c);
    assert Up(g) || Down(g) || Left(g) || Right(g);
    CombineOnGreenGrass(target, p);
    assert !Up(target) && !Down(target) && !Left(target) && !Right(target);
  }

  /** playPieceDiscard rejects, in order, while a person moves, a house
      and a person; anything else falls off the end of the method. */
  lemma DiscardRule(t: Turn, p: Piece)
    ensures var (o, t') := DiscardAt(t, p);
      && (o == Returned(CreateFailurePiece()) <==> t.movingPerson || IsHouse(p) || IsPerson(p))
      && t'.(lastError := t.lastError) == t
      && (t.movingPerson ==> t'.lastError == CantDiscardMovingPerson)
      && (!t.movingPerson && IsHouse(p) ==> t'.lastError == CantDiscardHouse)
      && (!t.movingPerson && !IsHouse(p) && IsPerson(p) ==> t'.lastError == CantDiscardPerson)
      && (IsTile(p) && !t.movingPerson ==> o == NoReturn && t' == t)
  {
  }

  // ---------------------------------------------------------------------
  // beginTurn's queue

  /** The loop of beginTurn after k rounds: person[i] then house[i] for
      each i < k, each only if that list is long enough. */
  function PairPieces(persons: seq<Piece>, houses: seq<Piece>, k: nat): (r: seq<Piece>)
    ensures |r| <= 2 * k
    ensures forall q :: q in r ==> q in persons || q in houses
  {
    if k == 0 then []
    else
      PairPieces(persons, houses, k - 1)
      + (if k - 1 < |persons| then [persons[k - 1]] else [])
      + (if k - 1 < |houses| then [houses[k - 1]] else [])
  }

  /** With both lists long enough, the queue alternates person and house. */
  lemma {:induction false} PairPiecesAlternate(persons: seq<Piece>, houses: seq<Piece>, k: nat)
    requires k <= |persons| && k <= |houses|
    ensures |PairPieces(persons, houses, k)| == 2 * k
    ensures forall i :: 0 <= i < k ==>
      PairPieces(persons, houses, k)[2 * i] == persons[i] && PairPieces(persons, houses, k)[2 * i + 1] == houses[i]
  {
    if k > 0 {
      PairPiecesAlternate(persons, houses, k - 1);
    }
  }

  /** How many person/house pairs a turn places: two in a two-player game,
      one otherwise. */
  function NumPairs(participants: int): (r: nat)
    ensures r == 2 <==> participants == 2
    ensures r == 1 <==> participants != 2
  {
    if participants == 2 then 2 else 1
  }

  /** The pieces a new turn starts with. */
  function TurnPieces(persons: seq<Piece>, houses: seq<Piece>, participants: int, queue: seq<Piece>): (r: seq<Piece>)
    ensures |persons| > 0 ==> r == PairPieces(persons, houses, NumPairs(participants))
    ensures |persons| == 0 ==> r == (if |queue| > 0 then [queue[0]] else [])
  {
    var paired := if |persons| > 0 then PairPieces(persons, houses, NumPairs(participants)) else [];
    if |paired| == 0 then (if |queue| > 0 then [queue[0]] else []) else paired
  }

  /** The four persons and four houses the game starts with. */
  function StartingPersons(): (r: seq<Piece>)
    ensures |r| == 4 && forall i :: 0 <= i < 4 ==> IsPerson(r[i]) && PersonNumber(r[i]) as int == i + 1
  {
    [CreatePersonPiece(1), CreatePersonPiece(2), CreatePersonPiece(3), CreatePersonPiece(4)]
  }

  function StartingHouses(): (r: seq<Piece>)
    ensures |r| == 4 && forall i :: 0 <= i < 4 ==> IsHouse(r[i]) && HouseNumber(r[i]) as int == i + 1
  {
    [CreateHousePiece(1), CreateHousePiece(2), CreateHousePiece(3), CreateHousePiece(4)]
  }

  /** Builds the start-of-game tables one colour at a time: the remaining
      persons and houses, and the goal points of every colour. */
  method StartingTables() returns (houses: seq<Piece>, persons: seq<Piece>, points: array<int>)
    ensures houses == StartingHouses() && persons == StartingPersons()
    ensures fresh(points) && points[..] == [MaxPointsForGoal, MaxPointsForGoal, MaxPointsForGoal, MaxPointsForGoal]
  {
    points := new int[NumberOfPeople as int];
    houses := [];
    persons := [];
    var i := 1;
    while i <= NumberOfPeople as int
      invariant 1 <= i <= NumberOfPeople as int + 1
      invariant houses == StartingHouses()[..i - 1] && persons == StartingPersons()[..i - 1]
      invariant forall k :: 0 <= k < i - 1 ==> points[k] == MaxPointsForGoal
    {
      StartingEntry(i);
      houses := houses + [CreateHousePiece(i as bv32)];
      persons := persons + [CreatePersonPiece(i as bv32)];
      points[i - 1] := MaxPointsForGoal;
      i := i + 1;
    }
    assert points[..] == [MaxPointsForGoal, MaxPointsForGoal, MaxPointsForGoal, MaxPointsForGoal];
  }

  /** Colour i's entries in the starting lists. */
  lemma StartingEntry(i: int)
    requires 1 <= i <= NumberOfPeople as int
    ensures StartingHouses()[i - 1] == CreateHousePiece(i as bv32)
    ensures StartingPersons()[i - 1] == CreatePersonPiece(i as bv32)
  {
    assert i == 1 || i == 2 || i == 3 || i == 4;
  }

  /** Nothing removes persons or houses from the remaining lists, so every
      turn starts with person 1 and house 1, and in a two-player game also
      person 2 and house 2. */
  lemma TurnPiecesAtStart(participants: int, queue: seq<Piece>)
    ensures participants == 2 ==>
      TurnPieces(StartingPersons(), StartingHouses(), participants, queue)
        == [CreatePersonPiece(1), CreateHousePiece(1), CreatePersonPiece(2), CreateHousePiece(2)]
    ensures participants != 2 ==>
      TurnPieces(StartingPersons(), StartingHouses(), participants, queue)
        == [CreatePersonPiece(1), CreateHousePiece(1)]
  {
    PairPiecesAlternate(StartingPersons(), StartingHouses(), NumPairs(participants));
  }

  // ---------------------------------------------------------------------
  // Participants

  /** The participant list after adding each non-null id of `ids`, in
      order, to `acc`, skipping ids already present. */
  function AddIds(acc: seq<string>, ids: seq<Option<string>>): (r: seq<string>)
    decreases |ids|
  {
    if |ids| == 0 then acc
    else if ids[0].Some? && ids[0].value !in acc then AddIds(acc + [ids[0].value], ids[1..])
    else AddIds(acc, ids[1..])
  }

  predicate NoDuplicates(s: seq<string>) {
    forall i, j :: 0 <= i < j < |s| ==> s[i] != s[j]
  }

  /** The per-participant bookkeeping agrees: every id is listed once, and
      exactly the listed ids have a score, a board and a queue. */
  ghost predicate Registered<B, Q>(ids: seq<string>, scores: map<string, int>, boards: map<string, B>, queues: map<string, Q>) {
    && NoDuplicates(ids)
    && (forall id :: id in boards <==> id in ids)
    && scores.Keys == boards.Keys && queues.Keys == boards.Keys
  }

  /** Registering a new id keeps the bookkeeping in agreement. */
  lemma RegisterNew<B, Q>(ids: seq<string>, scores: map<string, int>, boards: map<string, B>, queues: map<string, Q>,
                          id: string, b: B, q: Q)
    requires Registered(ids, scores, boards, queues) && id !in ids
    ensures Registered(ids + [id], scores[id := 0], boards[id := b], queues[id := q])
  {
  }

  /** Adding ids keeps the list free of duplicates, keeps what was there,
      and ends with exactly the ids given. */
  lemma {:induction false} AddIdsSpec(acc: seq<string>, ids: seq<Option<string>>)
    requires NoDuplicates(acc)
    ensures NoDuplicates(AddIds(acc, ids))
    ensures |acc| <= |AddIds(acc, ids)| && AddIds(acc, ids)[..|acc|] == acc
    ensures forall id :: id in AddIds(acc, ids) <==> id in acc || Some(id) in ids
    decreases |ids|
  {
    if |ids| > 0 {
      if ids[0].Some? && ids[0].value !in acc {
        AddIdsSpec(acc + [ids[0].value], ids[1..]);
        assert (acc + [ids[0].value])[..|acc|] == acc;
      } else {
        AddIdsSpec(acc, ids[1..]);
      }
      assert ids == [ids[0]] + ids[1..];
    }
  }

  lemma AddIdsStep(acc: seq<string>, ids: seq<Option<string>>, k: nat)
    requires k < |ids|
    ensures AddIds(acc, ids[..k + 1]) == AddIds(AddIds(acc, ids[..k]), [ids[k]])
    decreases k
  {
    if k > 0 {
      assert ids[..k + 1][1..] == ids[1..][..k];
      assert ids[..k][1..] == ids[1..][..k - 1];
      if ids[0].Some? && ids[0].value !in acc {
        AddIdsStep(acc + [ids[0].value], ids[1..], k - 1);
      } else {
        AddIdsStep(acc, ids[1..], k - 1);
      }
    }
  }

  /** A new participant's queue: the bag with pieces dropped from the
      front while it is longer than `n`. */
  function DropToSize(s: seq<Piece>, n: int): (r: seq<Piece>)
    requires n >= 0
    ensures r == s[if |s| <= n then 0 else |s| - n..]
    decreases |s|
  {
    if |s| > n then DropToSize(s[1..], n) else s
  }

  // ---------------------------------------------------------------------
  // The game object

  /** The parts of the game that no turn operation changes. */
  datatype Setup = Setup(
    participantIds: seq<string>,
    remainingHouses: seq<Piece>,
    remainingPersons: seq<Piece>,
    piecesToPlay: map<string, seq<Piece>>,
    boards: map<string, WoodsyBoardData>)

  class WoodsyGameData {
    var participantIds: seq<string>
    var winner: string
    var remainingHouses: seq<Piece>
    var remainingPersons: seq<Piece>
    var piecesToPlay: map<string, seq<Piece>>
    var boards: map<string, WoodsyBoardData>
    var scores: map<string, int>
    const pieceBag: array<Piece>
    const minPiecesLeft: int
    const personScores: array<int>

    var currentParticipant: Option<string>
    const currentBoard: WoodsyBoardData
    var currentTurnPieces: seq<Piece>
    var currentTurnPlayedPieces: seq<Piece>
    var movingPerson: bool
    var personMovesLeft: int
    var turnFinished: bool
    var personCoordinates: C.Coordinates
    var lastError: ErrorCode

    /** The participants' board objects and their arrays. */
    ghost var Repr: set<object>

    ghost predicate Valid()
      reads this, currentBoard, currentBoard.board, Repr
    {
      && minPiecesLeft >= 0
      && TurnReady()
      && SetupValid()
    }

    /** The participants' bookkeeping agrees and their boards are valid.
        It reads only the participant fields, so turn operations keep it. */
    ghost predicate SetupValid()
      reads this`participantIds, this`scores, this`boards, this`piecesToPlay, this`Repr, Repr
    {
      Registered(participantIds, scores, boards, piecesToPlay) && BoardsValid()
    }

    /** Every participant's board is valid and lies in `Repr`, apart from
        this object and the current board. */
    ghost predicate BoardsValid()
      reads this`boards, this`Repr, Repr
    {
      && this !in Repr && currentBoard !in Repr && currentBoard.board !in Repr && personScores !in Repr
      && (forall id :: id in boards ==>
            boards[id] in Repr && boards[id].board in Repr && boards[id].Valid())
    }

    /** What the turn operations need: a goal-points entry per colour, a
        valid current board and a registered current participant. */
    ghost predicate TurnReady()
      reads this`currentParticipant, this`movingPerson, this`scores, currentBoard, currentBoard.board
    {
      && personScores.Length == NumberOfPeople as int
      && currentBoard.Valid()
      && TurnValid()
    }

    /** A turn in progress belongs to a participant with a score; only a
        turn can move a person. */
    ghost predicate TurnValid()
      reads this`currentParticipant, this`movingPerson, this`scores
    {
      && (currentParticipant.Some? ==> currentParticipant.value in scores)
      && (movingPerson ==> currentParticipant.Some?)
    }

    /** A step that keeps the turn invariant, changes the participants'
        bookkeeping at most in their score values and touches no
        participant's board keeps the whole game valid. */
    twostate lemma TurnKeepsValid()
      requires old(Valid()) && TurnReady()
      requires unchanged(this`participantIds, this`boards, this`piecesToPlay, this`Repr)
      requires scores.Keys == old(scores).Keys
      requires unchanged(old(Repr))
      ensures Valid()
    {
    }

    ghost function Snapshot(): (t: Turn)
      reads this, currentBoard, personScores
    {
      Turn(currentBoard.cells, scores, personScores[..], winner, currentParticipant,
           currentTurnPieces, currentTurnPlayedPieces, movingPerson, personMovesLeft,
           turnFinished, personCoordinates, lastError)
    }

    ghost function GetSetup(): Setup
      reads this
    {
      Setup(participantIds, remainingHouses, remainingPersons, piecesToPlay, boards)
    }

    /** Sets up a game for the given ids (null entries are skipped); the
        bag is the tile table shuffled with the swap choices `picks`. */
    constructor(inputParticipantIds: seq<Option<string>>, picks: seq<int>)
      requires ValidPicks(picks, |TileTable|)
      ensures Valid()
      ensures remainingPersons == StartingPersons() && remainingHouses == StartingHouses()
      ensures personScores[..] == [5, 5, 5, 5]
      ensures pieceBag[..] == FisherYates(TileTable, picks) && minPiecesLeft == 36
      ensures participantIds == AddIds([], inputParticipantIds)
      ensures AllNew()
      ensures currentBoard.cells == InitialGrid()
      ensures Idle()
    {
      var board := new WoodsyBoardData();
      var bag := Pieces.Pieces(picks);
      var houses, persons, points := StartingTables();
      participantIds := [];
      winner := "";
      remainingHouses := houses;
      remainingPersons := persons;
      piecesToPlay := map[];
      boards := map[];
      scores := map[];
      pieceBag := bag;
      minPiecesLeft := bag.Length;
      personScores := points;
      currentParticipant := None;
      currentBoard := board;
      currentTurnPieces := [];
      currentTurnPlayedPieces := [];
      movingPerson := false;
      personMovesLeft := 0;
      turnFinished := false;
      personCoordinates := C.At(0, 0);
      lastError := NoError;
      Repr := {};
      new;
      JoinAll(inputParticipantIds);
    }

    /** No turn has started: no winner, no current participant, no error and
        every per-turn field at its initial value. */
    ghost predicate Idle()
      reads this
    {
      && winner == "" && currentParticipant == None && lastError == NoError
      && currentTurnPieces == [] && currentTurnPlayedPieces == []
      && !movingPerson && personMovesLeft == 0 && !turnFinished && personCoordinates == C.At(0, 0)
    }

    /** Every participant still has the state it joined with: score 0, the
        bag as queue shortened to `minPiecesLeft` pieces, and an empty board. */
    ghost predicate AllNew()
      reads this, boards.Values, pieceBag
      requires minPiecesLeft >= 0
    {
      forall id :: id in boards ==>
        && id in scores && scores[id] == 0
        && id in piecesToPlay && piecesToPlay[id] == DropToSize(pieceBag[..], minPiecesLeft)
        && boards[id].cells == InitialGrid()
    }

    /** The constructor's loop: each present id joins unless it is already
        in the game. */
    method JoinAll(ids: seq<Option<string>>)
      requires minPiecesLeft >= 0 && SetupValid() && AllNew() && Idle()
      modifies this`participantIds, this`scores, this`boards, this`piecesToPlay, this`Repr
      ensures SetupValid() && AllNew() && Idle()
      ensures participantIds == AddIds(old(participantIds), ids)
    {
      var k := 0;
      while k < |ids|
        invariant 0 <= k <= |ids|
        invariant SetupValid() && AllNew() && Idle()
        invariant participantIds == AddIds(old(participantIds), ids[..k])
      {
        AddIdsStep(old(participantIds), ids, k);
        if ids[k].Some? {
          AddParticipantIfNeeded(ids[k].value);
        }
        k := k + 1;
      }
      assert ids[..k] == ids;
    }

    /** Adds an id not yet in the game; an id already there changes nothing. */
    method AddParticipantIfNeeded(participantId: string)
      requires minPiecesLeft >= 0 && SetupValid() && AllNew()
      modifies this`participantIds, this`scores, this`boards, this`piecesToPlay, this`Repr
      ensures old(Idle()) ==> Idle()
      ensures SetupValid() && AllNew()
      ensures participantId in old(participantIds) ==> unchanged(this)
      ensures participantId !in old(participantIds) ==>
        Joined(old(GetSetup()), old(scores), participantId) && fresh(boards[participantId])
    {
      if participantId in participantIds { return; }
      AddParticipant(participantId);
      JoinKeepsAllNew(participantId);
    }

    /** The state after `participantId` joined a game whose setup and scores
        were `before` and `scoresBefore`: it is the last id, its score is 0,
        its board is new and empty, and its queue is the bag shortened from
        the front to `minPiecesLeft` pieces; nothing else in the setup changes. */
    ghost predicate Joined(before: Setup, scoresBefore: map<string, int>, participantId: string)
      reads this, boards.Values, pieceBag
      requires minPiecesLeft >= 0
    {
      && participantIds == before.participantIds + [participantId]
      && scores == scoresBefore[participantId := 0]
      && piecesToPlay == before.piecesToPlay[participantId := DropToSize(pieceBag[..], minPiecesLeft)]
      && participantId in boards && boards[participantId].cells == InitialGrid()
      && boards == before.boards[participantId := boards[participantId]]
    }

    /** Adds an id not yet in the game: score 0, a new board, and the bag
        as queue, shortened from the front to `minPiecesLeft` pieces. */
    method AddParticipant(participantId: string)
      requires minPiecesLeft >= 0 && SetupValid() && participantId !in participantIds
      modifies this`participantIds, this`scores, this`boards, this`piecesToPlay, this`Repr
      ensures old(Idle()) ==> Idle()
      ensures SetupValid()
      ensures Joined(old(GetSetup()), old(scores), participantId) && fresh(boards[participantId])
    {
      var b := new WoodsyBoardData();
      var queue := BagQueue();
      Register(participantId, b, queue);
    }

    /** Registers a new id with board `b` and queue `queue`, keeping the
        game valid. */
    method Register(participantId: string, b: WoodsyBoardData, queue: seq<Piece>)
      requires SetupValid() && participantId !in participantIds
      requires b.Valid() && b !in Repr && b.board !in Repr && b != currentBoard && b.board != currentBoard.board
      modifies this`participantIds, this`scores, this`boards, this`piecesToPlay, this`Repr
      ensures old(Idle()) ==> Idle()
      ensures SetupValid()
      ensures participantIds == old(participantIds) + [participantId] && scores == old(scores)[participantId := 0]
      ensures boards == old(boards)[participantId := b] && piecesToPlay == old(piecesToPlay)[participantId := queue]
    {
      RegisterNew(participantIds, scores, boards, piecesToPlay, participantId, b, queue);
      Insert(participantId, b, queue);
      forall id | id in boards
        ensures boards[id] in Repr && boards[id].board in Repr && boards[id].Valid()
      {
        if id != participantId {
          assert boards[id] == old(boards)[id];
        }
      }
    }

    /** The four insertions: the id is appended, and it gets score 0, board
        `b` and queue `queue`; every other field keeps its value. */
    method Insert(participantId: string, b: WoodsyBoardData, queue: seq<Piece>)
      modifies this`participantIds, this`scores, this`boards, this`piecesToPlay, this`Repr
      ensures old(Idle()) ==> Idle()
      ensures participantIds == old(participantIds) + [participantId] && scores == old(scores)[participantId := 0]
      ensures boards == old(boards)[participantId := b] && piecesToPlay == old(piecesToPlay)[participantId := queue]
      ensures Repr == old(Repr) + {b, b.board}
    {
      participantIds := participantIds + [participantId];
      scores := scores[participantId := 0];
      boards := boards[participantId := b];
      piecesToPlay := piecesToPlay[participantId := queue];
      Repr := Repr + {b, b.board};
    }

    /** A join, or a step that changes nothing, keeps every participant in
        its starting state. */
    twostate lemma JoinKeepsAllNew(participantId: string)
      requires minPiecesLeft >= 0 && old(AllNew()) && unchanged(pieceBag) && unchanged(old(boards.Values))
      requires participantId in old(participantIds) ==> unchanged(this)
      requires participantId !in old(participantIds) ==> Joined(old(GetSetup()), old(scores), participantId)
      ensures AllNew()
    {
      forall id | id in boards
        ensures && id in scores && scores[id] == 0
                && id in piecesToPlay && piecesToPlay[id] == DropToSize(pieceBag[..], minPiecesLeft)
                && boards[id].cells == InitialGrid()
      {
        if id != participantId || participantId in old(participantIds) {
          assert boards[id] == old(boards[id]) && boards[id] in old(boards.Values);
        }
      }
    }

    /** A new participant's queue: the bag copied, then shortened from the
        front until at most `minPiecesLeft` pieces are left. */
    method BagQueue() returns (queue: seq<Piece>)
      requires minPiecesLeft >= 0
      ensures queue == DropToSize(pieceBag[..], minPiecesLeft)
    {
      queue := [];
      for k := 0 to pieceBag.Length
        invariant queue == pieceBag[..k]
      {
        queue := queue + [pieceBag[k]];
      }
      assert queue == pieceBag[..];
      while |queue| > minPiecesLeft
        invariant DropToSize(queue, minPiecesLeft) == DropToSize(pieceBag[..], minPiecesLeft)
        decreases |queue|
      {
        queue := queue[1..];
      }
    }

    /** The participant's board, or None for an unknown id. */
    function GetBoard(participantId: string): (r: Option<WoodsyBoardData>)
      requires Valid()
      reads this, currentBoard, currentBoard.board, Repr
      ensures r.Some? <==> participantId in participantIds
      ensures r.Some? ==> r.value == boards[participantId] && r.value.Valid() && r.value != currentBoard
    {
      if participantId in boards then Some(boards[participantId]) else None
    }

    /** Starts a turn: the participant's board is copied (transposed, see
        CopyGridTransposes) onto the current board, and the turn's queue
        is the person/house pairs still to place or else the head of the
        participant's queue. */
    method BeginTurn(participantId: string)
      requires Valid() && participantId in boards
      modifies this`currentParticipant, this`currentTurnPieces, this`currentTurnPlayedPieces,
        this`movingPerson, this`personMovesLeft, this`turnFinished, this`personCoordinates, this`lastError,
        currentBoard, currentBoard.board
      ensures Valid()
      ensures currentBoard.cells == CopyGrid(old(currentBoard.cells), boards[participantId].cells)
      ensures currentParticipant == Some(participantId)
      ensures currentTurnPieces == TurnPieces(remainingPersons, remainingHouses, |participantIds|, piecesToPlay[participantId])
      ensures currentTurnPlayedPieces == [] && !movingPerson && personMovesLeft == 0 && !turnFinished
      ensures personCoordinates == C.At(0, 0) && lastError == NoError
    {
      LoadBoard(participantId);
      NewTurn(participantId);
    }

    /** beginTurn after the board is loaded: the turn fields of a new turn
        of `participantId`. */
    method NewTurn(participantId: string)
      requires Valid() && participantId in boards
      modifies this`currentParticipant, this`currentTurnPieces, this`currentTurnPlayedPieces,
        this`movingPerson, this`personMovesLeft, this`turnFinished, this`personCoordinates, this`lastError
      ensures Valid()
      ensures currentParticipant == Some(participantId)
      ensures currentTurnPieces == TurnPieces(remainingPersons, remainingHouses, |participantIds|, piecesToPlay[participantId])
      ensures currentTurnPlayedPieces == [] && !movingPerson && personMovesLeft == 0 && !turnFinished
      ensures personCoordinates == C.At(0, 0) && lastError == NoError
    {
      var queue := TurnQueue(participantId);
      StartTurn(participantId, queue);
      TurnKeepsValid();
    }

    /** copyFrom on the current board, from the participant's board. */
    method LoadBoard(participantId: string)
      requires Valid() && participantId in boards
      modifies currentBoard, currentBoard.board
      ensures currentBoard.Valid()
      ensures currentBoard.cells == CopyGrid(old(currentBoard.cells), boards[participantId].cells)
    {
      currentBoard.CopyFrom(boards[participantId]);
    }

    /** The turn fields as a new turn of `participantId` with pieces
        `queue` sets them. */
    method StartTurn(participantId: string, queue: seq<Piece>)
      modifies this`currentParticipant, this`currentTurnPieces, this`currentTurnPlayedPieces,
        this`movingPerson, this`personMovesLeft, this`turnFinished, this`personCoordinates, this`lastError
      ensures currentParticipant == Some(participantId) && currentTurnPieces == queue
      ensures currentTurnPlayedPieces == [] && !movingPerson && personMovesLeft == 0 && !turnFinished
      ensures personCoordinates == C.At(0, 0) && lastError == NoError
    {
      currentParticipant := Some(participantId);
      currentTurnPieces := queue;
      currentTurnPlayedPieces := [];
      movingPerson := false;
      personMovesLeft := 0;
      turnFinished := false;
      personCoordinates := C.At(0, 0);
      lastError := NoError;
    }

    /** The pieces a turn of `participantId` starts with: the first one or
        two person/house pairs still to place (two in a two-player game),
        or else the head of the participant's queue. */
    method TurnQueue(participantId: string) returns (queue: seq<Piece>)
      requires participantId in piecesToPlay
      ensures queue == TurnPieces(remainingPersons, remainingHouses, |participantIds|, piecesToPlay[participantId])
    {
      queue := [];
      if |remainingPersons| > 0 {
        var numPairs := 1;
        if |participantIds| == 2 { numPairs := 2; }
        for i := 0 to numPairs
          invariant queue == PairPieces(remainingPersons, remainingHouses, i)
        {
          if i < |remainingPersons| {
            queue := queue + [remainingPersons[i]];
          }
          if i < |remainingHouses| {
            queue := queue + [remainingHouses[i]];
          }
        }
      }
      if |queue| == 0 {
        if |piecesToPlay[participantId]| > 0 {
          queue := queue + [piecesToPlay[participantId][0]];
        }
      }
    }

    /** Starts the current participant's turn over. */
    method RewindTurn()
      requires Valid() && currentParticipant.Some?
      modifies this`currentParticipant, this`currentTurnPieces, this`currentTurnPlayedPieces,
        this`movingPerson, this`personMovesLeft, this`turnFinished, this`personCoordinates, this`lastError,
        currentBoard, currentBoard.board
      ensures Valid()
      ensures currentParticipant == old(currentParticipant)
      ensures currentBoard.cells == CopyGrid(old(currentBoard.cells), boards[currentParticipant.value].cells)
      ensures currentTurnPieces == TurnPieces(remainingPersons, remainingHouses, |participantIds|,
                                              piecesToPlay[currentParticipant.value])
      ensures currentTurnPlayedPieces == [] && !movingPerson && personMovesLeft == 0 && !turnFinished
      ensures personCoordinates == C.At(0, 0) && lastError == NoError
    {
      BeginTurn(currentParticipant.value);
    }

    method PiecesLeft() returns (r: bool)
      modifies this`turnFinished
      ensures Snapshot() == Latch(old(Snapshot()))
      ensures r <==> !turnFinished
      ensures r ==> |currentTurnPieces| > 0
    {
      if |currentTurnPieces| == 0 { turnFinished := true; }
      if turnFinished { return false; }
      return true;
    }

    /** The piece to show next: EndOfTurn once the turn is over, else the
        head of the queue, which stays in the queue. */
    method GetNextPiece() returns (r: Piece)
      modifies this`turnFinished
      ensures Snapshot() == Latch(old(Snapshot()))
      ensures turnFinished ==> r == CreateEndOfTurnPiece()
      ensures !turnFinished ==> |currentTurnPieces| > 0 && r == currentTurnPieces[0]
    {
      var left := PiecesLeft();
      if !left { return CreateEndOfTurnPiece(); }
      return currentTurnPieces[0];
    }

    method SetFailure(e: ErrorCode) returns (r: Piece)
      modifies this`lastError
      ensures (Returned(r), Snapshot()) == Fail(old(Snapshot()), e)
    {
      lastError := e;
      return CreateFailurePiece();
    }

    method SetCurrentPiecePlayed()
      modifies this`currentTurnPieces, this`currentTurnPlayedPieces
      ensures Snapshot() == PiecePlayed(old(Snapshot()))
    {
      if |currentTurnPieces| == 0 { return; }
      currentTurnPlayedPieces := currentTurnPlayedPieces + [currentTurnPieces[0]];
      currentTurnPieces := currentTurnPieces[1..];
    }

    method IncrementScore(x: int)
      requires currentParticipant.Some? && currentParticipant.value in scores
      modifies this`scores
      ensures Snapshot() == AddScore(old(Snapshot()), x)
    {
      var newScore := scores[currentParticipant.value] + x;
      scores := scores[currentParticipant.value := newScore];
    }

    /** The moves left for a moving person; 0 when no person moves. */
    function MovingPersonMovesLeft(): (r: int)
      reads this
      ensures !movingPerson ==> r == 0
      ensures movingPerson ==> r == personMovesLeft
    {
      if !movingPerson then 0 else personMovesLeft
    }

    /** Plays piece p at column x, row y of the current board. */
    method PlayPieceAt(p: Piece, x: int, y: int) returns (r: Outcome)
      requires TurnReady()
      modifies this`scores, this`winner, this`currentTurnPieces, this`currentTurnPlayedPieces,
        this`personMovesLeft, this`personCoordinates, this`lastError, this`turnFinished,
        currentBoard, currentBoard.board, personScores
      ensures TurnReady()
      ensures (r, Snapshot()) == PlayAt(old(Snapshot()), p, x, y)
    {
      var c := C.At(x, y);
      if movingPerson && personMovesLeft <= 0 {
        var f := SetFailure(AllMovesFinished);
        return Returned(f);
      }
      var left := PiecesLeft();
      if !left {
        var f := SetFailure(TurnFinished);
        return Returned(f);
      }
      if !IsValidCoords(c) {
        var f := SetFailure(InvalidCoords);
        return Returned(f);
      }
      var currentPiece := currentBoard.GetCellAt(c);
      if IsPerson(p) && movingPerson {
        r := MovePerson(x, y, currentPiece);
      } else if IsFigure(p) {
        r := PlaceFigure(p, x, y, currentPiece);
      } else {
        return NoReturn;
      }
    }

    /** The house-or-person branch of playPieceAt: edge only, far enough
        from its partner, onto green grass. */
    method PlaceFigure(p: Piece, x: int, y: int, currentPiece: Piece) returns (r: Outcome)
      requires TurnReady() && IsValidCoords(C.At(x, y)) && currentPiece == Get(currentBoard.cells, x, y)
      modifies this`currentTurnPieces, this`currentTurnPlayedPieces, this`lastError, currentBoard, currentBoard.board
      ensures TurnReady()
      ensures (r, Snapshot()) == PlaceStep(old(Snapshot()), p, x, y)
    {
      var c := C.At(x, y);
      if !IsOnEdge(c) {
        var f := SetFailure(PeopleAndHousesEdgeOnly);
        return Returned(f);
      }
      var d := currentBoard.DistanceToPartner(p, c);
      if d < 5 {
        var f := SetFailure(HousePersonTooClose);
        return Returned(f);
      }
      if !IsGreenGrassPiece(currentPiece) {
        var f := SetFailure(HousesAndPeopleOnlyOnGreenGrass);
        return Returned(f);
      }
      var newPiece := CombinePieces(currentPiece, p);
      if IsFailurePiece(newPiece) {
        var f := SetFailure(UnexpectedProblem);
        return Returned(f);
      }
      PutPiece(c, newPiece);
      return Returned(CreateSuccessPiece());
    }

    /** A successful placement: the cell gets the new piece and the turn's
        current piece counts as played. */
    method PutPiece(c: C.Coordinates, newPiece: Piece)
      requires TurnReady()
      modifies this`currentTurnPieces, this`currentTurnPlayedPieces, currentBoard, currentBoard.board
      ensures TurnReady()
      ensures Snapshot() == PiecePlayed(old(Snapshot()).(grid := SetAt(old(currentBoard.cells), c, newPiece)))
    {
      currentBoard.SetCellAt(c, newPiece);
      SetCurrentPiecePlayed();
    }

    /** The moving-person branch of playPieceAt, after the guards. */
    method MovePerson(x: int, y: int, currentPiece: Piece) returns (r: Outcome)
      requires TurnReady() && movingPerson && personMovesLeft > 0 && !turnFinished && |currentTurnPieces| > 0
      requires IsValidCoords(C.At(x, y)) && currentPiece == Get(currentBoard.cells, x, y)
      modifies this`scores, this`winner, this`currentTurnPieces, this`currentTurnPlayedPieces,
        this`personMovesLeft, this`personCoordinates, this`lastError, this`turnFinished,
        currentBoard, currentBoard.board, personScores
      ensures TurnReady()
      ensures (r, Snapshot()) == MoveStep(old(Snapshot()), x, y)
    {
      var c := C.At(x, y);
      var currentPiece := currentPiece;
      var sourcePiece := currentBoard.GetCellAt(personCoordinates);
      var thisPersonPiece := GetPersonPieceFrom(sourcePiece);
      var thisPersonNumber := PersonNumber(thisPersonPiece);
      var goalPiece := CreateGoalPiece(thisPersonNumber, 0, c);
      var reachedGoal := goalPiece == currentPiece;
      if !PiecesConnect(currentBoard.GetCellAt(personCoordinates), currentPiece,
                        personCoordinates.x, personCoordinates.y, x, y) {
        var f := SetFailure(PersonHasNoPath);
        return Returned(f);
      }
      if IsOnEdge(c) && !reachedGoal {
        var f := SetFailure(PersonOnEdgeCanOnlyGoToTheirHouse);
        return Returned(f);
      }
      r := EnterCell(c, sourcePiece, currentPiece, thisPersonNumber, reachedGoal);
    }

    /** The person of colour n leaves `source` and enters cell c, which
        holds `target`: the move itself, its coins and its goal. */
    method EnterCell(c: C.Coordinates, source: Piece, target: Piece, n: bv32, reachedGoal: bool)
      returns (r: Outcome)
      requires TurnReady() && movingPerson && n < 8
      modifies this`scores, this`winner, this`personMovesLeft, this`personCoordinates,
        currentBoard, currentBoard.board, personScores
      ensures TurnReady()
      ensures (r, Snapshot()) == MoveOn(old(Snapshot()), c, source, target, n, reachedGoal)
    {
      var currentPiece := SetPersonNumber(target, n);
      Depart(c, source);
      if Gold(currentPiece) || Silver(currentPiece) {
        CollectCoins(currentPiece);
        currentPiece := SetCoins(currentPiece, false, false);
      }
      r := Arrive(c, currentPiece, n, reachedGoal);
    }

    /** The person of colour n enters cell c with `entered`, scoring at its
        goal. */
    method Arrive(c: C.Coordinates, entered: Piece, n: bv32, reachedGoal: bool) returns (r: Outcome)
      requires TurnReady() && movingPerson && n < 8
      modifies this`scores, this`winner, currentBoard, currentBoard.board, personScores
      ensures TurnReady()
      ensures (r, Snapshot()) == Arrived(old(Snapshot()), c, entered, n, reachedGoal)
    {
      if reachedGoal {
        if n >= NumberOfPeople {
          return IndexOutOfBounds;
        }
        ScoreGoal(ColourIndex(n));
        DeclareWinner();
      }
      currentBoard.SetCellAt(c, entered);
      return Returned(CreateSuccessPiece());
    }

    /** The coins on the cell a person enters score for the current
        participant: gold, then silver. */
    method CollectCoins(p: Piece)
      requires currentParticipant.Some? && currentParticipant.value in scores
      modifies this`scores
      ensures Snapshot() == CoinScore(old(Snapshot()), p)
    {
      if Gold(p) { IncrementScore(PointsForGold); }
      if Silver(p) { IncrementScore(PointsForSilver); }
    }

    /** The moving person leaves its cell, taking the person off it, for
        cell c. */
    method Depart(c: C.Coordinates, source: Piece)
      requires TurnReady()
      modifies this`personMovesLeft, this`personCoordinates, currentBoard, currentBoard.board
      ensures TurnReady()
      ensures Snapshot() == Departed(old(Snapshot()), c, source)
    {
      var sourcePiece := SetPersonNumber(source, 0);
      currentBoard.SetCellAt(personCoordinates, sourcePiece);
      personMovesLeft := personMovesLeft - 1;
      personCoordinates := c;
    }

    /** A person of colour index i reaches its goal: the colour's goal
        points score and drop by one, but not below 0. */
    method ScoreGoal(i: int)
      requires TurnReady() && currentParticipant.Some? && 0 <= i < NumberOfPeople as int
      modifies this`scores, personScores
      ensures TurnReady()
      ensures Snapshot() == GoalPoints(old(Snapshot()), i)
    {
      IncrementScore(personScores[i]);
      personScores[i] := personScores[i] - 1;
      if personScores[i] < 0 {
        personScores[i] := 0;
      }
    }

    /** A winning board makes the current participant the winner. */
    method DeclareWinner()
      requires TurnReady() && currentParticipant.Some?
      modifies this`winner
      ensures Snapshot() == WinClaimed(old(Snapshot()), Winning(currentBoard.cells))
    {
      var won := currentBoard.IsWinningBoard();
      if won {
        winner := currentParticipant.value;
      }
    }

    /** Discards piece p: only the rejections exist. */
    method PlayPieceDiscard(p: Piece) returns (r: Outcome)
      modifies this`lastError
      ensures (r, Snapshot()) == DiscardAt(old(Snapshot()), p)
    {
      if movingPerson {
        var f := SetFailure(CantDiscardMovingPerson);
        return Returned(f);
      }
      if IsHouse(p) {
        var f := SetFailure(CantDiscardHouse);
        return Returned(f);
      }
      if IsPerson(p) {
        var f := SetFailure(CantDiscardPerson);
        return Returned(f);
      }
      return NoReturn;
    }
  }
}
