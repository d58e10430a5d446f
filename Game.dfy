/*
 * LudoGame.move_token of LudoGameFinal.py: one token of one seat moves by a
 * roll. The selector is checked, a home token needs a six to come out, the
 * board is updated through move_piece, the token's step count and status are
 * set, and tokens evicted by a capture are sent home on their own seat.
 */
module Game {
  import opened Wrappers
  import opened Spaces
  import opened Boards
  import opened Players

  /** The Player state of every seat. */
  datatype Table = Table(a: PlayerState, b: PlayerState, c: PlayerState, d: PlayerState)
  {
    function Get(seat: Seat): PlayerState
    {
      match seat
      case A => a
      case B => b
      case C => c
      case D => d
    }

    /** The table with the state of `seat` replaced by `ps`. */
    function With(seat: Seat, ps: PlayerState): (r: Table)
      ensures r.Get(seat) == ps
      ensures forall other :: other != seat ==> r.Get(other) == Get(other)
    {
      match seat
      case A => this.(a := ps)
      case B => this.(b := ps)
      case C => this.(c := ps)
      case D => this.(d := ps)
    }
  }

  /** Everything move_token reads and writes: the four players and the board. */
  datatype GameState = GameState(table: Table, board: BoardState)

  /** Why a move did not complete: InvalidToken, or an exception escaping move_piece. */
  datatype MoveError = InvalidToken | Raise(fault: Fault)

  datatype TurnResult = Ok | Err(error: MoveError)

  /** A new game: four fresh players and an empty board. */
  ghost predicate IsNewGame(g: GameState)
  {
    && (forall seat :: g.table.Get(seat) == NewPlayer)
    && IsNew(g.board)
  }

  /** The token of `seat` in `slot` takes state `ts`. */
  function SetToken(g: GameState, seat: Seat, slot: Slot, ts: TokenState): GameState
  {
    g.(table := g.table.With(seat, g.table.Get(seat).With(slot, ts)))
  }

  /**
   * Sends the evicted tokens home on the seat of the first of them: each
   * evicted token's slot is reset on that seat, and no other seat and no
   * cell of the board changes.
   */
  function Evict(g: GameState, evicted: seq<Token>): (r: GameState)
    ensures r.board == g.board
    ensures forall s :: (evicted == [] || s != evicted[0].seat) ==> r.table.Get(s) == g.table.Get(s)
    ensures forall t :: t in evicted ==> r.table.Get(evicted[0].seat).Get(t.slot) == AtHome
  {
    if evicted == [] then g
    else
      var seat := evicted[0].seat;
      ResetAllSendsHome(g.table.Get(seat), evicted);
      g.(table := g.table.With(seat, ResetAll(g.table.Get(seat), evicted)))
  }

  /**
   * The spaces move_token hands to move_piece once the token is in play: the
   * end is named from the new step count (an overshoot passes the int
   * 56 + (56 - steps)); a ready token moves from the ready cell unless it
   * overshoots or finishes, otherwise the token moves from its own space.
   */
  function Route(seat: Seat, steps: int, roll: int): (r: (Space, Space))
    ensures steps + roll > FinishSteps ==> r.1 == Number(2 * FinishSteps - steps - roll) && !IsKey(r.1)
    ensures steps + roll == FinishSteps ==> r.1 == F
    ensures 1 <= steps + roll < FinishSteps ==> IsKey(r.1) && r.1 == SpaceName(seat, steps + roll)
    ensures steps == 0 && steps + roll <= FinishSteps ==> r.0 == (if steps + roll == FinishSteps then R else ReadyCell(seat))
    ensures steps != 0 || steps + roll > FinishSteps ==> r.0 == SpaceName(seat, steps)
  {
    var startPos := SpaceName(seat, steps);
    var endPos := SpaceName(seat, steps + roll);
    if endPos.Number? then (startPos, Number(FinishSteps + endPos.n))
    else if endPos == F then (startPos, F)
    else if startPos == R then (ReadyCell(seat), endPos)
    else (startPos, endPos)
  }

  /** The token's state after a completed move_piece, as move_token sets it. */
  function Stepped(seat: Seat, ts: TokenState, roll: int): (r: TokenState)
    ensures ts.steps + roll > FinishSteps ==> r == ts.(steps := 2 * FinishSteps - ts.steps - roll)
    ensures ts.steps + roll == FinishSteps ==> r == TokenState(FinishSteps, Finished)
    ensures ts.steps == 0 && roll < FinishSteps ==> r == TokenState(roll, OnBoard)
    ensures ts.steps != 0 && ts.steps + roll < FinishSteps ==> r == ts.(steps := ts.steps + roll)
  {
    var endSteps := ts.steps + roll;
    var endPos := SpaceName(seat, endSteps);
    if endPos.Number? then ts.(steps := FinishSteps + endPos.n)
    else if endPos == F then TokenState(FinishSteps, Finished)
    else if SpaceName(seat, ts.steps) == R then TokenState(endSteps, OnBoard)
    else ts.(steps := endSteps)
  }

  /** The board update of move_token once the token is in play, and the token's new state. */
  function Advance(b: BoardState, seat: Seat, slot: Slot, ts: TokenState, roll: int): (r: (BoardState, PieceOutcome, TokenState))
    requires Inv(b)
    ensures Inv(r.0)
  {
    var (from, to) := Route(seat, ts.steps, roll);
    MoveWithKeepsInv(b, Token(seat, slot), from, to, false);
    var (b1, o) := Move(b, Token(seat, slot), from, to);
    (b1, o, Stepped(seat, ts, roll))
  }

  /**
   * move_token for the token of `seat` named by `sel`, moved by `roll`.
   * A rejected selector, a home token without a six and a finished token
   * change nothing; an exception out of move_piece keeps whatever the board
   * had changed before it was raised and sets no step count.
   */
  function Turn(g: GameState, seat: Seat, sel: string, roll: int): (r: (GameState, TurnResult))
    requires Inv(g.board)
    ensures Inv(r.0.board)
    ensures r.1 == Err(InvalidToken) ==> r.0 == g
  {
    match SlotNamed(sel)
    case None => (g, Err(InvalidToken))
    case Some(slot) =>
      var startPos := SpaceName(seat, g.table.Get(seat).Get(slot).steps);
      if startPos == H && roll == 6 then LeaveHome(g, seat, slot)
      else if startPos == H || startPos == F then (g, Err(InvalidToken))
      else Play(g, seat, slot, roll)
  }

  /**
   * A home token with a six: move_piece from "H" to the ready cell, then
   * steps 0 and status READY, unless move_piece raised.
   */
  function LeaveHome(g: GameState, seat: Seat, slot: Slot): (r: (GameState, TurnResult))
    requires Inv(g.board)
    ensures Inv(r.0.board) && r.1 != Err(InvalidToken)
  {
    MoveWithKeepsInv(g.board, Token(seat, slot), H, ReadyCell(seat), false);
    var (b1, o) := Move(g.board, Token(seat, slot), H, ReadyCell(seat));
    if o.Raised? then (g.(board := b1), Err(Raise(o.fault)))
    else (SetToken(g.(board := b1), seat, slot, TokenState(0, Ready)), Ok)
  }

  /**
   * A token in play: move_piece along its route, then its new state, then
   * the evicted tokens sent home; after a raise only the board has changed.
   */
  function Play(g: GameState, seat: Seat, slot: Slot, roll: int): (r: (GameState, TurnResult))
    requires Inv(g.board)
    ensures Inv(r.0.board) && r.1 != Err(InvalidToken)
  {
    var (b1, o, ts1) := Advance(g.board, seat, slot, g.table.Get(seat).Get(slot), roll);
    if o.Raised? then (g.(board := b1), Err(Raise(o.fault)))
    else
      var g1 := SetToken(g.(board := b1), seat, slot, ts1);
      if o.Kicked? then (Evict(g1, o.evicted), Ok) else (g1, Ok)
  }

  /** A selector other than P or Q (either case) raises InvalidToken and changes nothing. */
  lemma TurnRejectsSelector(g: GameState, seat: Seat, sel: string, roll: int)
    requires Inv(g.board)
    requires sel != "P" && sel != "p" && sel != "Q" && sel != "q"
    ensures Turn(g, seat, sel, roll) == (g, Err(InvalidToken))
  {
  }

  /**
   * A home token needs a six, and a finished token cannot move: both raise
   * InvalidToken and change nothing.
   */
  lemma TurnRejectsHomeOrFinished(g: GameState, seat: Seat, slot: Slot, sel: string, roll: int)
    requires Inv(g.board) && SlotNamed(sel) == Some(slot)
    requires var steps := g.table.Get(seat).Get(slot).steps;
      (steps == -1 && roll != 6) || steps == FinishSteps
    ensures Turn(g, seat, sel, roll) == (g, Err(InvalidToken))
  {
  }

  /**
   * A home token with a six is put on the seat's ready cell (the ring cell
   * after its start) with steps 0 and status READY, and travels no further.
   * Onto an empty or friendly ready cell nothing else changes on the board.
   */
  lemma TurnLeavesHome(g: GameState, seat: Seat, slot: Slot, sel: string)
    requires Consistent(g.board) && SlotNamed(sel) == Some(slot)
    requires g.table.Get(seat).Get(slot).steps == -1
    requires var cell := g.board.cells[ReadyCell(seat)]; cell == [] || cell[0].seat == seat
    ensures var (g1, r) := Turn(g, seat, sel, 6);
      && r == Ok
      && g1.table.Get(seat).Get(slot) == TokenState(0, Ready)
      && g1.table.Get(seat).Get(Other(slot)) == g.table.Get(seat).Get(Other(slot))
      && (forall s :: s != seat ==> g1.table.Get(s) == g.table.Get(s))
      && g1.board.cells == g.board.cells[ReadyCell(seat) := g.board.cells[ReadyCell(seat)] + [Token(seat, slot)]]
      && g1.board.finish == g.board.finish
      && ReadyCell(seat) in g1.board.occupied
  {
    var cell := ReadyCell(seat);
    if g.board.cells[cell] == [] {
      MoveFromHome(g.board, Token(seat, slot), cell);
    } else {
      MoveFriendly(g.board, Token(seat, slot), H, cell);
    }
  }

  /**
   * Leaving home onto a hostile token: move_piece has already replaced the
   * cell's tokens by the mover when taking the mover off "H" raises
   * KeyError; no step count, status or evicted token is updated.
   */
  lemma TurnLeavesHomeOntoHostile(g: GameState, seat: Seat, slot: Slot, sel: string)
    requires Consistent(g.board) && SlotNamed(sel) == Some(slot)
    requires g.table.Get(seat).Get(slot).steps == -1
    requires var cell := g.board.cells[ReadyCell(seat)]; cell != [] && cell[0].seat != seat
    ensures var (g1, r) := Turn(g, seat, sel, 6);
      && r == Err(Raise(KeyError))
      && g1.table == g.table
      && g1.board.cells == g.board.cells[ReadyCell(seat) := [Token(seat, slot)]]
  {
    MoveCaptureFromHome(g.board, Token(seat, slot), ReadyCell(seat));
  }

  /**
   * The capture from home strands the evicted tokens: a hostile token whose
   * count names the mover's ready cell was cut off that cell, but its count
   * is not reset, so it no longer stands where its count puts it.
   */
  lemma HomeCaptureUnplaces(g: GameState, seat: Seat, slot: Slot, sel: string, v: Token)
    requires Consistent(g.board) && SlotNamed(sel) == Some(slot)
    requires g.table.Get(seat).Get(slot).steps == -1
    requires var cell := g.board.cells[ReadyCell(seat)]; cell != [] && cell[0].seat != seat
    requires v.seat != seat
    requires var st := g.table.Get(v.seat).Get(v.slot).steps;
      1 <= st < FinishSteps && SpaceName(v.seat, st) == ReadyCell(seat)
    ensures Placed(g, v.seat, v.slot) <==> v in g.board.cells[ReadyCell(seat)]
    ensures Turn(g, seat, sel, 6).1 == Err(Raise(KeyError))
    ensures !Placed(Turn(g, seat, sel, 6).0, v.seat, v.slot)
  {
    TurnLeavesHomeOntoHostile(g, seat, slot, sel);
    var g1 := Turn(g, seat, sel, 6).0;
    assert g1.table.Get(v.seat).Get(v.slot) == g.table.Get(v.seat).Get(v.slot);
    assert g1.board.cells[ReadyCell(seat)] == [Token(seat, slot)];
  }

  /**
   * A token that is not on the cell its count names, moving onto an empty
   * cell: move_piece appends it at the end cell, then removing it from its
   * start raises ValueError, so the end cell holds it but is never listed.
   */
  lemma TurnOffItsCell(g: GameState, seat: Seat, slot: Slot, sel: string, roll: int)
    requires Consistent(g.board) && SlotNamed(sel) == Some(slot)
    requires var steps := g.table.Get(seat).Get(slot).steps;
      1 <= steps && 1 <= roll && steps + roll < FinishSteps
    requires var sp := SpaceName(seat, g.table.Get(seat).Get(slot).steps);
      sp in g.board.cells && Token(seat, slot) !in g.board.cells[sp]
    requires var to := SpaceName(seat, g.table.Get(seat).Get(slot).steps + roll);
      to in g.board.cells && g.board.cells[to] == []
    ensures var (g1, r) := Turn(g, seat, sel, roll);
      var to := SpaceName(seat, g.table.Get(seat).Get(slot).steps + roll);
      && r == Err(Raise(ValueError))
      && g1.table == g.table
      && g1.board.cells == g.board.cells[to := [Token(seat, slot)]]
      && g1.board.occupied == g.board.occupied
      && !Consistent(g1.board)
  {
    var token := Token(seat, slot);
    var steps := g.table.Get(seat).Get(slot).steps;
    var from, to := SpaceName(seat, steps), SpaceName(seat, steps + roll);
    if from == to {
      SpaceNameInjective(seat, steps, steps + roll);
    }
    assert Route(seat, steps, roll) == (from, to);
    TurnPlays(g, seat, slot, sel, roll);
    MoveOffItsCell(g.board, token, from, to);
  }

  /**
   * A position for the concrete instance below: c_p (28 steps) stands on "1",
   * A's ready cell, and d_p (43 steps) on "30"; every other token is home.
   */
  function StrandingStart(): (g: GameState)
    ensures Consistent(g.board)
    ensures forall seat, slot :: Placed(g, seat, slot)
    ensures g.table.Get(A).Get(P).steps == -1 && g.table.Get(C).Get(P) == TokenState(28, OnBoard)
    ensures g.board.cells[ReadyCell(A)] == [Token(C, P)] && g.board.cells[SpaceName(C, 31)] == []
  {
    var g := GameState(Table(NewPlayer, NewPlayer, NewPlayer.With(P, TokenState(28, OnBoard)),
                             NewPlayer.With(P, TokenState(43, OnBoard))),
                       Board2(Ring(1), [Token(C, P)], Ring(30), [Token(D, P)]));
    StrandingCells();
    assert forall seat, slot :: Placed(g, seat, slot);
    g
  }

  /**
   * The concrete instance: from that consistent position, where every token
   * stands where its count puts it, A brings p out with a six onto c_p.
   * KeyError: c_p is off the board but keeps its count. Then c_p moves 3:
   * it is appended to "4", removing it from "1" raises ValueError, and "4"
   * holds a token without being listed.
   */
  lemma HomeCaptureCounterexample()
    ensures var (g1, r1) := Turn(StrandingStart(), A, "p", 6);
      && r1 == Err(Raise(KeyError))
      && !Placed(g1, C, P)
      && Consistent(g1.board)
      && var (g2, r2) := Turn(g1, C, "p", 3);
      && r2 == Err(Raise(ValueError))
      && g2.board.cells == g1.board.cells[Ring(4) := [Token(C, P)]]
      && !Consistent(g2.board)
  {
    HomeCaptureFirstTurn();
    StrandingCells();
    TurnOffItsCell(Turn(StrandingStart(), A, "p", 6).0, C, P, "p", 3);
  }

  /** The first turn of HomeCaptureCounterexample: A's capture from home. */
  lemma HomeCaptureFirstTurn()
    ensures var (g1, r1) := Turn(StrandingStart(), A, "p", 6);
      && r1 == Err(Raise(KeyError))
      && !Placed(g1, C, P)
      && Consistent(g1.board)
      && g1.table == StrandingStart().table
      && g1.board.cells == StrandingStart().board.cells[ReadyCell(A) := [Token(A, P)]]
  {
    var g0 := StrandingStart();
    HomeCaptureUnplaces(g0, A, P, "p", Token(C, P));
    TurnKeepsConsistent(g0, A, "p", 6);
    TurnLeavesHomeOntoHostile(g0, A, P, "p");
  }

  /** The cells the counts of that position name. */
  lemma StrandingCells()
    ensures SpaceName(C, 28) == Ring(1) == ReadyCell(A)
    ensures SpaceName(D, 43) == Ring(30)
    ensures SpaceName(C, 31) == Ring(4)
  {
    SpaceNameOnPath(C, 28);
    SpaceNameOnPath(D, 43);
    SpaceNameOnPath(C, 31);
    assert (28 + 28) % 56 == 0 && (42 + 43) % 56 == 29 && (28 + 31) % 56 == 3;
  }

  /**
   * A roll past the finish passes an int where a space name is expected:
   * move_piece raises KeyError before touching anything, so nothing changes.
   */
  lemma TurnOvershoot(g: GameState, seat: Seat, slot: Slot, sel: string, roll: int)
    requires Inv(g.board) && SlotNamed(sel) == Some(slot)
    requires var steps := g.table.Get(seat).Get(slot).steps;
      0 <= steps < FinishSteps && steps + roll > FinishSteps
    ensures Turn(g, seat, sel, roll) == (g, Err(Raise(KeyError)))
  {
    var ts := g.table.Get(seat).Get(slot);
    AdvanceOvershoot(g.board, seat, slot, ts, roll);
    assert SpaceName(seat, ts.steps) != H && SpaceName(seat, ts.steps) != F;
    assert Turn(g, seat, sel, roll) == Play(g, seat, slot, roll);
  }

  /** Past the finish the end handed to move_piece is an int, so it raises KeyError and changes nothing. */
  lemma AdvanceOvershoot(b: BoardState, seat: Seat, slot: Slot, ts: TokenState, roll: int)
    requires Inv(b) && 0 <= ts.steps < FinishSteps && ts.steps + roll > FinishSteps
    ensures Advance(b, seat, slot, ts, roll).0 == b
    ensures Advance(b, seat, slot, ts, roll).1 == Raised(KeyError)
  {
    var endPos := SpaceName(seat, ts.steps + roll);
    assert Route(seat, ts.steps, roll) == (SpaceName(seat, ts.steps), Number(FinishSteps + endPos.n));
    MoveToNonKey(b, Token(seat, slot), SpaceName(seat, ts.steps), Number(FinishSteps + endPos.n));
  }

  /**
   * Reaching step 56 exactly puts the token in the finish list with steps 56
   * and status FINISHED.
   */
  lemma TurnFinishes(g: GameState, seat: Seat, slot: Slot, sel: string, roll: int)
    requires Consistent(g.board) && SlotNamed(sel) == Some(slot)
    requires var steps := g.table.Get(seat).Get(slot).steps;
      1 <= steps < FinishSteps && steps + roll == FinishSteps
    requires var sp := SpaceName(seat, g.table.Get(seat).Get(slot).steps);
      sp in g.board.cells && Token(seat, slot) in g.board.cells[sp]
    ensures var (g1, r) := Turn(g, seat, sel, roll);
      && r == Ok
      && g1.table.Get(seat).Get(slot) == TokenState(FinishSteps, Finished)
      && g1.table.Get(seat).Get(Other(slot)) == g.table.Get(seat).Get(Other(slot))
      && (forall s :: s != seat ==> g1.table.Get(s) == g.table.Get(s))
      && g1.board.finish == g.board.finish + [Token(seat, slot)]
  {
    var sp := SpaceName(seat, g.table.Get(seat).Get(slot).steps);
    MoveToFinish(g.board, Token(seat, slot), sp);
    PlayLeavesOthers(g, seat, slot, roll, Route(seat, g.table.Get(seat).Get(slot).steps, roll).1);
  }

  /**
   * A ready token moves from the ready cell (where it physically stands) and
   * becomes ON BOARD with steps equal to the roll.
   */
  lemma TurnFromReady(g: GameState, seat: Seat, slot: Slot, sel: string, roll: int)
    requires Consistent(g.board) && SlotNamed(sel) == Some(slot)
    requires g.table.Get(seat).Get(slot).steps == 0 && 1 <= roll <= 6
    requires Token(seat, slot) in g.board.cells[ReadyCell(seat)]
    ensures var (g1, r) := Turn(g, seat, sel, roll);
      && r == Ok
      && g1.table.Get(seat).Get(slot) == TokenState(roll, OnBoard)
      && Token(seat, slot) in g1.board.cells[SpaceName(seat, roll)]
      && LeavesOthers(g, g1, seat, slot, SpaceName(seat, roll))
  {
    var token := Token(seat, slot);
    var ts := g.table.Get(seat).Get(slot);
    AdvanceFromReady(g.board, seat, slot, ts, roll);
    ArriveOnKey(g.board, token, ReadyCell(seat), SpaceName(seat, roll));
    assert SpaceName(seat, ts.steps) == R;
    assert Turn(g, seat, sel, roll) == Play(g, seat, slot, roll);
    PlayMover(g, seat, slot, roll);
    PlayLeavesOthers(g, seat, slot, roll, SpaceName(seat, roll));
  }

  /**
   * A completed move in play: the board is move_piece's, the mover takes its
   * new state, and the resets, on the evicted (hostile) seat, leave it alone.
   */
  lemma PlayMover(g: GameState, seat: Seat, slot: Slot, roll: int)
    requires Inv(g.board)
    requires !Advance(g.board, seat, slot, g.table.Get(seat).Get(slot), roll).1.Raised?
    ensures Play(g, seat, slot, roll).1 == Ok
    ensures Play(g, seat, slot, roll).0.board == Advance(g.board, seat, slot, g.table.Get(seat).Get(slot), roll).0
    ensures Play(g, seat, slot, roll).0.table.Get(seat)
         == g.table.Get(seat).With(slot, Advance(g.board, seat, slot, g.table.Get(seat).Get(slot), roll).2)
    ensures Play(g, seat, slot, roll).0.table.Get(seat).Get(slot) == Advance(g.board, seat, slot, g.table.Get(seat).Get(slot), roll).2
  {
  }

  /** No token of seat `s` stands on `to`, so a move onto `to` evicts none of them. */
  ghost predicate SparedBy(b: BoardState, to: Space, s: Seat)
  {
    to !in b.cells || b.cells[to] == [] || b.cells[to][0].seat != s
  }

  /** Seat `s` is the mover's, or has a token on `to`, or is unchanged from g to g1. */
  ghost predicate SeatKept(g: GameState, g1: GameState, seat: Seat, to: Space, s: Seat)
  {
    s == seat || !SparedBy(g.board, to, s) || g1.table.Get(s) == g.table.Get(s)
  }

  /**
   * From g to g1, the other token of the mover is unchanged, and so is every
   * other seat that has no token on the end cell `to` (the four seats are
   * listed one by one; LeavesOthersEvery states it for all seats at once).
   */
  ghost predicate LeavesOthers(g: GameState, g1: GameState, seat: Seat, slot: Slot, to: Space)
  {
    && g1.table.Get(seat).Get(Other(slot)) == g.table.Get(seat).Get(Other(slot))
    && SeatKept(g, g1, seat, to, A) && SeatKept(g, g1, seat, to, B)
    && SeatKept(g, g1, seat, to, C) && SeatKept(g, g1, seat, to, D)
  }

  /** LeavesOthers, read for every seat. */
  lemma LeavesOthersEvery(g: GameState, g1: GameState, seat: Seat, slot: Slot, to: Space)
    requires LeavesOthers(g, g1, seat, slot, to)
    ensures forall s :: s != seat && SparedBy(g.board, to, s) ==> g1.table.Get(s) == g.table.Get(s)
  {
    forall s | s != seat && SparedBy(g.board, to, s)
      ensures g1.table.Get(s) == g.table.Get(s)
    {
      assert SeatKept(g, g1, seat, to, s);
    }
  }

  /**
   * A completed move in play leaves the mover's other token alone, and every
   * other seat too, except the seat of the tokens it found on its end cell.
   */
  lemma PlayLeavesOthers(g: GameState, seat: Seat, slot: Slot, roll: int, to: Space)
    requires Inv(g.board)
    requires !Advance(g.board, seat, slot, g.table.Get(seat).Get(slot), roll).1.Raised?
    requires to == Route(seat, g.table.Get(seat).Get(slot).steps, roll).1
    ensures LeavesOthers(g, Play(g, seat, slot, roll).0, seat, slot, to)
  {
    var ts := g.table.Get(seat).Get(slot);
    var from := Route(seat, ts.steps, roll).0;
    var (b1, o) := Move(g.board, Token(seat, slot), from, to);
    assert Advance(g.board, seat, slot, ts, roll).1 == o;
    PlayMover(g, seat, slot, roll);
    if o.Kicked? {
      assert o.evicted == g.board.cells[to] && o.evicted[0].seat != seat;
    }
  }

  /**
   * An ON BOARD token moving short of the finish goes from the space its
   * count names to the space `steps + roll` names, with its status kept.
   */
  lemma TurnMoves(g: GameState, seat: Seat, slot: Slot, sel: string, roll: int)
    requires Consistent(g.board) && SlotNamed(sel) == Some(slot)
    requires var steps := g.table.Get(seat).Get(slot).steps;
      1 <= steps && 1 <= roll && steps + roll < FinishSteps
    requires var sp := SpaceName(seat, g.table.Get(seat).Get(slot).steps);
      sp in g.board.cells && Token(seat, slot) in g.board.cells[sp]
    ensures var (g1, r) := Turn(g, seat, sel, roll);
      var ts := g.table.Get(seat).Get(slot);
      && r == Ok
      && g1.table.Get(seat).Get(slot) == TokenState(ts.steps + roll, ts.status)
      && Token(seat, slot) in g1.board.cells[SpaceName(seat, ts.steps + roll)]
      && LeavesOthers(g, g1, seat, slot, SpaceName(seat, ts.steps + roll))
  {
    PlayMoves(g, seat, slot, roll);
    TurnPlays(g, seat, slot, sel, roll);
    TurnMovesLeavesOthers(g, seat, slot, sel, roll);
  }

  /** The part of TurnMoves about the tokens that do not move. */
  lemma TurnMovesLeavesOthers(g: GameState, seat: Seat, slot: Slot, sel: string, roll: int)
    requires Consistent(g.board) && SlotNamed(sel) == Some(slot)
    requires var steps := g.table.Get(seat).Get(slot).steps;
      1 <= steps && 1 <= roll && steps + roll < FinishSteps
    requires var sp := SpaceName(seat, g.table.Get(seat).Get(slot).steps);
      sp in g.board.cells && Token(seat, slot) in g.board.cells[sp]
    ensures LeavesOthers(g, Turn(g, seat, sel, roll).0, seat, slot, SpaceName(seat, g.table.Get(seat).Get(slot).steps + roll))
  {
    TurnPlays(g, seat, slot, sel, roll);
    PlayMovesLeavesOthers(g, seat, slot, roll);
  }

  /** TurnMovesLeavesOthers for Play itself. */
  lemma PlayMovesLeavesOthers(g: GameState, seat: Seat, slot: Slot, roll: int)
    requires Consistent(g.board)
    requires var steps := g.table.Get(seat).Get(slot).steps;
      1 <= steps && 1 <= roll && steps + roll < FinishSteps
    requires var sp := SpaceName(seat, g.table.Get(seat).Get(slot).steps);
      sp in g.board.cells && Token(seat, slot) in g.board.cells[sp]
    ensures LeavesOthers(g, Play(g, seat, slot, roll).0, seat, slot, SpaceName(seat, g.table.Get(seat).Get(slot).steps + roll))
  {
    AdvanceOnBoardCompletes(g.board, seat, slot, g.table.Get(seat).Get(slot), roll);
    PlayLeavesOthersOnBoard(g, seat, slot, roll, SpaceName(seat, g.table.Get(seat).Get(slot).steps + roll));
  }

  /** PlayLeavesOthers short of the finish, where the end cell is the one the new count names. */
  lemma PlayLeavesOthersOnBoard(g: GameState, seat: Seat, slot: Slot, roll: int, to: Space)
    requires Inv(g.board)
    requires !Advance(g.board, seat, slot, g.table.Get(seat).Get(slot), roll).1.Raised?
    requires 1 <= g.table.Get(seat).Get(slot).steps + roll < FinishSteps
    requires to == SpaceName(seat, g.table.Get(seat).Get(slot).steps + roll)
    ensures LeavesOthers(g, Play(g, seat, slot, roll).0, seat, slot, to)
  {
    RouteOnBoard(seat, g.table.Get(seat).Get(slot).steps, roll);
    PlayLeavesOthers(g, seat, slot, roll, to);
  }

  /** Short of the finish, the end handed to move_piece is the cell the new count names. */
  lemma RouteOnBoard(seat: Seat, steps: int, roll: int)
    requires 1 <= steps + roll < FinishSteps
    ensures Route(seat, steps, roll).1 == SpaceName(seat, steps + roll)
  {
  }

  /** TurnMoves for Play itself. */
  lemma PlayMoves(g: GameState, seat: Seat, slot: Slot, roll: int)
    requires Consistent(g.board)
    requires var steps := g.table.Get(seat).Get(slot).steps;
      1 <= steps && 1 <= roll && steps + roll < FinishSteps
    requires var sp := SpaceName(seat, g.table.Get(seat).Get(slot).steps);
      sp in g.board.cells && Token(seat, slot) in g.board.cells[sp]
    ensures Play(g, seat, slot, roll).1 == Ok
    ensures var ts := g.table.Get(seat).Get(slot);
      Play(g, seat, slot, roll).0.table.Get(seat).Get(slot) == TokenState(ts.steps + roll, ts.status)
    ensures var ts := g.table.Get(seat).Get(slot);
      Token(seat, slot) in Play(g, seat, slot, roll).0.board.cells[SpaceName(seat, ts.steps + roll)]
  {
    var ts := g.table.Get(seat).Get(slot);
    AdvanceOnBoard(g.board, seat, slot, ts, roll);
    PlayCompletes(g, seat, slot, roll);
  }

  /** A move that move_piece completes onto the cell the new count names: the mover is there, with that count. */
  lemma PlayCompletes(g: GameState, seat: Seat, slot: Slot, roll: int)
    requires Inv(g.board)
    requires !Advance(g.board, seat, slot, g.table.Get(seat).Get(slot), roll).1.Raised?
    requires var ts := g.table.Get(seat).Get(slot);
      Advance(g.board, seat, slot, ts, roll).2 == TokenState(ts.steps + roll, ts.status)
    requires var ts := g.table.Get(seat).Get(slot);
      SpaceName(seat, ts.steps + roll) in Advance(g.board, seat, slot, ts, roll).0.cells
    requires var ts := g.table.Get(seat).Get(slot);
      Token(seat, slot) in Advance(g.board, seat, slot, ts, roll).0.cells[SpaceName(seat, ts.steps + roll)]
    ensures Play(g, seat, slot, roll).1 == Ok
    ensures var ts := g.table.Get(seat).Get(slot);
      Play(g, seat, slot, roll).0.table.Get(seat).Get(slot) == TokenState(ts.steps + roll, ts.status)
    ensures var ts := g.table.Get(seat).Get(slot);
      Token(seat, slot) in Play(g, seat, slot, roll).0.board.cells[SpaceName(seat, ts.steps + roll)]
  {
    PlayMover(g, seat, slot, roll);
  }

  /** A token on the ring or home row is played: Turn is Play on that token. */
  lemma TurnPlays(g: GameState, seat: Seat, slot: Slot, sel: string, roll: int)
    requires Inv(g.board) && SlotNamed(sel) == Some(slot)
    requires 1 <= g.table.Get(seat).Get(slot).steps < FinishSteps
    ensures Turn(g, seat, sel, roll) == Play(g, seat, slot, roll)
  {
    var steps := g.table.Get(seat).Get(slot).steps;
    assert SpaceName(seat, steps) != H && SpaceName(seat, steps) != F;
  }

  /** The first conjunct of AdvanceOnBoard alone. */
  lemma AdvanceOnBoardCompletes(b: BoardState, seat: Seat, slot: Slot, ts: TokenState, roll: int)
    requires Consistent(b) && 1 <= ts.steps && 1 <= roll && ts.steps + roll < FinishSteps
    requires SpaceName(seat, ts.steps) in b.cells && Token(seat, slot) in b.cells[SpaceName(seat, ts.steps)]
    ensures !Advance(b, seat, slot, ts, roll).1.Raised?
  {
    AdvanceOnBoard(b, seat, slot, ts, roll);
  }

  /** On the ring or home row, short of the finish, the move completes onto the cell the new count names. */
  lemma AdvanceOnBoard(b: BoardState, seat: Seat, slot: Slot, ts: TokenState, roll: int)
    requires Consistent(b) && 1 <= ts.steps && 1 <= roll && ts.steps + roll < FinishSteps
    requires SpaceName(seat, ts.steps) in b.cells && Token(seat, slot) in b.cells[SpaceName(seat, ts.steps)]
    ensures !Advance(b, seat, slot, ts, roll).1.Raised?
    ensures Advance(b, seat, slot, ts, roll).2 == TokenState(ts.steps + roll, ts.status)
    ensures SpaceName(seat, ts.steps + roll) in Advance(b, seat, slot, ts, roll).0.cells
    ensures Token(seat, slot) in Advance(b, seat, slot, ts, roll).0.cells[SpaceName(seat, ts.steps + roll)]
  {
    var from, to := SpaceName(seat, ts.steps), SpaceName(seat, ts.steps + roll);
    if from == to {
      SpaceNameInjective(seat, ts.steps, ts.steps + roll);
    }
    assert Route(seat, ts.steps, roll) == (from, to);
    ArriveOnKey(b, Token(seat, slot), from, to);
  }

  /** From the ready position a roll of 1 to 6 moves from the ready cell onto a ring cell. */
  lemma AdvanceFromReady(b: BoardState, seat: Seat, slot: Slot, ts: TokenState, roll: int)
    requires Inv(b) && ts.steps == 0 && 1 <= roll <= 6
    ensures SpaceName(seat, roll).Ring? && SpaceName(seat, roll) != ReadyCell(seat)
    ensures var (b1, o) := Move(b, Token(seat, slot), ReadyCell(seat), SpaceName(seat, roll));
      Advance(b, seat, slot, ts, roll) == (b1, o, TokenState(roll, OnBoard))
  {
    SpaceNameOnPath(seat, roll);
    ReadyCellOffPath(seat, roll);
  }

  /** A move from a cell the token stands on to another board cell completes and puts it there. */
  lemma ArriveOnKey(b: BoardState, token: Token, start: Space, end: Space)
    requires Consistent(b)
    requires start in b.cells && token in b.cells[start]
    requires IsKey(end) && start != end
    ensures var (b1, o) := Move(b, token, start, end);
      && !o.Raised?
      && token in b1.cells[end]
  {
    if end in b.occupied {
      if b.cells[end][0].seat == token.seat {
        MoveFriendly(b, token, start, end);
      } else {
        MoveCapture(b, token, start, end);
      }
    } else {
      MoveToEmptyCell(b, token, start, end);
    }
  }

  /**
   * After a capture every evicted token is back home with steps -1 and status
   * HOME on its seat, and the mover keeps its new state.
   */
  lemma TurnCaptureSendsHome(g: GameState, seat: Seat, slot: Slot, sel: string, roll: int)
    requires Inv(g.board) && SlotNamed(sel) == Some(slot)
    requires var steps := g.table.Get(seat).Get(slot).steps; steps != -1 && steps != FinishSteps
    requires var (b1, o, ts1) := Advance(g.board, seat, slot, g.table.Get(seat).Get(slot), roll);
      o.Kicked? && forall t :: t in o.evicted ==> t.seat != seat && t.seat == o.evicted[0].seat
    ensures var (g1, r) := Turn(g, seat, sel, roll);
      var (b1, o, ts1) := Advance(g.board, seat, slot, g.table.Get(seat).Get(slot), roll);
      && r == Ok
      && g1.board == b1
      && g1.table.Get(seat).Get(slot) == ts1
      && (forall t :: t in o.evicted ==> g1.table.Get(t.seat).Get(t.slot) == AtHome)
  {
    var (b1, o, ts1) := Advance(g.board, seat, slot, g.table.Get(seat).Get(slot), roll);
    var ev := o.evicted;
    var victim := ev[0].seat;
    var g1 := SetToken(g.(board := b1), seat, slot, ts1);
    ResetAllSendsHome(g1.table.Get(victim), ev);
  }

  /**
   * The token of `seat` in `slot` stands where its step count puts it: at
   * home, on the ready cell at 0, on the cell its count names in play, or
   * finished.
   */
  ghost predicate Placed(g: GameState, seat: Seat, slot: Slot)
  {
    var steps := g.table.Get(seat).Get(slot).steps;
    var sp := if steps == 0 then ReadyCell(seat) else SpaceName(seat, steps);
    && -1 <= steps <= FinishSteps
    && (0 <= steps < FinishSteps ==> sp in g.board.cells && Token(seat, slot) in g.board.cells[sp])
  }

  /**
   * move_token keeps occupancy exact (a space is listed iff it holds a
   * token) when the moving seat's tokens stand where their counts put them.
   */
  lemma TurnKeepsConsistent(g: GameState, seat: Seat, sel: string, roll: int)
    requires Consistent(g.board) && forall slot :: Placed(g, seat, slot)
    ensures Consistent(Turn(g, seat, sel, roll).0.board)
  {
    match SlotNamed(sel)
    case None =>
    case Some(slot) =>
      var steps := g.table.Get(seat).Get(slot).steps;
      assert Placed(g, seat, slot);
      if steps == -1 && roll == 6 {
        MoveKeepsConsistent(g.board, Token(seat, slot), H, ReadyCell(seat));
      } else if steps != -1 && steps != FinishSteps {
        PlayKeepsConsistent(g, seat, slot, roll);
      }
  }

  /** A move in play keeps occupancy exact; the resets touch no cell. */
  lemma PlayKeepsConsistent(g: GameState, seat: Seat, slot: Slot, roll: int)
    requires Consistent(g.board) && Placed(g, seat, slot)
    requires 0 <= g.table.Get(seat).Get(slot).steps < FinishSteps
    ensures Consistent(Play(g, seat, slot, roll).0.board)
  {
    var token := Token(seat, slot);
    var ts := g.table.Get(seat).Get(slot);
    var (from, to) := Route(seat, ts.steps, roll);
    assert Play(g, seat, slot, roll).0.board == Move(g.board, token, from, to).0;
    if from == R {
      if to.Number? {
        MoveToNonKey(g.board, token, from, to);
      } else {
        assert to == F;
        assert Move(g.board, token, from, to).0 == g.board.(finish := g.board.finish + [token]);
      }
    } else {
      MoveKeepsConsistent(g.board, token, from, to);
    }
  }

  /** Every token on the table has the status that goes with its step count. */
  predicate TableInStep(t: Table)
  {
    forall seat :: PlayerInStep(t.Get(seat))
  }

  /** A completed move from in play leaves the mover in step, for a roll of 1 to 6. */
  lemma SteppedInStep(b: BoardState, seat: Seat, slot: Slot, ts: TokenState, roll: int)
    requires Inv(b) && InStep(ts) && ts.steps != -1 && ts.steps != FinishSteps && 1 <= roll <= 6
    requires !Advance(b, seat, slot, ts, roll).1.Raised?
    ensures InStep(Stepped(seat, ts, roll))
  {
    var endPos := SpaceName(seat, ts.steps + roll);
    if endPos.Number? {
      MoveToNonKey(b, Token(seat, slot), SpaceName(seat, ts.steps), Number(FinishSteps + endPos.n));
    }
  }

  /**
   * For rolls of 1 to 6, move_token keeps every token's status in step with
   * its step count: READY at 0, ON BOARD in between, FINISHED at 56, HOME at -1.
   */
  lemma TurnKeepsInStep(g: GameState, seat: Seat, sel: string, roll: int)
    requires Inv(g.board) && TableInStep(g.table) && 1 <= roll <= 6
    ensures TableInStep(Turn(g, seat, sel, roll).0.table)
  {
    match SlotNamed(sel)
    case None =>
    case Some(slot) =>
      var steps := g.table.Get(seat).Get(slot).steps;
      if steps == -1 && roll == 6 {
        LeaveHomeKeepsInStep(g, seat, slot);
      } else if steps != -1 && steps != FinishSteps {
        PlayKeepsInStep(g, seat, slot, roll);
      }
  }

  /** Coming out of home sets steps 0 and READY together. */
  lemma LeaveHomeKeepsInStep(g: GameState, seat: Seat, slot: Slot)
    requires Inv(g.board) && TableInStep(g.table)
    ensures TableInStep(LeaveHome(g, seat, slot).0.table)
  {
    var t := LeaveHome(g, seat, slot).0.table;
    forall s ensures PlayerInStep(t.Get(s)) {
      assert s == seat || t.Get(s) == g.table.Get(s);
    }
  }

  /** A move in play keeps the mover in step, and the resets keep the evicted seat in step. */
  lemma PlayKeepsInStep(g: GameState, seat: Seat, slot: Slot, roll: int)
    requires Inv(g.board) && TableInStep(g.table) && 1 <= roll <= 6
    requires g.table.Get(seat).Get(slot).steps != -1 && g.table.Get(seat).Get(slot).steps != FinishSteps
    ensures TableInStep(Play(g, seat, slot, roll).0.table)
  {
    var ts := g.table.Get(seat).Get(slot);
    var (b1, o, ts1) := Advance(g.board, seat, slot, ts, roll);
    if !o.Raised? {
      SteppedInStep(g.board, seat, slot, ts, roll);
      var g1 := SetToken(g.(board := b1), seat, slot, ts1);
      assert TableInStep(g1.table) by {
        forall s ensures PlayerInStep(g1.table.Get(s)) {
          assert s == seat || g1.table.Get(s) == g.table.Get(s);
        }
      }
      if o.Kicked? {
        var victim := o.evicted[0].seat;
        ResetAllKeepsInStep(g1.table.Get(victim), o.evicted);
        var g2 := Evict(g1, o.evicted);
        forall s ensures PlayerInStep(g2.table.Get(s)) {
          assert s == victim || g2.table.Get(s) == g1.table.Get(s);
        }
      }
    }
  }

  /** The LudoGame object: four players, one per seat, and the board. */
  class LudoGame {
    const a: Player
    const b: Player
    const c: Player
    const d: Player
    const board: Board

    /** The player sitting at `seat` (the players dictionary). */
    function PlayerOf(seat: Seat): Player
    {
      match seat
      case A => a
      case B => b
      case C => c
      case D => d
    }

    /** The four players sit at their own seats and are distinct objects. */
    ghost predicate Valid0()
    {
      && a.seat == A && b.seat == B && c.seat == C && d.seat == D
      && a != b && a != c && a != d && b != c && b != d && c != d
    }

    ghost predicate Valid()
      reads board
    {
      Valid0() && board.Valid()
    }

    function State(): GameState
      reads a, b, c, d, board
    {
      GameState(Table(a.State(), b.State(), c.State(), d.State()), board.State())
    }

    /** LudoGame.__init__: a player per seat and a new board. */
    constructor ()
      ensures Valid() && IsNewGame(State())
      ensures fresh(a) && fresh(b) && fresh(c) && fresh(d) && fresh(board)
    {
      a := new Player(A);
      b := new Player(B);
      c := new Player(C);
      d := new Player(D);
      board := new Board();
      new;
      NewIsConsistent(board.State());
    }

    /**
     * get_player_by_position: the player whose seat letter is `pos` (either
     * case); None where InvalidPlayerError is raised.
     */
    method PlayerByPosition(pos: string) returns (r: Option<Player>)
      requires Valid()
      ensures r.None? <==> SeatNamed(pos).None?
      ensures r.Some? ==> r.value.seat == SeatNamed(pos).value && r.value == PlayerOf(r.value.seat)
    {
      match SeatNamed(pos)
      case None => r := None;
      case Some(seat) => r := Some(PlayerOf(seat));
    }

    /**
     * When only the player at `seat` may have changed since `g`, the table
     * is `g`'s with that seat's state replaced.
     */
    lemma OthersUnchanged(g: GameState, seat: Seat)
      requires Valid0()
      requires forall s :: s != seat ==> PlayerOf(s).State() == g.table.Get(s)
      ensures State() == GameState(g.table.With(seat, PlayerOf(seat).State()), board.State())
    {
      assert seat == A || a.State() == g.table.Get(A);
      assert seat == B || b.State() == g.table.Get(B);
      assert seat == C || c.State() == g.table.Get(C);
      assert seat == D || d.State() == g.table.Get(D);
      match seat
      case A =>
      case B =>
      case C =>
      case D =>
    }

    /** move_token. */
    method MoveToken(seat: Seat, sel: string, roll: int) returns (r: TurnResult)
      requires Valid()
      modifies a, b, c, d, board
      ensures (State(), r) == Turn(old(State()), seat, sel, roll)
      ensures Valid()
    {
      var slotOpt := SlotNamed(sel);
      if slotOpt.None? {
        return Err(InvalidToken);
      }
      var slot := slotOpt.value;
      var player := PlayerOf(seat);
      var steps := if slot == P then player.pSteps else player.qSteps;
      var startPos := SpaceName(seat, steps);
      if startPos == H && roll == 6 {
        r := LeaveHomeToken(player, slot);
      } else if startPos == H || startPos == F {
        r := Err(InvalidToken);
      } else {
        r := PlayToken(player, slot, roll);
      }
    }

    /** The six-from-home branch of move_token. */
    method LeaveHomeToken(player: Player, slot: Slot) returns (r: TurnResult)
      requires Valid() && player == PlayerOf(player.seat)
      modifies board, player
      ensures (State(), r) == LeaveHome(old(State()), player.seat, slot)
      ensures Valid()
    {
      var seat := player.seat;
      ghost var g := State();
      var o := board.MovePiece(Token(seat, slot), H, ReadyCell(seat));
      ghost var b1 := board.State();
      if o.Raised? {
        return Err(Raise(o.fault));
      }
      player.SetSteps(slot, 0);
      player.SetStatus(slot, Ready);
      assert State() == SetToken(g.(board := b1), seat, slot, TokenState(0, Ready)) by {
        match seat
        case A =>
        case B =>
        case C =>
        case D =>
      }
      r := Ok;
    }

    /** The in-play branch of move_token: the move itself, then the evicted tokens' resets. */
    method PlayToken(player: Player, slot: Slot, roll: int) returns (r: TurnResult)
      requires Valid() && player == PlayerOf(player.seat)
      modifies a, b, c, d, board
      ensures (State(), r) == Play(old(State()), player.seat, slot, roll)
      ensures Valid()
    {
      ghost var g := State();
      ghost var (b1, o, ts1) := Advance(g.board, player.seat, slot, g.table.Get(player.seat).Get(slot), roll);
      var result := AdvanceToken(player, slot, roll);
      OthersUnchanged(g, player.seat);
      if result.Raised? {
        assert g.table.With(player.seat, player.State()) == g.table;
        return Err(Raise(result.fault));
      }
      if result.Kicked? {
        ResetEvicted(result.evicted);
      }
      r := Ok;
    }

    /**
     * The part of move_token after the legality checks: move_piece on the
     * named spaces, then the token's step count and status. Nothing is set
     * when move_piece raises.
     */
    method AdvanceToken(player: Player, slot: Slot, roll: int) returns (result: PieceOutcome)
      requires Valid() && player == PlayerOf(player.seat)
      modifies board, player
      ensures var (b1, o, ts1) := Advance(old(board.State()), player.seat, slot, old(player.State()).Get(slot), roll);
        && board.State() == b1 && result == o
        && player.State() == if o.Raised? then old(player.State()) else old(player.State()).With(slot, ts1)
      ensures Valid()
    {
      var seat := player.seat;
      var token := Token(seat, slot);
      var steps := if slot == P then player.pSteps else player.qSteps;
      var startPos := SpaceName(seat, steps);
      var endSteps := steps + roll;
      var endPos := SpaceName(seat, endSteps);
      ghost var ts := old(player.State()).Get(slot);
      assert ts.steps == steps;
      if endPos.Number? {
        assert Route(seat, steps, roll) == (startPos, Number(FinishSteps + endPos.n));
        assert Stepped(seat, ts, roll) == ts.(steps := FinishSteps + endPos.n);
        result := board.MovePiece(token, startPos, Number(FinishSteps + endPos.n));
        if !result.Raised? {
          player.SetSteps(slot, FinishSteps + endPos.n);
        }
      } else if endPos == F {
        assert Route(seat, steps, roll) == (startPos, F);
        assert Stepped(seat, ts, roll) == TokenState(FinishSteps, Finished);
        result := board.MovePiece(token, startPos, endPos);
        if !result.Raised? {
          player.SetSteps(slot, FinishSteps);
          player.SetStatus(slot, Finished);
        }
      } else if startPos == R {
        assert Route(seat, steps, roll) == (ReadyCell(seat), endPos);
        assert Stepped(seat, ts, roll) == TokenState(endSteps, OnBoard);
        result := board.MovePiece(token, ReadyCell(seat), endPos);
        if !result.Raised? {
          player.SetSteps(slot, endSteps);
          player.SetStatus(slot, OnBoard);
        }
      } else {
        assert Route(seat, steps, roll) == (startPos, endPos);
        assert Stepped(seat, ts, roll) == ts.(steps := endSteps);
        result := board.MovePiece(token, startPos, endPos);
        if !result.Raised? {
          player.SetSteps(slot, endSteps);
        }
      }
    }

    /** The loop of move_token over the evicted tokens, on the seat of the first. */
    method ResetEvicted(evicted: seq<Token>)
      requires Valid() && evicted != []
      modifies a, b, c, d
      ensures State() == Evict(old(State()), evicted)
      ensures Valid()
    {
      var resetPlayer := PlayerOf(evicted[0].seat);
      var i := 0;
      while i < |evicted|
        invariant 0 <= i <= |evicted|
        invariant resetPlayer.State() == ResetAll(old(resetPlayer.State()), evicted[..i])
        invariant forall p :: p in {a, b, c, d} && p != resetPlayer ==> p.State() == old(p.State())
      {
        assert evicted[..i + 1][..i] == evicted[..i];
        resetPlayer.ResetStatusAndSteps(evicted[i].slot);
        i := i + 1;
      }
      assert evicted[..i] == evicted;
    }
  }
}
