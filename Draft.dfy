/*
 * The earlier draft of the game, LudoGame.py. It names spaces exactly as the
 * final version does (Spaces.SpaceName) and builds the same 80-key board, but
 * its move_piece never captures and keeps no occupied list, and its
 * move_token sets step counts only, never a status.
 */
module Draft {
  import opened Wrappers
  import opened Spaces
  import opened Boards
  import opened Players
  import opened Game

  /** The draft board keeps its 80 keys and never fills its occupied list. */
  ghost predicate DraftInv(b: BoardState)
  {
    HasKeys(b.cells) && b.occupied == []
  }

  /**
   * The draft's move_piece: to "F" the token joins the finish list and is
   * removed from start; from "H" it is appended to end; otherwise it is
   * appended to end and removed from start. An unknown key raises KeyError
   * and a token missing from start raises ValueError, after the appends.
   */
  function DraftMove(b: BoardState, token: Token, start: Space, end: Space): (r: (BoardState, PieceOutcome))
    ensures r.1 == Done || r.1 == Raised(KeyError) || r.1 == Raised(ValueError)
    ensures r.0.cells.Keys == b.cells.Keys && r.0.occupied == b.occupied
  {
    if end == F then Take(b.(finish := b.finish + [token]), token, start)
    else if end !in b.cells then (b, Raised(KeyError))
    else
      var b1 := b.(cells := b.cells[end := b.cells[end] + [token]]);
      if start == H then (b1, Done) else Take(b1, token, start)
  }

  /** The draft's board invariant holds after every move, raised or not. */
  lemma DraftMoveKeepsInv(b: BoardState, token: Token, start: Space, end: Space)
    requires DraftInv(b)
    ensures DraftInv(DraftMove(b, token, start, end).0)
  {
  }

  /**
   * The draft never evicts: every space other than start keeps its tokens in
   * order, with at most the mover added behind them, and the finish list only
   * grows.
   */
  lemma DraftMoveNeverEvicts(b: BoardState, token: Token, start: Space, end: Space)
    ensures var b' := DraftMove(b, token, start, end).0;
      && (forall sp :: sp in b.cells && sp != start ==>
            b'.cells[sp] == b.cells[sp] || b'.cells[sp] == b.cells[sp] + [token])
      && (b'.finish == b.finish || b'.finish == b.finish + [token])
  {
    var b' := DraftMove(b, token, start, end).0;
    forall sp | sp in b.cells && sp != start
      ensures b'.cells[sp] == b.cells[sp] || b'.cells[sp] == b.cells[sp] + [token]
    {
      if end != F && end in b.cells {
        var b1 := b.(cells := b.cells[end := b.cells[end] + [token]]);
        assert b'.cells[sp] == b1.cells[sp];
      }
    }
  }

  /** To "F": the token joins the finish list and leaves start; no cell else changes. */
  lemma DraftMoveToFinish(b: BoardState, token: Token, start: Space)
    requires start in b.cells && token in b.cells[start]
    ensures DraftMove(b, token, start, F)
         == (b.(finish := b.finish + [token], cells := b.cells[start := RemoveFirst(b.cells[start], token)]), Done)
  {
  }

  /** From "H": the token is appended to end and nothing is removed. */
  lemma DraftMoveFromHome(b: BoardState, token: Token, end: Space)
    requires DraftInv(b) && end in b.cells
    ensures DraftMove(b, token, H, end) == (b.(cells := b.cells[end := b.cells[end] + [token]]), Done)
  {
  }

  /**
   * Between two cells: the token is appended to end behind whoever stands
   * there, and removed from start.
   */
  lemma DraftMoveBetweenCells(b: BoardState, token: Token, start: Space, end: Space)
    requires DraftInv(b) && start in b.cells && token in b.cells[start]
    requires end in b.cells && start != end
    ensures DraftMove(b, token, start, end)
         == (b.(cells := b.cells[end := b.cells[end] + [token]][start := RemoveFirst(b.cells[start], token)]), Done)
  {
  }

  /**
   * Where the final version neither stacks nor captures (an empty end cell
   * or the finish), the draft's move leaves the same cells and finish list.
   */
  lemma DraftAgreesWithFinal(b: BoardState, token: Token, start: Space, end: Space)
    requires Consistent(b)
    requires start in b.cells && token in b.cells[start]
    requires end == F || (end in b.cells && b.cells[end] == [] && start != end)
    ensures DraftMove(b, token, start, end).0.cells == Move(b, token, start, end).0.cells
    ensures DraftMove(b, token, start, end).0.finish == Move(b, token, start, end).0.finish
  {
    if end == F {
      MoveToFinish(b, token, start);
    } else {
      MoveToEmptyCell(b, token, start, end);
    }
  }

  /**
   * The draft's move_token. A finished token or a bad selector raises
   * InvalidToken. A home token with a six passes the int start offset as the
   * end key, which always raises KeyError. Any other token, a home token
   * included, moves from its named space to the space its new step count
   * names, and only its step count is set.
   */
  function DraftTurn(g: GameState, seat: Seat, sel: string, roll: int): (r: (GameState, TurnResult))
    ensures r.1 == Err(InvalidToken) ==> r.0 == g
    ensures r.0.board.cells.Keys == g.board.cells.Keys && r.0.board.occupied == g.board.occupied
  {
    match SlotNamed(sel)
    case None => (g, Err(InvalidToken))
    case Some(slot) =>
      var token := Token(seat, slot);
      var ts := g.table.Get(seat).Get(slot);
      var startPos := SpaceName(seat, ts.steps);
      var endSteps := ts.steps + roll;
      if startPos == F then (g, Err(InvalidToken))
      else
        var (to, steps1) := DraftRoute(seat, ts.steps, roll);
        var (b1, o) := DraftMove(g.board, token, startPos, to);
        if o.Raised? then (g.(board := b1), Err(Raise(o.fault)))
        else (SetToken(g.(board := b1), seat, slot, ts.(steps := steps1)), Ok)
  }

  /**
   * The end key the draft's move_token hands to move_piece and the step count
   * it sets afterwards: the int start offset for a home token with a six,
   * the int 56 + (56 - steps) past the finish, otherwise the space the new
   * step count names.
   */
  function DraftRoute(seat: Seat, steps: int, roll: int): (r: (Space, int))
    ensures steps == -1 && roll == 6 ==> r == (Number(StartOf(seat)), 0) && !IsKey(r.0)
    ensures !(steps == -1 && roll == 6) && steps + roll > FinishSteps ==>
      r == (Number(2 * FinishSteps - steps - roll), 2 * FinishSteps - steps - roll) && !IsKey(r.0)
    ensures !(steps == -1 && roll == 6) && steps + roll == FinishSteps ==> r == (F, FinishSteps)
    ensures !(steps == -1 && roll == 6) && steps + roll < FinishSteps ==> r == (SpaceName(seat, steps + roll), steps + roll)
  {
    var endSteps := steps + roll;
    if SpaceName(seat, steps) == H && roll == 6 then (Number(StartOf(seat)), 0)
    else
      var endPos := SpaceName(seat, endSteps);
      if endPos.Number? then (Number(FinishSteps + endPos.n), FinishSteps + endPos.n)
      else if endPos == F then (F, FinishSteps)
      else (endPos, endSteps)
  }

  /** A bad selector or a finished token raises InvalidToken and changes nothing. */
  lemma DraftTurnRejects(g: GameState, seat: Seat, sel: string, roll: int)
    requires SlotNamed(sel).None? || g.table.Get(seat).Get(SlotNamed(sel).value).steps == FinishSteps
    ensures DraftTurn(g, seat, sel, roll) == (g, Err(InvalidToken))
  {
  }

  /** A home token with a six never leaves home: KeyError, and nothing changes. */
  lemma DraftLeaveHomeFails(g: GameState, seat: Seat, slot: Slot, sel: string)
    requires DraftInv(g.board) && SlotNamed(sel) == Some(slot)
    requires g.table.Get(seat).Get(slot).steps == -1
    ensures DraftTurn(g, seat, sel, 6) == (g, Err(Raise(KeyError)))
  {
  }

  /**
   * A home token rolling 2 to 5 is put on the ring cell its roll minus one
   * names, with step count roll - 1 and its status still HOME if it was.
   */
  lemma DraftHomeWithoutSix(g: GameState, seat: Seat, slot: Slot, sel: string, roll: int)
    requires DraftInv(g.board) && SlotNamed(sel) == Some(slot)
    requires g.table.Get(seat).Get(slot).steps == -1 && 2 <= roll <= 5
    ensures var (g1, r) := DraftTurn(g, seat, sel, roll);
      && r == Ok
      && SpaceName(seat, roll - 1).Ring?
      && g1.board.cells == g.board.cells[SpaceName(seat, roll - 1) := g.board.cells[SpaceName(seat, roll - 1)] + [Token(seat, slot)]]
      && g1.table.Get(seat).Get(slot) == g.table.Get(seat).Get(slot).(steps := roll - 1)
  {
    SpaceNameOnPath(seat, roll - 1);
  }

  /**
   * A token on the board that lands on step 56 joins the finish list; its
   * step count becomes 56 and its status is left as it was.
   */
  lemma DraftTurnFinishes(g: GameState, seat: Seat, slot: Slot, sel: string, roll: int)
    requires DraftInv(g.board) && SlotNamed(sel) == Some(slot)
    requires var steps := g.table.Get(seat).Get(slot).steps;
      1 <= steps < FinishSteps && steps + roll == FinishSteps
    requires var sp := SpaceName(seat, g.table.Get(seat).Get(slot).steps);
      sp in g.board.cells && Token(seat, slot) in g.board.cells[sp]
    ensures var (g1, r) := DraftTurn(g, seat, sel, roll);
      && r == Ok
      && g1.board.finish == g.board.finish + [Token(seat, slot)]
      && g1.table.Get(seat).Get(slot) == g.table.Get(seat).Get(slot).(steps := FinishSteps)
  {
  }

  /**
   * A token on the board that stays short of the finish moves from the
   * space its step count names to the one its new count names, stacking
   * behind any token there, and its step count grows by the roll.
   */
  lemma DraftTurnMoves(g: GameState, seat: Seat, slot: Slot, sel: string, roll: int)
    requires DraftInv(g.board) && SlotNamed(sel) == Some(slot)
    requires var steps := g.table.Get(seat).Get(slot).steps;
      1 <= steps && 1 <= roll && steps + roll < FinishSteps
    requires var sp := SpaceName(seat, g.table.Get(seat).Get(slot).steps);
      sp in g.board.cells && Token(seat, slot) in g.board.cells[sp]
    ensures var steps := g.table.Get(seat).Get(slot).steps;
      var (start, end) := (SpaceName(seat, steps), SpaceName(seat, steps + roll));
      var (g1, r) := DraftTurn(g, seat, sel, roll);
      && r == Ok
      && g1.board.cells == g.board.cells[end := g.board.cells[end] + [Token(seat, slot)]][start := RemoveFirst(g.board.cells[start], Token(seat, slot))]
      && g1.table.Get(seat).Get(slot) == g.table.Get(seat).Get(slot).(steps := steps + roll)
  {
    var token := Token(seat, slot);
    var ts := g.table.Get(seat).Get(slot);
    var (start, end) := (SpaceName(seat, ts.steps), SpaceName(seat, ts.steps + roll));
    DraftRouteOnBoard(seat, ts.steps, roll);
    DraftMoveBetweenCells(g.board, token, start, end);
    var b1 := g.board.(cells := g.board.cells[end := g.board.cells[end] + [token]][start := RemoveFirst(g.board.cells[start], token)]);
    assert DraftTurn(g, seat, sel, roll) == (SetToken(g.(board := b1), seat, slot, ts.(steps := ts.steps + roll)), Ok);
  }

  /** Short of the finish the draft routes a token to the key its new step count names, never its own. */
  lemma DraftRouteOnBoard(seat: Seat, steps: int, roll: int)
    requires 1 <= steps && 1 <= roll && steps + roll < FinishSteps
    ensures DraftRoute(seat, steps, roll) == (SpaceName(seat, steps + roll), steps + roll)
    ensures IsKey(SpaceName(seat, steps + roll)) && SpaceName(seat, steps) != SpaceName(seat, steps + roll)
  {
    SpaceNameWellFormed(seat, steps + roll);
    if SpaceName(seat, steps) == SpaceName(seat, steps + roll) {
      SpaceNameInjective(seat, steps, steps + roll);
    }
  }

  /**
   * A ready token (step 0, named "R") is appended to its end cell, and then
   * removing it from "R" raises KeyError: the append stays, the step count
   * does not change.
   */
  lemma DraftReadyFails(g: GameState, seat: Seat, slot: Slot, sel: string, roll: int)
    requires DraftInv(g.board) && SlotNamed(sel) == Some(slot)
    requires g.table.Get(seat).Get(slot).steps == 0 && 1 <= roll <= 6
    ensures var end := SpaceName(seat, roll);
      var (g1, r) := DraftTurn(g, seat, sel, roll);
      && r == Err(Raise(KeyError))
      && g1.table == g.table
      && g1.board.cells == g.board.cells[end := g.board.cells[end] + [Token(seat, slot)]]
  {
    SpaceNameOnPath(seat, roll);
  }

  /** A roll past the finish passes an int as the end key: KeyError, nothing changes. */
  lemma DraftOvershoot(g: GameState, seat: Seat, slot: Slot, sel: string, roll: int)
    requires DraftInv(g.board) && SlotNamed(sel) == Some(slot)
    requires var steps := g.table.Get(seat).Get(slot).steps;
      -1 <= steps < FinishSteps && steps + roll > FinishSteps && !(steps == -1 && roll == 6)
    ensures DraftTurn(g, seat, sel, roll) == (g, Err(Raise(KeyError)))
  {
  }

  /** The draft's Board object. */
  class DraftBoard {
    var cells: map<Space, seq<Token>>
    var finish: seq<Token>
    var occupied: seq<Space>

    function State(): BoardState
      reads this
    {
      BoardState(cells, finish, occupied)
    }

    ghost predicate Valid()
      reads this
    {
      DraftInv(State())
    }

    /** Board.__init__ of the draft: 80 empty keys, nothing finished. */
    constructor ()
      ensures Valid() && IsNew(State())
    {
      var empty := EmptyCells();
      cells := empty;
      finish := [];
      occupied := [];
    }

    /** Board.remove_token: KeyError on an unknown key, ValueError if the token is not there. */
    method RemoveToken(start: Space, token: Token) returns (r: PieceOutcome)
      modifies this
      ensures (State(), r) == Take(old(State()), token, start)
    {
      if start !in cells {
        return Raised(KeyError);
      }
      if token !in cells[start] {
        return Raised(ValueError);
      }
      cells := cells[start := RemoveFirst(cells[start], token)];
      r := Done;
    }

    /** The draft's move_piece. */
    method MovePiece(token: Token, start: Space, end: Space) returns (r: PieceOutcome)
      requires Valid()
      modifies this
      ensures (State(), r) == DraftMove(old(State()), token, start, end)
      ensures Valid()
    {
      if end == F {
        finish := finish + [token];
        r := RemoveToken(start, token);
      } else if end !in cells {
        r := Raised(KeyError);
      } else if start == H {
        cells := cells[end := cells[end] + [token]];
        r := Done;
      } else {
        cells := cells[end := cells[end] + [token]];
        r := RemoveToken(start, token);
      }
    }
  }

  /** The draft's LudoGame object: a player per seat and a draft board. */
  class DraftGame {
    const a: Player
    const b: Player
    const c: Player
    const d: Player
    const board: DraftBoard

    function PlayerOf(seat: Seat): Player
    {
      match seat
      case A => a
      case B => b
      case C => c
      case D => d
    }

    ghost predicate Valid()
      reads board
    {
      && a.seat == A && b.seat == B && c.seat == C && d.seat == D
      && a != b && a != c && a != d && b != c && b != d && c != d
      && board.Valid()
    }

    function State(): GameState
      reads a, b, c, d, board
    {
      GameState(Table(a.State(), b.State(), c.State(), d.State()), board.State())
    }

    constructor ()
      ensures Valid() && IsNewGame(State())
    {
      a := new Player(A);
      b := new Player(B);
      c := new Player(C);
      d := new Player(D);
      board := new DraftBoard();
    }

    /**
     * get_player_by_position of the draft: the player for `pos` in either
     * case; None where the draft returns the text "Player not found!".
     */
    method PlayerByPosition(pos: string) returns (r: Option<Player>)
      requires Valid()
      ensures r.None? <==> SeatNamed(pos).None?
      ensures r.Some? ==> r.value.seat == SeatNamed(pos).value && r.value == PlayerOf(r.value.seat)
    {
      match SeatNamed(pos)
      case None => r := None;
      case Some(seat) => r := Some(PlayerOf(seat));
    }

    /** The draft's move_token. */
    method MoveToken(seat: Seat, sel: string, roll: int) returns (r: TurnResult)
      requires Valid()
      modifies a, b, c, d, board
      ensures (State(), r) == DraftTurn(old(State()), seat, sel, roll)
      ensures Valid()
    {
      var slotOpt := SlotNamed(sel);
      if slotOpt.None? {
        return Err(InvalidToken);
      }
      var slot := slotOpt.value;
      var player := PlayerOf(seat);
      var steps := if slot == P then player.pSteps else player.qSteps;
      if SpaceName(seat, steps) == F {
        return Err(InvalidToken);
      }
      var result := AdvanceToken(player, slot, roll);
      if result.Raised? {
        return Err(Raise(result.fault));
      }
      return Ok;
    }

    /**
     * The draft's move_token after the selector and finish checks: one
     * move_piece call, then the step count (never the status). Nothing is
     * set when move_piece raises.
     */
    method AdvanceToken(player: Player, slot: Slot, roll: int) returns (result: PieceOutcome)
      requires Valid() && player == PlayerOf(player.seat)
      modifies board, player
      ensures var ps := old(player.State());
        var ts := ps.Get(slot);
        var (to, steps1) := DraftRoute(player.seat, ts.steps, roll);
        var (b1, o) := DraftMove(old(board.State()), Token(player.seat, slot), SpaceName(player.seat, ts.steps), to);
        && board.State() == b1 && result == o
        && player.State() == if o.Raised? then ps else ps.With(slot, ts.(steps := steps1))
      ensures Valid()
    {
      var seat := player.seat;
      var token := Token(seat, slot);
      var steps := if slot == P then player.pSteps else player.qSteps;
      var startPos := SpaceName(seat, steps);
      var endSteps := steps + roll;
      if startPos == H && roll == 6 {
        assert DraftRoute(seat, steps, roll) == (Number(StartOf(seat)), 0);
        result := board.MovePiece(token, startPos, Number(StartOf(seat)));
        if !result.Raised? {
          player.SetSteps(slot, 0);
        }
        return;
      }
      var endPos := SpaceName(seat, endSteps);
      var to, steps1;
      if endPos.Number? {
        to, steps1 := Number(FinishSteps + endPos.n), FinishSteps + endPos.n;
      } else if endPos == F {
        to, steps1 := endPos, FinishSteps;
      } else {
        to, steps1 := endPos, endSteps;
      }
      assert DraftRoute(seat, steps, roll) == (to, steps1);
      result := board.MovePiece(token, startPos, to);
      if !result.Raised? {
        player.SetSteps(slot, steps1);
      }
    }
  }
}
