# Ludo board-state engine in Dafny

This project models the board-state engine of a four-seat Ludo game, in its
final form (`LudoGameFinal.py`) and in an earlier draft (`LudoGame.py`).
Seats A to D each own two tokens, `p` and `q`.

- **Space names.** `get_space_name` maps a seat and a step count to a space
  name. The model is `Spaces.SpaceName` over a tagged `Space` type:
  - `H` is home, `R` is ready and `F` is the finish;
  - `Ring(1..56)` is a cell of the shared ring;
  - `HomeRow(seat, 1..6)` is a cell of a seat's home row;
  - `Number(n)` stands for an int where the source expects a space name.
    No int is a board key.
- **Board.** The board holds a map from space to the list of tokens there,
  a finish list, and an occupied-spaces list. `Boards.MoveWith` is
  `move_piece` as a function, with the occupied-list update either as
  written (`Boards.MoveAsWritten`) or corrected (`Boards.Move`; see
  Findings). The `Boards.Board` class has the same three fields, and its
  `MovePiece` method is proved equal to `Move`, the corrected move_piece.
- **Players.** `Players.Player` holds each token's step count and status
  and the `doubled` flag. `Players.Reset` is `reset_status_and_steps`.
- **Turns.** `Game.Turn` is `move_token` on the whole game state: the four
  players and the board. `Game.LudoGame.MoveToken` is proved equal to it,
  including its loop over the evicted tokens.
- **Draft.** The module `Draft` holds the draft's `move_piece`
  (`DraftMove`), its `move_token` (`DraftTurn`) and the classes for both.
  It reuses `Spaces.SpaceName`, because the draft's `get_space_name` is the
  same code.

A Python exception that escapes a call is modelled as an error outcome:
`Raised(KeyError)`, `Raised(ValueError)` or `Err(InvalidToken)`. Any list
changes the source makes before the exception stay in the state.

Where the source's docstrings and its code disagree, the model follows the code:

- a roll past the finish is not bounced back, although the get_space_name
  docstring (LudoGameFinal.py:309-311) describes the negative int as the
  steps to go back. move_token hands `move_piece` an int, which raises
  `KeyError` before anything changes;
- nothing ever sets `doubled`. The play_game docstring (LudoGameFinal.py:458-459)
  says a player is set to doubled when its tokens share a space, but
  `set_doubled` (LudoGameFinal.py:172-178) is never called. Stacking on a
  friendly token leaves the flag false;
- move_token moves one token, never a doubled pair, although the move_piece
  docstring (LudoGameFinal.py:80-83) says it also moves doubled pieces.

## Model

| member | source | states |
|---|---|---|
| Spaces.SeatTable | LudoGameFinal.py:147-160 | Seat starts are 0, 14, 28, 42, i.e. 14 per seat; each seat's end offset is its start plus 49, mod 56 |
| Spaces.ReadyCell | LudoGameFinal.py:409-410 | The cell a token enters on leaving home, `str(start + 1)`, is a ring key of the board |
| Spaces.SpaceName | LudoGameFinal.py:315-333 | For every seat: "H" exactly at -1, "R" exactly at 0, "F" exactly at 56, and the negative int 56 - steps exactly above 56; ring names lie in 1..56 and home-row names are the seat's own, numbered 1..6. The draft's get_space_name (LudoGame.py:114-123) is the same code |
| Spaces.SpaceNameOnPath | LudoGameFinal.py:324-333 | Steps 1..49 name ring cell (start + steps) % 56 + 1; steps 50..55 name the seat's home-row cell steps - 49; the draft (LudoGame.py:124-133) has the same code |
| Spaces.SpaceNameWellFormed | LudoGameFinal.py:315-333 | Every step count in -1..56 names a board key, "H", "R" or "F" |
| Spaces.StepsAtSpaceName | LudoGameFinal.py:315-333 | Round trip: reading the step count back from the named space gives the count, for every count >= -1 |
| Spaces.SpaceNameStepsAt | LudoGameFinal.py:315-333 | Every space the inverse accepts is named by exactly the step count it returns |
| Spaces.StepsAtRing | LudoGameFinal.py:324-333 | The ring cell reached after 1..49 steps lies exactly that many cells past the seat's entry |
| Spaces.RingAtSteps | LudoGameFinal.py:324-333 | A ring cell on a seat's path lies 1..49 steps from its entry, and that step count names it |
| Spaces.SpaceNameInjective | LudoGameFinal.py:324-333 | No two step counts >= -1 give the same space name for a seat |
| Spaces.ReadyCellOffPath | LudoGameFinal.py:426-427 | No step count from -1 up names a seat's ready cell `str(start + 1)`: the count 0 names "R" instead, and once the token moves on its path never returns to that cell |
| Spaces.SlotNamed | LudoGameFinal.py:393-404 | The selector is accepted exactly for "P"/"p" (token p) and "Q"/"q" (token q); anything else is InvalidToken |
| Spaces.SlotNamedLetters | LudoGameFinal.py:393-404 | The letter of each token, upper-case or the lower-case one its name ends in, is a selector that picks that token again |
| Spaces.SeatNamed | LudoGameFinal.py:373-379 | A position is found exactly when it is one seat letter in either case |
| Boards.RemoveFirst | LudoGameFinal.py:76 | `list.remove` shortens a list holding x by one and leaves a list without x as it is |
| Boards.RemoveFirstSpec | LudoGameFinal.py:76 | `list.remove` takes out exactly one occurrence: the multiset loses one copy of x, and every other element keeps its membership |
| Boards.Keys | LudoGameFinal.py:35-39 | The board keys are exactly the 56 ring cells and the 6 home-row cells of each seat |
| Boards.EmptyCells | LudoGameFinal.py:33-39 | The nested loops build a map with exactly those 80 keys, every list empty |
| Boards.RingCells | LudoGameFinal.py:35-36 | The first loop creates exactly the ring keys "1".."56", 56 of them, each with an empty list |
| Boards.AddHomeRows | LudoGameFinal.py:37-39 | The home-row loop adds the 24 seat-letter keys, each with an empty list, to the ring cells |
| Boards.AddHomeRow | LudoGameFinal.py:38-39 | One pass of the inner loop adds exactly the six home-row keys of one seat, in key order, with empty lists |
| Boards.NewIsConsistent | LudoGameFinal.py:33-41 | A new board, with empty lists, finish and occupied list, satisfies the occupancy invariant |
| Boards.Board.constructor | LudoGameFinal.py:33-41 | Board.__init__ yields exactly the 80 keys, all empty, with empty finish and occupied lists |
| Boards.Take | LudoGameFinal.py:68-76 | remove_token: KeyError exactly when the space is no key, ValueError exactly when the token is not there, and nothing changes on a raise; otherwise only that space's list changes: it loses exactly one copy of the token, and every other space keeps its list |
| Boards.Leave | LudoGameFinal.py:96-97 | Taking the token off start: KeyError exactly when start is no key, with nothing changed; ValueError exactly when the token is not on start, or when start must be unlisted (always as written, only once it is empty when corrected) but is not on the occupied list; otherwise start loses one copy of the token, the finish is kept, and start is unlisted as that update says. The keys never change |
| Boards.MoveWith | LudoGameFinal.py:90-120 | A returned eviction list is exactly the end space's previous occupants, is non-empty, and starts with a token of another seat |
| Boards.MoveAsWritten | LudoGameFinal.py:90-120 | move_piece as written: on a board with its keys and a duplicate-free occupied list, a completed move off a cell needs start listed, and leaves start unlisted |
| Boards.AsWrittenUnlistsStart | LudoGameFinal.py:94-120 | Every branch of the as-written move that takes the token off a cell (lines 97, 103, 109, 112, 119) removes start from the occupied list |
| Boards.Move | LudoGameFinal.py:90-120 | move_piece corrected: after a completed move, a listed start whose list still holds tokens stays on the occupied list |
| Boards.LeaveKeepsInv | LudoGameFinal.py:96-97 | Taking a token off start keeps the keys, keeps the occupied list duplicate-free, and keeps every listed space non-empty |
| Boards.MoveWithKeepsInv | LudoGameFinal.py:90-120 | Every move_piece call, as written or corrected, raised or not, keeps that board invariant |
| Boards.MoveKeepsConsistent | LudoGameFinal.py:90-120 | The corrected move keeps the occupied list equal to the set of non-empty spaces |
| Boards.FriendlyKeepsConsistent | LudoGameFinal.py:91-97 | The invariant above holds for a move onto a friendly token |
| Boards.HostileKeepsConsistent | LudoGameFinal.py:98-104 | The invariant above holds for a capture |
| Boards.PlainKeepsConsistent | LudoGameFinal.py:113-120 | The invariant above holds for a move onto an empty cell |
| Boards.MoveToNonKey | LudoGameFinal.py:113-117 | An end that is not a key, not "F" and not "H" (an int, or "R") raises KeyError and changes nothing |
| Boards.MoveToEmptyCell | LudoGameFinal.py:116-120 | (corrected update) Onto an empty cell the token is transferred from start to end; end joins the occupied list, and start stays on it exactly while other tokens remain there. As written, line 119 always unlists start: see Boards.PlainMoveAsWritten |
| Boards.MoveToFinish | LudoGameFinal.py:106-109 | (corrected update) To "F" the token is appended to the finish list and removed from start; the occupied list loses start exactly when start's list becomes empty (line 109 as written always removes it); no cell else changes |
| Boards.MoveToHome | LudoGameFinal.py:110-112 | (corrected update) To "H" the token is removed from start, the finish list is unchanged, and the occupied list loses start exactly when start's list becomes empty (line 112 as written always removes it) |
| Boards.MoveFromHome | LudoGameFinal.py:113-115 | From "H" onto an empty cell the token is only appended there, and the cell joins the occupied list |
| Boards.MoveFriendly | LudoGameFinal.py:90-97 | Onto a friendly first occupant the token is appended and nobody is evicted; start loses the token unless it is "H"; end stays listed |
| Boards.MoveCapture | LudoGameFinal.py:98-104 | Onto a hostile first occupant the previous occupant list is returned, end holds exactly the token, start loses the token, and end stays listed |
| Boards.MoveCaptureFromHome | LudoGameFinal.py:98-104 | Coming out of home onto a hostile token, end is cut down to the token and then removing it from "H" raises KeyError; nobody is reported evicted |
| Boards.MoveAgreesWithAsWritten | LudoGameFinal.py:94-120 | The as-written and corrected occupied-list updates agree whenever start is left empty |
| Boards.AsWrittenLosesSharedStart | LudoGameFinal.py:116-120 | As written, moving one of two tokens off a shared cell drops the cell from the occupied list although it is still non-empty |
| Boards.SharedCellAsWritten | LudoGameFinal.py:90-120 | As written, after such a move a hostile token moving onto the shared cell joins the remaining token instead of capturing it |
| Boards.SharedCellStrandsAsWritten | LudoGameFinal.py:116-120 | As written, after such a move the remaining token moving on to an empty cell is appended there and taken off the shared cell, then unlisting that cell raises ValueError: the cell is left empty and the new cell is never listed |
| Boards.LeavingUnlistedAsWritten | LudoGameFinal.py:116-120 | As written, the last token leaving a cell that is not listed ends in ValueError after its list and the target's list have changed |
| Boards.PlainMoveAsWritten | LudoGameFinal.py:116-120 | As written, a plain move always removes start from the occupied list |
| Boards.SharedCellCorrected | LudoGameFinal.py:90-120 | With the corrected update the same hostile token evicts the remaining token |
| Boards.SharedCellCounterexample | LudoGameFinal.py:90-120 | Concrete case: a_p and a_q on "9", c_p on "5"; a_p moves to "12", c_p moves to "9". As written c_p joins a_q; corrected, it captures a_q |
| Boards.SharedCellStrandedCounterexample | LudoGameFinal.py:116-120 | Concrete case: after a_p moves from "9" to "12", a_q moving from "9" to "20" raises ValueError with a_q already on "20", "9" empty and "20" not listed |
| Boards.Board.Vacate | LudoGameFinal.py:96-97 | (corrected update) Removing the token and then, once its list is empty, the space, with the raises of `list.remove` |
| Boards.Board.MovePiece | LudoGameFinal.py:78-120 | The method's new board and result equal the corrected move_piece, and it keeps the board invariant |
| Players.Reset | LudoGameFinal.py:188-208 | The named token goes to steps -1 and HOME. A doubled seat also sends the other token home and clears doubled; otherwise the other token and doubled are unchanged |
| Players.ResetIdempotent | LudoGameFinal.py:188-208 | Resetting a token twice is the same as once |
| Players.ResetCommutes | LudoGameFinal.py:188-208 | Resetting two tokens gives the same state in either order |
| Players.ResetKeepsInStep | LudoGameFinal.py:188-208 | A reset keeps each token's status in step with its count and leaves the seat not doubled |
| Players.ResetAll | LudoGameFinal.py:435-436 | The reset loop leaves `finished` as it was, and after at least one reset the seat is not doubled |
| Players.ResetAllSendsHome | LudoGameFinal.py:435-436 | After the reset loop: every evicted token is home; a doubled seat has both tokens home; without doubling, a token not evicted is untouched; `finished` is unchanged |
| Players.ResetAllKeepsInStep | LudoGameFinal.py:435-436 | The reset loop keeps both tokens in step |
| Players.Player.constructor | LudoGameFinal.py:138-162 | Both tokens at -1/HOME, not finished, not doubled, with the seat's start and end constants |
| Players.Player.ResetStatusAndSteps | LudoGameFinal.py:188-208 | The method's new state is Players.Reset of the old one |
| Players.Player.SetSteps | LudoGameFinal.py:227-252 | Only the selected token's step count changes |
| Players.Player.SetStatus | LudoGameFinal.py:280-304 | Only the selected token's status changes |
| Game.Route | LudoGameFinal.py:416-431 | The spaces handed to move_piece: past the finish the end is the int 112 - end_steps, no key; at step 56 it is "F"; short of it, the board key end_steps names. The start is the token's own space, except the ready cell `str(start + 1)` for a ready token below the finish |
| Game.Stepped | LudoGameFinal.py:416-432 | The token's new state: steps 112 - end_steps past the finish, 56 and FINISHED at the finish, the roll and ON BOARD from ready, otherwise the new count with the status kept |
| Game.Evict | LudoGameFinal.py:433-436 | The board and every seat but the first evicted token's are unchanged; on that seat the slot of each evicted token is home |
| Game.Advance | LudoGameFinal.py:416-432 | The board update after the legality checks keeps the board invariant |
| Game.Turn | LudoGameFinal.py:392-436 | move_token keeps the board invariant, and an InvalidToken rejection changes nothing |
| Game.LeaveHome | LudoGameFinal.py:409-413 | The six-from-home branch keeps the board invariant and never raises InvalidToken |
| Game.Play | LudoGameFinal.py:416-436 | The in-play branch keeps the board invariant and never raises InvalidToken |
| Game.PlayLeavesOthers | LudoGameFinal.py:416-436 | A completed move in play leaves the mover's other token unchanged, and every other seat except the one whose tokens stood on the end cell |
| Game.PlayMoves | LudoGameFinal.py:430-436 | The in-play part of TurnMoves: the move completes onto the named cell with steps + roll |
| Game.PlayCompletes | LudoGameFinal.py:430-436 | When move_piece completes onto the cell the new count names and the count grows by the roll, the turn returns normally: the mover stands on that cell with that count |
| Game.PlayLeavesOthersOnBoard | LudoGameFinal.py:416-436 | PlayLeavesOthers for a move short of the finish, with the end cell being the one steps + roll names |
| Game.PlayMovesLeavesOthers | LudoGameFinal.py:430-436 | For an ON BOARD token standing on its cell and moving short of the finish, the other token is unchanged, and so is every other seat with no token on the target cell |
| Game.TurnMovesLeavesOthers | LudoGameFinal.py:430-436 | The same for move_token: the turn leaves the other token unchanged, and every other seat with no token on the target cell |
| Game.LeavesOthersEvery | LudoGameFinal.py:416-436 | The four per-seat conditions of "leaves the others" mean: every seat other than the mover's, with no token on the end cell, is unchanged |
| Game.PlayMover | LudoGameFinal.py:416-436 | After a completed move in play the board is move_piece's, the mover has its new state, and the resets (on the hostile seat) leave the mover's seat alone |
| Game.TurnRejectsSelector | LudoGameFinal.py:392-406 | A selector other than P or Q raises InvalidToken and changes nothing |
| Game.TurnRejectsHomeOrFinished | LudoGameFinal.py:409-415 | A home token without a six, or a finished token, raises InvalidToken and changes nothing |
| Game.TurnLeavesHome | LudoGameFinal.py:409-413 | A home token with a six goes onto `str(start + 1)` with steps 0 and READY, and moves no further; the other token and the other seats are unchanged |
| Game.TurnLeavesHomeOntoHostile | LudoGameFinal.py:409-413 | Leaving home onto a hostile token raises KeyError after the cell was cut down to the mover; no player changes |
| Game.HomeCaptureUnplaces | LudoGameFinal.py:99-102 | A hostile token whose count names the ready cell stands where its count puts it exactly when it is on that cell; after the capture from home raises KeyError it no longer does, because its count was never reset |
| Boards.MoveOffItsCell | LudoGameFinal.py:116-118 | A token missing from its start cell, moving onto an empty cell, is appended there and then raises ValueError; that cell holds it but is not listed, so occupancy is no longer exact |
| Game.TurnOffItsCell | LudoGameFinal.py:116-119 | A token missing from the cell its count names, moving onto an empty cell, is appended there and then raises ValueError. The seats are unchanged, only that cell changed, the occupied list is kept, and occupancy is no longer exact |
| Game.HomeCaptureFirstTurn | LudoGameFinal.py:99-102 | The first turn of that case: A's capture from home raises KeyError and strands c_p. The board stays consistent, the seats are unchanged, and the ready cell now holds only a_p |
| Game.HomeCaptureCounterexample | LudoGameFinal.py:99-119 | Concrete case from a consistent position where every token stands on its count's cell: c_p (28 steps) on "1", d_p (43) on "30". A brings p out with a six: KeyError, and c_p is stranded. c_p then moves 3: ValueError, with c_p on "4" and "4" not listed |
| Game.TurnOvershoot | LudoGameFinal.py:417-420 | A roll past the finish raises KeyError and changes nothing |
| Game.AdvanceOvershoot | LudoGameFinal.py:417-420 | Past the finish, the int handed to move_piece raises KeyError and the board is unchanged |
| Game.TurnFinishes | LudoGameFinal.py:422-425 | Landing on step 56 puts the token in the finish list with steps 56 and FINISHED; the other token and every other seat are unchanged |
| Game.TurnFromReady | LudoGameFinal.py:426-429 | A ready token moves from `str(start + 1)` onto the cell its roll names, with steps equal to the roll and ON BOARD; the other token is unchanged, and so is every other seat that has no token on that cell |
| Game.TurnMoves | LudoGameFinal.py:430-432 | An ON BOARD token moving short of the finish completes the move, lands on the space its new count names, and gets steps + roll with its status kept; the other token is unchanged, and so is every other seat that has no token on that cell |
| Game.AdvanceOnBoard | LudoGameFinal.py:416-432 | Short of the finish, from a cell the token stands on, move_piece completes onto the cell the new count names and the token's count grows by the roll |
| Game.AdvanceFromReady | LudoGameFinal.py:426-429 | From ready, a roll of 1 to 6 names a ring cell other than the ready cell |
| Game.ArriveOnKey | LudoGameFinal.py:90-120 | A move between two distinct cells completes and leaves the token on the end cell |
| Game.TurnCaptureSendsHome | LudoGameFinal.py:433-436 | After a capture the mover keeps its new state and every evicted token is home |
| Game.SteppedInStep | LudoGameFinal.py:416-432 | After a completed move with a roll of 1 to 6 the mover's status agrees with its step count |
| Game.TurnKeepsInStep | LudoGameFinal.py:392-436 | For rolls 1..6, every token's status stays in step with its count: HOME at -1, READY at 0, ON BOARD between, FINISHED at 56 |
| Game.LeaveHomeKeepsInStep | LudoGameFinal.py:409-413 | Leaving home sets steps 0 and READY together, so every token stays in step |
| Game.PlayKeepsInStep | LudoGameFinal.py:416-436 | A move in play keeps the mover in step, and the reset loop keeps the evicted seat in step |
| Game.TurnKeepsConsistent | LudoGameFinal.py:392-436 | When the moving seat's tokens stand where their counts put them, move_token keeps the occupied list equal to the set of non-empty spaces (get_occupied_spaces, lines 43-49), raised or not |
| Game.PlayKeepsConsistent | LudoGameFinal.py:416-436 | The in-play branch keeps that occupancy invariant, including a ready token whose end is "F" or an int and whose move raises |
| Game.LudoGame.constructor | LudoGameFinal.py:344-355 | Four new players at seats A to D and a new board |
| Game.LudoGame.PlayerByPosition | LudoGameFinal.py:365-379 | Returns the player of the named seat, or none exactly where InvalidPlayerError is raised |
| Game.LudoGame.MoveToken | LudoGameFinal.py:381-436 | The method's new players, board and result equal Game.Turn |
| Game.LudoGame.LeaveHomeToken | LudoGameFinal.py:409-413 | The method's new state and result equal Game.LeaveHome: move_piece to the ready cell, then steps 0 and READY unless it raised |
| Game.LudoGame.PlayToken | LudoGameFinal.py:416-436 | The method's new state and result equal Game.Play: the move, then the evicted tokens' resets |
| Game.LudoGame.AdvanceToken | LudoGameFinal.py:416-432 | The post-check part of the method equals Game.Advance, and sets nothing when move_piece raises |
| Game.LudoGame.ResetEvicted | LudoGameFinal.py:433-436 | The loop resets each evicted token, in order, on the first evicted token's seat; other seats are unchanged |
| Draft.DraftMove | LudoGame.py:38-46 | The draft's move_piece keeps the keys and the (unused) occupied list, and ends without error, with KeyError or with ValueError |
| Draft.DraftMoveKeepsInv | LudoGame.py:19-46 | The draft board keeps its 80 keys and an empty occupied list |
| Draft.DraftMoveNeverEvicts | LudoGame.py:38-46 | No space other than start loses a token: each keeps its list, with at most the mover appended, and the finish list only grows |
| Draft.DraftMoveToFinish | LudoGame.py:39-41 | To "F" the token is appended to finish and removed from start; nothing else changes |
| Draft.DraftMoveFromHome | LudoGame.py:42-43 | From "H" the token is appended to end and nothing is removed |
| Draft.DraftMoveBetweenCells | LudoGame.py:44-46 | Otherwise the token is appended behind the tokens at end and removed from start |
| Draft.DraftAgreesWithFinal | LudoGame.py:38-46 | Onto an empty cell or the finish, the draft's move leaves the same cells and finish as the final move_piece |
| Draft.DraftTurn | LudoGame.py:159-194 | An InvalidToken rejection changes nothing; no move changes the board keys |
| Draft.DraftRoute | LudoGame.py:179-194 | The end key and new count: a home token with a six gets the int start offset (no key) and 0; past the finish an int (no key) and 112 - end_steps; at 56 "F" and 56; otherwise the space end_steps names and end_steps |
| Draft.DraftTurnRejects | LudoGame.py:160-178 | A bad selector or a token already at "F" raises InvalidToken and changes nothing |
| Draft.DraftLeaveHomeFails | LudoGame.py:179-182 | A home token with a six passes the int start offset as a key: KeyError, and nothing changes |
| Draft.DraftHomeWithoutSix | LudoGame.py:183-194 | A home token rolling 2 to 5 is put on the ring cell for steps roll - 1; its status is not touched |
| Draft.DraftTurnFinishes | LudoGame.py:188-191 | Landing on "F" appends the token to finish and sets steps 56, status untouched |
| Draft.DraftTurnMoves | LudoGame.py:192-194 | Any other in-range landing moves the token behind whoever is there and sets steps to old steps + roll |
| Draft.DraftRouteOnBoard | LudoGame.py:183-194 | Short of the finish, the end key is the space the new step count names, a board key other than the start |
| Draft.DraftReadyFails | LudoGame.py:192-194 | A ready token is appended to its end cell, then removing it from "R" raises KeyError; its step count does not change |
| Draft.DraftOvershoot | LudoGame.py:184-187 | A roll past the finish raises KeyError and changes nothing |
| Draft.DraftBoard.constructor | LudoGame.py:19-27 | 80 empty keys, an empty finish list and an empty occupied list |
| Draft.DraftBoard.RemoveToken | LudoGame.py:35-36 | `list.remove` on the named space, with its KeyError and ValueError |
| Draft.DraftBoard.MovePiece | LudoGame.py:38-46 | The method's new board and result equal Draft.DraftMove |
| Draft.DraftGame.constructor | LudoGame.py:137-148 | Four new players at seats A to D and a new draft board |
| Draft.DraftGame.PlayerByPosition | LudoGame.py:150-157 | Returns the player of the named seat, or none exactly where the draft returns "Player not found!" |
| Draft.DraftGame.MoveToken | LudoGame.py:159-194 | The method's new players, board and result equal Draft.DraftTurn |
| Draft.DraftGame.AdvanceToken | LudoGame.py:175-194 | One move_piece call, then the step count only, and nothing when move_piece raises |

## Left out

- `play_game` and `rec_play_game` are stubs without a body, so turn order and second turns are not modelled.
- The trivial getters are modelled as field reads, and `set_finish_tokens` and `get_board` as nothing.
- `set_doubled` is never called in the source, so no operation sets `doubled`. Only `reset_status_and_steps` reads it.
- The exception classes appear only as error outcomes. `AttributeError` on a non-string argument is not modelled, because seats and selectors are typed values. Python's `str.upper` on non-ASCII text is not modelled.
- The draft prints a message when it is given a bad position. That is console output and is left out.
- move_token takes the Player object in the source. The model takes its seat, which names that object.
- Game.TurnKeepsConsistent, Game.PlayKeepsConsistent: these assume the moving seat's tokens stand where their counts put them. Play does not keep that, even with the corrected occupied-list update. A capture from home (Game.TurnLeavesHomeOntoHostile) cuts the ready cell down to the mover. Then `self._board["H"].remove` raises KeyError (LudoGameFinal.py:102), so the evicted tokens are off the board with their counts unchanged (Game.HomeCaptureUnplaces). Such a token's next move raises ValueError after it was appended to its target, leaving that target non-empty but not listed (Game.TurnOffItsCell, Game.HomeCaptureCounterexample). The corrected update keeps occupancy exact only for moves whose token stands on its start cell. The model does not correct the capture from home, because its intent is unclear: move_token (LudoGameFinal.py:409-410) does not even read move_piece's result there, so no evicted token would be sent home.
- Game.TurnCaptureSendsHome: this requires the evicted tokens to share one seat, different from the mover's, as the caller assumes. The model does not prove that a board reached by play always satisfies this.
- The Board class and the game use the corrected occupied-list update (see Findings). The update as written is kept as Boards.MoveAsWritten.

## Findings

| source | as written | input that shows it | evidently intended | confidence | as-written member | corrected member |
|---|---|---|---|---|---|---|
| LudoGameFinal.py:94-97, 116-120 | A move off a shared start cell always removes that cell from the occupied list, even when another token still stands there | a_p and a_q on "9", c_p on "5": a_p moves to "12", then c_p moves four steps to "9" | The occupied list holds exactly the non-empty spaces, so c_p captures a_q | not executed | Boards.SharedCellCounterexample | Boards.MoveKeepsConsistent |
| LudoGameFinal.py:116-120 | The same update leaves a cell unlisted while a token still stands on it, so that token's next move raises ValueError half-way, after it was appended to its target and taken off the cell | a_p and a_q on "9", c_p on "5": a_p moves to "12", then a_q moves from "9" to "20" | The move completes: "9" is unlisted once empty and "20" is listed | not executed | Boards.SharedCellStrandedCounterexample | Boards.MoveToEmptyCell |
