/**
 * The space-coordinate model of the Ludo board: seats, tokens, space names,
 * and the mapping from a token's step count to the space it stands on
 * (Player.get_space_name, identical in LudoGameFinal.py and LudoGame.py).
 */
module Spaces {
  import opened Wrappers

  /** The four seats at the table. */
  datatype Seat = A | B | C | D

  /** The two tokens of a seat, "p" and "q". */
  datatype Slot = P | Q

  /** A token on the board, named "a_p", "b_q", ... in the source. */
  datatype Token = Token(seat: Seat, slot: Slot)

  /**
   * A space name. The source uses strings: "H" (home), "R" (ready), "F"
   * (finish), "1".."56" (the shared ring) and "A1".."D6" (the home rows).
   * Number(n) stands for an integer where a space name is expected: the
   * negative count past the finish that get_space_name returns, or any other
   * int passed on as a board key (no int is a key of the board).
   */
  datatype Space = H | R | F | Ring(n: int) | HomeRow(row: Seat, k: int) | Number(n: int)

  /** The step count of a token that has reached the finish. */
  const FinishSteps := 56

  /** Seat table: the ring index at which a seat's tokens enter play. */
  function StartOf(seat: Seat): int
  {
    match seat
    case A => 0
    case B => 14
    case C => 28
    case D => 42
  }

  /** Seat table: the ring index after which a seat turns into its home row. */
  function EndOf(seat: Seat): int
  {
    match seat
    case A => 49
    case B => 7
    case C => 21
    case D => 35
  }

  /** Entry offsets are 14 apart and each seat's threshold lies 49 cells past its entry. */
  lemma SeatTable(seat: Seat)
    ensures StartOf(seat) == 14 * (match seat case A => 0 case B => 1 case C => 2 case D => 3)
    ensures EndOf(seat) == (StartOf(seat) + 49) % 56
  {
  }

  /** The spaces that are keys of the board: the 56 ring cells and the 6 home-row cells per seat. */
  predicate IsKey(sp: Space)
  {
    (sp.Ring? && 1 <= sp.n <= 56) || (sp.HomeRow? && 1 <= sp.k <= 6)
  }

  /** The ring cell on which a seat's tokens wait when they are ready. */
  function ReadyCell(seat: Seat): (sp: Space)
    ensures IsKey(sp) && sp.Ring?
  {
    Ring(StartOf(seat) + 1)
  }

  /**
   * The space a token of `seat` stands on after `steps` steps. Python's `%`
   * with a positive divisor agrees with Dafny's.
   */
  function SpaceName(seat: Seat, steps: int): (r: Space)
    ensures r == H <==> steps == -1
    ensures r == R <==> steps == 0
    ensures r == F <==> steps == FinishSteps
    ensures r.Number? <==> steps > FinishSteps
    ensures r.Number? ==> r.n == FinishSteps - steps < 0
    ensures r.Ring? ==> 1 <= r.n <= 56
    ensures r.HomeRow? ==> r.row == seat && 1 <= r.k <= 6
  {
    var current := (StartOf(seat) + steps) % 56;
    if steps == -1 then H
    else if steps == 0 then R
    else if steps == FinishSteps then F
    else if steps > FinishSteps then Number(FinishSteps - steps)
    else if seat != A then
      if StartOf(seat) > current > EndOf(seat) then HomeRow(seat, current - EndOf(seat))
      else Ring(current + 1)
    else
      if current > EndOf(seat) then HomeRow(seat, current - EndOf(seat))
      else Ring(current + 1)
  }

  /**
   * Along its path a token walks 49 ring cells, counted from its entry, and
   * then the six cells of its own home row.
   */
  lemma SpaceNameOnPath(seat: Seat, steps: int)
    requires 1 <= steps < FinishSteps
    ensures steps <= 49 ==> SpaceName(seat, steps) == Ring((StartOf(seat) + steps) % 56 + 1)
    ensures steps >= 50 ==> SpaceName(seat, steps) == HomeRow(seat, steps - 49)
  {
    var s := StartOf(seat);
    if s + steps < 56 {
      assert (s + steps) % 56 == s + steps;
    } else {
      assert (s + steps) % 56 == s + steps - 56;
    }
  }

  /** Every step count in [-1, 56] names a board key, or home, ready or finish. */
  lemma SpaceNameWellFormed(seat: Seat, steps: int)
    requires -1 <= steps <= FinishSteps
    ensures var sp := SpaceName(seat, steps); IsKey(sp) || sp in {H, R, F}
  {
  }

  /**
   * The inverse of SpaceName: the step count at which a token of `seat`
   * stands on `sp`, if its path passes there.
   */
  function StepsAt(seat: Seat, sp: Space): Option<int>
  {
    match sp
    case H => Some(-1)
    case R => Some(0)
    case F => Some(FinishSteps)
    case Number(n) => if n < 0 then Some(FinishSteps - n) else None
    case HomeRow(row, k) => if row == seat && 1 <= k <= 6 then Some(49 + k) else None
    case Ring(n) =>
      var d := (n - 1 - StartOf(seat)) % 56;
      if 1 <= n <= 56 && 1 <= d <= 49 then Some(d) else None
  }

  /** Round trip: the space reached after `steps` steps gives back `steps`. */
  lemma {:induction false} StepsAtSpaceName(seat: Seat, steps: int)
    requires steps >= -1
    ensures StepsAt(seat, SpaceName(seat, steps)) == Some(steps)
  {
    if 1 <= steps < FinishSteps {
      SpaceNameOnPath(seat, steps);
      if steps <= 49 {
        StepsAtRing(seat, steps);
      }
    }
  }

  /** The ring part of the round trip: the ring cell `steps` cells past the entry gives back `steps`. */
  lemma StepsAtRing(seat: Seat, steps: int)
    requires 1 <= steps <= 49
    ensures StepsAt(seat, Ring((StartOf(seat) + steps) % 56 + 1)) == Some(steps)
  {
    var s := StartOf(seat);
    var n := (s + steps) % 56 + 1;
    if s + steps < 56 {
      assert (s + steps) % 56 == s + steps;
      assert (n - 1 - s) % 56 == steps;
    } else {
      assert (s + steps) % 56 == s + steps - 56;
      assert (n - 1 - s) % 56 == (steps - 56) % 56 == steps;
    }
  }

  /** Round trip: a space on the path of `seat` is the one SpaceName gives for its step count. */
  lemma {:induction false} SpaceNameStepsAt(seat: Seat, sp: Space, steps: int)
    requires StepsAt(seat, sp) == Some(steps)
    ensures steps >= -1 && SpaceName(seat, steps) == sp
  {
    match sp
    case Ring(n) =>
      RingAtSteps(seat, n, steps);
      SpaceNameOnPath(seat, steps);
    case HomeRow(_, _) =>
      SpaceNameOnPath(seat, steps);
    case _ =>
  }

  /** The ring part of the round trip: a ring cell on the path lies `steps` cells past the entry. */
  lemma RingAtSteps(seat: Seat, n: int, steps: int)
    requires StepsAt(seat, Ring(n)) == Some(steps)
    ensures 1 <= steps <= 49 && (StartOf(seat) + steps) % 56 + 1 == n
  {
    var s := StartOf(seat);
    if n - 1 - s >= 0 {
      assert steps == n - 1 - s;
    } else {
      assert steps == n - 1 - s + 56;
    }
  }

  /** No two step counts from home onwards name the same space. */
  lemma SpaceNameInjective(seat: Seat, s1: int, s2: int)
    requires s1 >= -1 && s2 >= -1
    requires SpaceName(seat, s1) == SpaceName(seat, s2)
    ensures s1 == s2
  {
    StepsAtSpaceName(seat, s1);
    StepsAtSpaceName(seat, s2);
  }

  /**
   * A token never walks onto its own seat's ready cell: once it leaves ready,
   * its path starts one cell further on.
   */
  lemma ReadyCellOffPath(seat: Seat, steps: int)
    requires steps >= -1
    ensures SpaceName(seat, steps) != ReadyCell(seat)
  {
    StepsAtSpaceName(seat, steps);
  }

  /** The token selector "p"/"P" or "q"/"Q"; anything else names no token. */
  function SlotNamed(sel: string): (r: Option<Slot>)
    ensures r == Some(P) <==> sel == "P" || sel == "p"
    ensures r == Some(Q) <==> sel == "Q" || sel == "q"
  {
    if sel == "P" || sel == "p" then Some(P)
    else if sel == "Q" || sel == "q" then Some(Q)
    else None
  }

  /** The upper-case letter of a token slot. */
  function SlotLetter(slot: Slot): char
  {
    match slot
    case P => 'P'
    case Q => 'Q'
  }

  /** The lower-case letter of a token slot, as it ends a token's name ("a_p"). */
  function LowerSlotLetter(slot: Slot): char
  {
    match slot
    case P => 'p'
    case Q => 'q'
  }

  /** The selector reads each slot's letter back, in either case. */
  lemma SlotNamedLetters(slot: Slot)
    ensures SlotNamed([SlotLetter(slot)]) == Some(slot)
    ensures SlotNamed([LowerSlotLetter(slot)]) == Some(slot)
  {
  }

  /** The upper-case letter of a seat. */
  function Letter(seat: Seat): char
  {
    match seat
    case A => 'A'
    case B => 'B'
    case C => 'C'
    case D => 'D'
  }

  /** The lower-case letter of a seat, as it opens a token's name ("a_p"). */
  function LowerLetter(seat: Seat): char
  {
    match seat
    case A => 'a'
    case B => 'b'
    case C => 'c'
    case D => 'd'
  }

  /** The seat named by a one-letter string, in either case. */
  function SeatNamed(pos: string): (r: Option<Seat>)
    ensures forall seat :: r == Some(seat) <==> pos == [Letter(seat)] || pos == [LowerLetter(seat)]
  {
    if pos == "A" || pos == "a" then Some(A)
    else if pos == "B" || pos == "b" then Some(B)
    else if pos == "C" || pos == "c" then Some(C)
    else if pos == "D" || pos == "d" then Some(D)
    else None
  }
}
