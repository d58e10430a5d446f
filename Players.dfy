/*
 * The per-seat token state of LudoGameFinal.py: each seat owns tokens p and
 * q, each with a step count and a status, plus the `doubled` flag that makes
 * a reset send both tokens home.
 */
module Players {
  import opened Spaces

  /** The four statuses a token can have: "HOME", "READY", "ON BOARD", "FINISHED". */
  datatype Status = Home | Ready | OnBoard | Finished

  /** One token's step count and status. */
  datatype TokenState = TokenState(steps: int, status: Status)

  /** A token sitting at home: steps -1, status "HOME". */
  const AtHome := TokenState(-1, Home)

  /** The mutable part of a Player: both tokens and the two flags. */
  datatype PlayerState = PlayerState(p: TokenState, q: TokenState, finished: bool, doubled: bool)
  {
    function Get(slot: Slot): TokenState
    {
      match slot
      case P => p
      case Q => q
    }

    /** The state with the token in `slot` replaced by `ts`. */
    function With(slot: Slot, ts: TokenState): (r: PlayerState)
      ensures r.Get(slot) == ts && r.Get(Other(slot)) == Get(Other(slot))
      ensures r.finished == finished && r.doubled == doubled
    {
      match slot
      case P => this.(p := ts)
      case Q => this.(q := ts)
    }
  }

  /** The slot that is not `slot`. */
  function Other(slot: Slot): (o: Slot)
    ensures o != slot
  {
    match slot
    case P => Q
    case Q => P
  }

  /** A freshly constructed Player: both tokens home, not finished, not doubled. */
  const NewPlayer := PlayerState(AtHome, AtHome, false, false)

  /**
   * The status that goes with a step count once a token is in play:
   * "HOME" at -1, "READY" at 0, "FINISHED" at 56 and "ON BOARD" in between.
   */
  function StatusOf(steps: int): Status
  {
    if steps == -1 then Home
    else if steps == 0 then Ready
    else if steps == FinishSteps then Finished
    else OnBoard
  }

  /** A token whose status agrees with its step count, on the path from home to finish. */
  predicate InStep(ts: TokenState)
  {
    -1 <= ts.steps <= FinishSteps && ts.status == StatusOf(ts.steps)
  }

  /**
   * reset_status_and_steps: a doubled seat sends both tokens home and is no
   * longer doubled; otherwise only the named token goes home.
   */
  function Reset(ps: PlayerState, slot: Slot): (r: PlayerState)
    ensures r.Get(slot) == AtHome && r.finished == ps.finished
    ensures ps.doubled ==> r.Get(Other(slot)) == AtHome && !r.doubled
    ensures !ps.doubled ==> r.Get(Other(slot)) == ps.Get(Other(slot)) && !r.doubled
  {
    if ps.doubled then ps.(p := AtHome, q := AtHome, doubled := false)
    else ps.With(slot, AtHome)
  }

  /** Resetting a token twice is resetting it once. */
  lemma ResetIdempotent(ps: PlayerState, slot: Slot)
    ensures Reset(Reset(ps, slot), slot) == Reset(ps, slot)
  {
  }

  /** The order in which two tokens are reset does not matter. */
  lemma ResetCommutes(ps: PlayerState, s1: Slot, s2: Slot)
    ensures Reset(Reset(ps, s1), s2) == Reset(Reset(ps, s2), s1)
  {
  }

  /** A reset leaves every token in step with its status. */
  lemma ResetKeepsInStep(ps: PlayerState, slot: Slot)
    requires InStep(ps.p) && InStep(ps.q)
    ensures InStep(Reset(ps, slot).p) && InStep(Reset(ps, slot).q)
    ensures !Reset(ps, slot).doubled
  {
  }

  /** The resets of move_token's loop over the evicted tokens, in order. */
  function ResetAll(ps: PlayerState, evicted: seq<Token>): (r: PlayerState)
    ensures r.finished == ps.finished
    ensures evicted != [] ==> !r.doubled
  {
    if evicted == [] then ps
    else Reset(ResetAll(ps, evicted[..|evicted| - 1]), evicted[|evicted| - 1].slot)
  }

  /**
   * After the loop every evicted token is home; a doubled seat has both
   * tokens home; otherwise a token that was not evicted keeps its state.
   * The `finished` flag is untouched and the seat is no longer doubled.
   */
  lemma {:induction false} ResetAllSendsHome(ps: PlayerState, evicted: seq<Token>)
    ensures var r := ResetAll(ps, evicted);
      && (forall t :: t in evicted ==> r.Get(t.slot) == AtHome)
      && r.finished == ps.finished
      && (evicted != [] ==> !r.doubled)
      && (evicted == [] ==> r == ps)
      && (ps.doubled && evicted != [] ==> r.p == AtHome && r.q == AtHome)
      && (forall s :: (forall t :: t in evicted ==> t.slot != s) && !ps.doubled ==> r.Get(s) == ps.Get(s))
  {
    if evicted != [] {
      var init := evicted[..|evicted| - 1];
      var last := evicted[|evicted| - 1];
      ResetAllSendsHome(ps, init);
      var mid := ResetAll(ps, init);
      assert evicted == init + [last];
      forall t | t in evicted
        ensures Reset(mid, last.slot).Get(t.slot) == AtHome
      {
        if t != last {
          assert t in init;
        }
      }
      if ps.doubled && init != [] {
        assert !mid.doubled;
      }
    }
  }

  /** Both tokens of a player are in step with their statuses. */
  predicate PlayerInStep(ps: PlayerState)
  {
    InStep(ps.p) && InStep(ps.q)
  }

  /** The loop of resets keeps both tokens in step. */
  lemma {:induction false} ResetAllKeepsInStep(ps: PlayerState, evicted: seq<Token>)
    requires PlayerInStep(ps)
    ensures PlayerInStep(ResetAll(ps, evicted))
  {
    if evicted != [] {
      ResetAllKeepsInStep(ps, evicted[..|evicted| - 1]);
      ResetKeepsInStep(ResetAll(ps, evicted[..|evicted| - 1]), evicted[|evicted| - 1].slot);
    }
  }

  /** The Player object: its seat, its start and end constants, and its mutable token state. */
  class Player {
    const seat: Seat
    const start: int
    const end: int
    var pSteps: int
    var qSteps: int
    var pStatus: Status
    var qStatus: Status
    var finished: bool
    var doubled: bool

    function State(): PlayerState
      reads this
    {
      PlayerState(TokenState(pSteps, pStatus), TokenState(qSteps, qStatus), finished, doubled)
    }

    /** Player.__init__: both tokens home and the seat's start and end step constants. */
    constructor (seat: Seat)
      ensures this.seat == seat && State() == NewPlayer
      ensures start == StartOf(seat) && end == EndOf(seat)
    {
      this.seat := seat;
      pStatus, qStatus := Home, Home;
      pSteps, qSteps := -1, -1;
      if seat == A {
        start, end := 0, 49;
      } else if seat == B {
        start, end := 14, 7;
      } else if seat == C {
        start, end := 28, 21;
      } else {
        start, end := 42, 35;
      }
      finished, doubled := false, false;
    }

    /** reset_status_and_steps. */
    method ResetStatusAndSteps(slot: Slot)
      modifies this
      ensures State() == Reset(old(State()), slot)
    {
      if doubled {
        pSteps, pStatus := -1, Home;
        qSteps, qStatus := -1, Home;
        doubled := false;
      } else if slot == P {
        pSteps, pStatus := -1, Home;
      } else {
        qSteps, qStatus := -1, Home;
      }
    }

    /** set_token_p_step_count / set_token_q_step_count. */
    method SetSteps(slot: Slot, steps: int)
      modifies this
      ensures State() == old(State()).With(slot, old(State()).Get(slot).(steps := steps))
    {
      if slot == P {
        pSteps := steps;
      } else {
        qSteps := steps;
      }
    }

    /** set_p_status / set_q_status. */
    method SetStatus(slot: Slot, status: Status)
      modifies this
      ensures State() == old(State()).With(slot, old(State()).Get(slot).(status := status))
    {
      if slot == P {
        pStatus := status;
      } else {
        qStatus := status;
      }
    }
  }
}
