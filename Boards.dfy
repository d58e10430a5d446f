/**
 * The board of LudoGameFinal.py (class Board): a map from space name to the
 * tokens standing there, the list of finished tokens, and the list of
 * occupied spaces kept for quick lookup; move_piece resolves plain moves,
 * moves out of home, moves to the finish, friendly stacking and captures.
 */
module Boards {
  import opened Spaces

  /** The Python exceptions move_piece can raise part-way through. */
  datatype Fault = KeyError | ValueError

  /** What move_piece did: returned None, returned the evicted occupants, or raised. */
  datatype PieceOutcome = Done | Kicked(evicted: seq<Token>) | Raised(fault: Fault)

  /** The three fields of a Board, as a value. */
  datatype BoardState = BoardState(cells: map<Space, seq<Token>>, finish: seq<Token>, occupied: seq<Space>)

  /** Python's list.remove: drops the first occurrence of `x`, if there is one. */
  function RemoveFirst<T(==,!new)>(s: seq<T>, x: T): (r: seq<T>)
    ensures x in s ==> |r| == |s| - 1
    ensures x !in s ==> r == s
  {
    if s == [] then []
    else if s[0] == x then s[1..]
    else [s[0]] + RemoveFirst(s[1..], x)
  }

  /** list.remove takes exactly one `x` away and keeps every other element. */
  lemma {:induction false} RemoveFirstSpec<T(!new)>(s: seq<T>, x: T)
    ensures multiset(RemoveFirst(s, x)) == multiset(s) - multiset{x}
    ensures forall y :: y != x ==> (y in RemoveFirst(s, x) <==> y in s)
  {
    if s != [] {
      RemoveFirstSpec(s[1..], x);
      assert s == [s[0]] + s[1..];
      if s[0] != x {
        assert RemoveFirst(s, x) == [s[0]] + RemoveFirst(s[1..], x);
      }
    }
    forall y | y != x ensures y in RemoveFirst(s, x) <==> y in s {
      assert y in RemoveFirst(s, x) <==> multiset(RemoveFirst(s, x))[y] > 0;
    }
  }

  /** No element occurs twice. */
  ghost predicate NoDup<T(!new)>(s: seq<T>)
  {
    forall x :: multiset(s)[x] <= 1
  }

  /** Removing from a list without repeats removes the element altogether. */
  lemma RemoveFirstNoDup<T(!new)>(s: seq<T>, x: T)
    requires NoDup(s)
    ensures NoDup(RemoveFirst(s, x)) && x !in RemoveFirst(s, x)
  {
    RemoveFirstSpec(s, x);
    assert multiset(RemoveFirst(s, x))[x] == 0;
  }

  /** The six home-row cells of a seat. */
  function HomeRowKeys(seat: Seat): set<Space>
  {
    set k | 1 <= k <= 6 :: HomeRow(seat, k)
  }

  /** The keys of the board: "1".."56" and "A1".."D6". */
  function Keys(): (ks: set<Space>)
    ensures forall sp :: sp in ks <==> IsKey(sp)
  {
    var rings := set n | 1 <= n <= 56 :: Ring(n);
    KeysSplit(rings);
    rings + HomeRowKeys(A) + HomeRowKeys(B) + HomeRowKeys(C) + HomeRowKeys(D)
  }

  lemma KeysSplit(rings: set<Space>)
    requires rings == set n | 1 <= n <= 56 :: Ring(n)
    ensures forall sp :: sp in rings + HomeRowKeys(A) + HomeRowKeys(B) + HomeRowKeys(C) + HomeRowKeys(D) <==> IsKey(sp)
  {
    forall sp | IsKey(sp)
      ensures sp in rings + HomeRowKeys(A) + HomeRowKeys(B) + HomeRowKeys(C) + HomeRowKeys(D)
    {
      match sp
      case Ring(n) =>
        assert 1 <= n <= 56;
        assert Ring(n) in rings;
      case HomeRow(seat, k) =>
        assert 1 <= k <= 6;
        match seat
        case A => assert sp in HomeRowKeys(A);
        case B => assert sp in HomeRowKeys(B);
        case C => assert sp in HomeRowKeys(C);
        case D => assert sp in HomeRowKeys(D);

    }
  }

  /** The keys of a cell map are exactly the board keys. */
  ghost predicate HasKeys(cells: map<Space, seq<Token>>)
  {
    forall sp :: sp in cells <==> IsKey(sp)
  }

  /**
   * What every Board keeps: its keys never change, and the occupied list
   * names each of its spaces once, each a key whose list is non-empty.
   */
  ghost predicate Inv(b: BoardState)
  {
    && HasKeys(b.cells)
    && NoDup(b.occupied)
    && Listed(b)
  }

  /** Every space on the occupied list is a key whose list is non-empty. */
  ghost predicate Listed(b: BoardState)
  {
    forall sp :: sp in b.occupied ==> sp in b.cells && b.cells[sp] != []
  }

  /** The intended occupancy invariant: a space is occupied exactly when its list is non-empty. */
  ghost predicate Consistent(b: BoardState)
  {
    && Inv(b)
    && forall sp :: sp in b.cells && b.cells[sp] != [] ==> sp in b.occupied
  }

  /** A new board: every key holds an empty list; nothing finished or occupied. */
  ghost predicate IsNew(b: BoardState)
  {
    && HasKeys(b.cells)
    && (forall sp :: sp in b.cells ==> b.cells[sp] == [])
    && b.finish == []
    && b.occupied == []
  }

  lemma NewIsConsistent(b: BoardState)
    requires IsNew(b)
    ensures Consistent(b)
  {
  }

  /** The position of a seat in the table order A, B, C, D. */
  function SeatIndex(seat: Seat): int
  {
    match seat
    case A => 0
    case B => 1
    case C => 2
    case D => 3
  }

  /** The order in which Board.__init__ creates the keys: rings first, then each seat's home row. */
  ghost function Rank(sp: Space): int
  {
    match sp
    case Ring(n) => n - 1
    case HomeRow(seat, k) => 56 + 6 * SeatIndex(seat) + k - 1
    case _ => -1
  }

  /** Board.__init__'s loops: the 56 ring cells, then six home-row cells for each seat in turn, all empty. */
  method EmptyCells() returns (cells: map<Space, seq<Token>>)
    ensures cells.Keys == Keys() && |cells| == 80
    ensures forall sp :: sp in cells ==> cells[sp] == []
  {
    var rings := RingCells();
    cells := AddHomeRows(rings);
    RankedKeys(cells);
  }

  /** Every key comes before rank 80, so a map holding the keys of rank below 80 holds all keys. */
  lemma RankedKeys(cells: map<Space, seq<Token>>)
    requires forall sp :: sp in cells <==> IsKey(sp) && Rank(sp) < 80
    ensures cells.Keys == Keys()
  {
    forall sp ensures sp in cells <==> sp in Keys() {
      if IsKey(sp) {
        assert Rank(sp) < 80;
      }
    }
  }

  /** The first loop of Board.__init__: the ring cells "1".."56", all empty. */
  method RingCells() returns (cells: map<Space, seq<Token>>)
    ensures forall sp :: sp in cells <==> sp.Ring? && 1 <= sp.n <= 56
    ensures |cells| == 56
    ensures forall sp :: sp in cells ==> cells[sp] == []
  {
    cells := map[];
    for i := 0 to 56
      invariant forall sp :: sp in cells <==> sp.Ring? && 1 <= sp.n <= i
      invariant |cells| == i
      invariant forall sp :: sp in cells ==> cells[sp] == []
    {
      cells := cells[Ring(i + 1) := []];
    }
  }

  /** The second loop of Board.__init__: six empty home-row cells for each of A, B, C, D. */
  method AddHomeRows(ringCells: map<Space, seq<Token>>) returns (cells: map<Space, seq<Token>>)
    requires forall sp :: sp in ringCells <==> sp.Ring? && 1 <= sp.n <= 56
    requires |ringCells| == 56
    requires forall sp :: sp in ringCells ==> ringCells[sp] == []
    ensures forall sp :: sp in cells <==> IsKey(sp) && Rank(sp) < 80
    ensures |cells| == 80
    ensures forall sp :: sp in cells ==> cells[sp] == []
  {
    cells := ringCells;
    var seats := [A, B, C, D];
    for j := 0 to 4
      invariant forall sp :: sp in cells <==> IsKey(sp) && Rank(sp) < 56 + 6 * j
      invariant |cells| == 56 + 6 * j
      invariant forall sp :: sp in cells ==> cells[sp] == []
    {
      assert SeatIndex(seats[j]) == j;
      cells := AddHomeRow(cells, seats[j]);
    }
  }

  /** The inner loop of Board.__init__: the cells "<seat>1".."<seat>6", all empty. */
  method AddHomeRow(before: map<Space, seq<Token>>, seat: Seat) returns (cells: map<Space, seq<Token>>)
    requires forall sp :: sp in before <==> IsKey(sp) && Rank(sp) < 56 + 6 * SeatIndex(seat)
    requires |before| == 56 + 6 * SeatIndex(seat)
    requires forall sp :: sp in before ==> before[sp] == []
    ensures forall sp :: sp in cells <==> IsKey(sp) && Rank(sp) < 62 + 6 * SeatIndex(seat)
    ensures |cells| == 62 + 6 * SeatIndex(seat)
    ensures forall sp :: sp in cells ==> cells[sp] == []
  {
    cells := before;
    for num := 1 to 7
      invariant forall sp :: sp in cells <==> IsKey(sp) && Rank(sp) < 55 + 6 * SeatIndex(seat) + num
      invariant |cells| == 55 + 6 * SeatIndex(seat) + num
      invariant forall sp :: sp in cells ==> cells[sp] == []
    {
      cells := cells[HomeRow(seat, num) := []];
    }
  }

  /** Takes `token` off the list at `start`; a missing key or token raises. */
  function Take(b: BoardState, token: Token, start: Space): (r: (BoardState, PieceOutcome))
    ensures r.1 == Done || r.1 == Raised(KeyError) || r.1 == Raised(ValueError)
    ensures r.1 == Raised(KeyError) <==> start !in b.cells
    ensures r.1 == Raised(ValueError) <==> start in b.cells && token !in b.cells[start]
    ensures r.1.Raised? ==> r.0 == b
    ensures r.1 == Done ==> && r.0.cells.Keys == b.cells.Keys && r.0.finish == b.finish && r.0.occupied == b.occupied
                            && |r.0.cells[start]| == |b.cells[start]| - 1
                            && multiset(r.0.cells[start]) == multiset(b.cells[start]) - multiset{token}
                            && forall sp :: sp in b.cells && sp != start ==> r.0.cells[sp] == b.cells[sp]
  {
    if start !in b.cells then (b, Raised(KeyError))
    else if token !in b.cells[start] then (b, Raised(ValueError))
    else
      RemoveFirstSpec(b.cells[start], token);
      (b.(cells := b.cells[start := RemoveFirst(b.cells[start], token)]), Done)
  }

  /**
   * Takes `token` off `start` and then `start` off the occupied list. As
   * written (`dropAlways`) the space is always dropped from the list; the
   * corrected code drops it only once its list is empty.
   */
  function Leave(b: BoardState, token: Token, start: Space, dropAlways: bool): (r: (BoardState, PieceOutcome))
    ensures r.1 == Done || r.1 == Raised(KeyError) || r.1 == Raised(ValueError)
    ensures r.0.cells.Keys == b.cells.Keys
    ensures r.1 == Raised(KeyError) <==> start !in b.cells
    ensures r.1 == Raised(KeyError) ==> r.0 == b
    ensures r.1 == Raised(ValueError) <==>
      start in b.cells && (token !in b.cells[start]
                           || ((dropAlways || RemoveFirst(b.cells[start], token) == []) && start !in b.occupied))
    ensures r.1 == Done ==>
      && r.0.cells == b.cells[start := RemoveFirst(b.cells[start], token)]
      && r.0.finish == b.finish
      && r.0.occupied == if !dropAlways && r.0.cells[start] != [] then b.occupied else RemoveFirst(b.occupied, start)
  {
    var (b1, o) := Take(b, token, start);
    if o.Raised? then (b1, o)
    else if !dropAlways && b1.cells[start] != [] then (b1, Done)
    else if start !in b1.occupied then (b1, Raised(ValueError))
    else (b1.(occupied := RemoveFirst(b1.occupied, start)), Done)
  }

  /** move_piece, with the occupied-list update as written or as corrected. */
  function MoveWith(b: BoardState, token: Token, start: Space, end: Space, dropAlways: bool): (r: (BoardState, PieceOutcome))
    requires Listed(b)
    ensures r.0.cells.Keys == b.cells.Keys
    ensures r.1.Kicked? ==> end in b.cells && r.1.evicted == b.cells[end] && r.1.evicted != []
    ensures r.1.Kicked? ==> r.1.evicted[0].seat != token.seat
  {
    if end in b.occupied then
      if b.cells[end][0].seat == token.seat then
        // a friendly token is there: stack on it
        var b1 := b.(cells := b.cells[end := b.cells[end] + [token]]);
        if start == H then (b1, Done) else Leave(b1, token, start, dropAlways)
      else
        // hostile tokens are there: evict them all
        var (b2, o) := Leave(b.(cells := b.cells[end := [token]]), token, start, dropAlways);
        (b2, if o.Raised? then o else Kicked(b.cells[end]))
    else if end == F then
      Leave(b.(finish := b.finish + [token]), token, start, dropAlways)
    else if end == H then
      Leave(b, token, start, dropAlways)
    else if end !in b.cells then
      (b, Raised(KeyError))
    else
      var b1 := b.(cells := b.cells[end := b.cells[end] + [token]]);
      if start == H then (b1.(occupied := b1.occupied + [end]), Done)
      else
        var (b2, o) := Leave(b1, token, start, dropAlways);
        if o.Raised? then (b2, o) else (b2.(occupied := b2.occupied + [end]), Done)
  }

  /**
   * move_piece as written (LudoGameFinal.py:90-120): a completed move off a
   * board cell needs start on the occupied list and always takes it off.
   */
  function MoveAsWritten(b: BoardState, token: Token, start: Space, end: Space): (r: (BoardState, PieceOutcome))
    requires Listed(b)
    ensures HasKeys(b.cells) && NoDup(b.occupied) && !r.1.Raised? && start != H ==>
      start in b.occupied && start !in r.0.occupied
  {
    AsWrittenUnlistsStart(b, token, start, end);
    MoveWith(b, token, start, end, true)
  }

  /** The as-written Leave ends, when it completes, with start unlisted. */
  lemma AsWrittenUnlistsStart(b: BoardState, token: Token, start: Space, end: Space)
    requires Listed(b)
    ensures var r := MoveWith(b, token, start, end, true);
      HasKeys(b.cells) && NoDup(b.occupied) && !r.1.Raised? && start != H ==>
      start in b.occupied && start !in r.0.occupied
  {
    if HasKeys(b.cells) && NoDup(b.occupied) && start != H {
      var r := MoveWith(b, token, start, end, true);
      if end in b.occupied {
        var b1 := if b.cells[end][0].seat == token.seat then b.(cells := b.cells[end := b.cells[end] + [token]])
                  else b.(cells := b.cells[end := [token]]);
        LeaveAlwaysUnlists(b1, token, start);
        assert r.0 == Leave(b1, token, start, true).0;
        assert r.1.Raised? == Leave(b1, token, start, true).1.Raised?;
      } else if end == F || end == H {
        var b1 := if end == F then b.(finish := b.finish + [token]) else b;
        LeaveAlwaysUnlists(b1, token, start);
        assert r == Leave(b1, token, start, true);
      } else if end in b.cells {
        var b1 := b.(cells := b.cells[end := b.cells[end] + [token]]);
        LeaveAlwaysUnlists(b1, token, start);
        var (b2, o) := Leave(b1, token, start, true);
        if !o.Raised? {
          assert r.0.occupied == b2.occupied + [end];
        }
      }
    }
  }

  /** The as-written Leave, when it completes, found start listed and unlisted it. */
  lemma LeaveAlwaysUnlists(b: BoardState, token: Token, start: Space)
    requires NoDup(b.occupied)
    ensures var (b2, o) := Leave(b, token, start, true);
      !o.Raised? ==> start in b.occupied && start !in b2.occupied
  {
    RemoveFirstNoDup(b.occupied, start);
  }

  /**
   * move_piece as corrected: after a completed move start stays on the
   * occupied list while tokens remain there.
   */
  function Move(b: BoardState, token: Token, start: Space, end: Space): (r: (BoardState, PieceOutcome))
    requires Listed(b)
    ensures HasKeys(b.cells) && !r.1.Raised? && start in b.occupied && start in r.0.cells && r.0.cells[start] != [] ==> start in r.0.occupied
  {
    MoveWith(b, token, start, end, false)
  }

  /** Leaving a space keeps the board's invariant, whichever occupied-list update is used. */
  lemma LeaveKeepsInv(b: BoardState, token: Token, start: Space, dropAlways: bool)
    requires Inv(b)
    ensures Inv(Leave(b, token, start, dropAlways).0)
  {
    if start in b.cells && token in b.cells[start] {
      var cells1 := b.cells[start := RemoveFirst(b.cells[start], token)];
      assert cells1.Keys == b.cells.Keys;
      if !dropAlways && cells1[start] != [] {
        forall sp | sp in b.occupied ensures sp in cells1 && cells1[sp] != [] {
        }
      } else if start in b.occupied {
        RemoveFirstNoDup(b.occupied, start);
        RemoveFirstSpec(b.occupied, start);
        var occ := RemoveFirst(b.occupied, start);
        forall sp | sp in occ ensures sp in cells1 && cells1[sp] != [] {
          assert sp != start && sp in b.occupied;
        }
      } else {
        forall sp | sp in b.occupied ensures sp in cells1 && cells1[sp] != [] {
          assert sp != start;
        }
      }
    }
  }

  /** move_piece keeps the board's invariant, as written and as corrected, even when it raises. */
  lemma MoveWithKeepsInv(b: BoardState, token: Token, start: Space, end: Space, dropAlways: bool)
    requires Inv(b)
    ensures Inv(MoveWith(b, token, start, end, dropAlways).0)
  {
    if end in b.occupied {
      var b1 := if b.cells[end][0].seat == token.seat then b.(cells := b.cells[end := b.cells[end] + [token]])
                else b.(cells := b.cells[end := [token]]);
      assert Inv(b1) by {
        assert b1.cells.Keys == b.cells.Keys;
      }
      LeaveKeepsInv(b1, token, start, dropAlways);
    } else if end == F {
      LeaveKeepsInv(b.(finish := b.finish + [token]), token, start, dropAlways);
    } else if end == H {
      LeaveKeepsInv(b, token, start, dropAlways);
    } else if end in b.cells {
      PlainMoveKeepsInv(b, token, start, end, dropAlways);
    }
  }

  lemma PlainMoveKeepsInv(b: BoardState, token: Token, start: Space, end: Space, dropAlways: bool)
    requires Inv(b)
    requires end !in b.occupied && end != F && end != H && end in b.cells
    ensures Inv(MoveWith(b, token, start, end, dropAlways).0)
  {
    var b1 := b.(cells := b.cells[end := b.cells[end] + [token]]);
    assert Inv(b1) by {
      assert b1.cells.Keys == b.cells.Keys;
    }
    if start == H {
      NoDupAppend(b1.occupied, end);
    } else {
      LeaveThenOccupy(b1, token, start, end, dropAlways);
    }
  }

  /** The last two steps of a plain move: leave start, then list end as occupied. */
  lemma LeaveThenOccupy(b1: BoardState, token: Token, start: Space, end: Space, dropAlways: bool)
    requires Inv(b1)
    requires end !in b1.occupied && end in b1.cells && b1.cells[end] != [] && token in b1.cells[end]
    ensures var (b2, o) := Leave(b1, token, start, dropAlways);
      Inv(if o.Raised? then b2 else b2.(occupied := b2.occupied + [end]))
  {
    LeaveKeepsInv(b1, token, start, dropAlways);
    var (b2, o) := Leave(b1, token, start, dropAlways);
    if !o.Raised? {
      var cells1 := b1.cells[start := RemoveFirst(b1.cells[start], token)];
      assert b2.cells == cells1;
      assert cells1[end] != [] by {
        if start == end {
          assert |cells1[end]| == |b1.cells[end]| - 1;
        }
      }
      if b2.occupied != b1.occupied {
        assert b2.occupied == RemoveFirst(b1.occupied, start);
        RemoveFirstSpec(b1.occupied, start);
      }
      assert end !in b2.occupied;
      NoDupAppend(b2.occupied, end);
      var b3 := b2.(occupied := b2.occupied + [end]);
      assert Listed(b3) by {
        forall sp | sp in b3.occupied ensures sp in b3.cells && b3.cells[sp] != [] {
          if sp != end {
            assert sp in b2.occupied;
          }
        }
      }
    }
  }

  lemma NoDupAppend<T(!new)>(s: seq<T>, x: T)
    requires NoDup(s) && x !in s
    ensures NoDup(s + [x])
  {
    assert multiset(s + [x]) == multiset(s) + multiset{x};
  }

  /** Every non-empty cell other than `x` is on the occupied list. */
  ghost predicate CoveredExcept(b: BoardState, x: Space)
  {
    forall sp :: sp in b.cells && b.cells[sp] != [] && sp != x ==> sp in b.occupied
  }

  /** The corrected Leave keeps every non-empty cell listed. */
  lemma LeaveKeepsCovered(b: BoardState, token: Token, start: Space, x: Space)
    requires Inv(b) && CoveredExcept(b, x)
    requires start in b.occupied && token in b.cells[start]
    ensures var (b2, o) := Leave(b, token, start, false);
      && o == Done
      && CoveredExcept(b2, x)
      && (forall sp :: sp in b.occupied && sp != start ==> sp in b2.occupied)
      && (b2.cells[start] != [] ==> start in b2.occupied)
  {
    var cells1 := b.cells[start := RemoveFirst(b.cells[start], token)];
    if cells1[start] == [] {
      RemoveFirstNoDup(b.occupied, start);
      RemoveFirstSpec(b.occupied, start);
    }
  }

  /** The corrected Leave keeps a board consistent when the excepted cell `x` is listed or no key. */
  lemma LeaveConsistent(b: BoardState, token: Token, start: Space, x: Space)
    requires Inv(b) && CoveredExcept(b, x) && (x in b.occupied || x !in b.cells)
    requires start in b.occupied && token in b.cells[start]
    ensures Leave(b, token, start, false).1 == Done
    ensures Consistent(Leave(b, token, start, false).0)
  {
    LeaveKeepsCovered(b, token, start, x);
    var (b2, o) := Leave(b, token, start, false);
    LeaveKeepsInv(b, token, start, false);
    assert b2.cells.Keys == b.cells.Keys;
  }

  /** Stacking on a friendly token keeps the board consistent. */
  lemma FriendlyKeepsConsistent(b: BoardState, token: Token, start: Space, end: Space)
    requires Consistent(b)
    requires end in b.occupied && b.cells[end][0].seat == token.seat
    requires start == H || (start in b.cells && token in b.cells[start])
    ensures Consistent(Move(b, token, start, end).0)
  {
    var b1 := b.(cells := b.cells[end := b.cells[end] + [token]]);
    assert b1.cells.Keys == b.cells.Keys;
    if start != H {
      assert Move(b, token, start, end) == Leave(b1, token, start, false);
      LeaveConsistent(b1, token, start, end);
    }
  }

  /** Evicting hostile tokens keeps the board consistent. */
  lemma HostileKeepsConsistent(b: BoardState, token: Token, start: Space, end: Space)
    requires Consistent(b)
    requires end in b.occupied && b.cells[end][0].seat != token.seat
    requires start == H || (start in b.cells && token in b.cells[start])
    ensures Consistent(Move(b, token, start, end).0)
  {
    var b1 := b.(cells := b.cells[end := [token]]);
    assert b1.cells.Keys == b.cells.Keys;
    assert Listed(b1);
    assert CoveredExcept(b1, end);
    HostileMove(b, token, start, end);
    if start != H {
      assert start in b1.occupied && token in b1.cells[start];
      LeaveConsistent(b1, token, start, end);
    } else {
      assert Move(b, token, start, end).0 == b1;
    }
  }

  /** On hostile tokens, the board after the move is the board after leaving the evicted cell. */
  lemma HostileMove(b: BoardState, token: Token, start: Space, end: Space)
    requires Listed(b)
    requires end in b.occupied && b.cells[end][0].seat != token.seat
    ensures Move(b, token, start, end).0 == Leave(b.(cells := b.cells[end := [token]]), token, start, false).0
  {
  }

  /** Moving onto an empty cell keeps the board consistent. */
  lemma PlainKeepsConsistent(b: BoardState, token: Token, start: Space, end: Space)
    requires Consistent(b)
    requires end !in b.occupied && end in b.cells && end != F && end != H
    requires start == H || (start in b.cells && token in b.cells[start])
    ensures Consistent(Move(b, token, start, end).0)
  {
    MoveWithKeepsInv(b, token, start, end, false);
    if start != H {
      var b1 := b.(cells := b.cells[end := b.cells[end] + [token]]);
      assert b1.cells.Keys == b.cells.Keys;
      assert Inv(b1);
      LeaveKeepsCovered(b1, token, start, end);
    }
  }

  /**
   * The corrected move_piece keeps occupancy exact (a space is listed iff its
   * list is non-empty) whenever the token really stands on `start`.
   */
  lemma MoveKeepsConsistent(b: BoardState, token: Token, start: Space, end: Space)
    requires Consistent(b)
    requires start == H || (start in b.cells && token in b.cells[start])
    ensures Consistent(Move(b, token, start, end).0)
  {
    if end in b.occupied {
      if b.cells[end][0].seat == token.seat {
        FriendlyKeepsConsistent(b, token, start, end);
      } else {
        HostileKeepsConsistent(b, token, start, end);
      }
    } else if end == F || end == H {
      if start != H {
        var b1 := if end == F then b.(finish := b.finish + [token]) else b;
        assert Move(b, token, start, end) == Leave(b1, token, start, false);
        LeaveConsistent(b1, token, start, end);
      }
    } else if end in b.cells {
      PlainKeepsConsistent(b, token, start, end);
    }
  }

  /** An end that is no board key (an int, "R") raises KeyError before anything changes. */
  lemma MoveToNonKey(b: BoardState, token: Token, start: Space, end: Space)
    requires Inv(b)
    requires !IsKey(end) && end != F && end != H
    ensures Move(b, token, start, end) == (b, Raised(KeyError))
  {
  }

  /**
   * To an empty cell: the token is transferred from start to end; start
   * leaves the occupied list once it is empty and end joins it once.
   */
  lemma MoveToEmptyCell(b: BoardState, token: Token, start: Space, end: Space)
    requires Consistent(b)
    requires start in b.cells && token in b.cells[start]
    requires end in b.cells && b.cells[end] == []
    ensures var (b', r) := Move(b, token, start, end);
      && r == Done
      && b'.cells == b.cells[end := [token]][start := RemoveFirst(b.cells[start], token)]
      && b'.finish == b.finish
      && b'.occupied == (if b'.cells[start] == [] then RemoveFirst(b.occupied, start) else b.occupied) + [end]
      && end in b'.occupied && (start in b'.occupied <==> b'.cells[start] != [])
  {
    RemoveFirstNoDup(b.occupied, start);
    assert b.cells[end] + [token] == [token];
  }

  /** To the finish: the token is appended to the finish list and taken off start. */
  lemma MoveToFinish(b: BoardState, token: Token, start: Space)
    requires Consistent(b)
    requires start in b.cells && token in b.cells[start]
    ensures var (b', r) := Move(b, token, start, F);
      && r == Done
      && b'.finish == b.finish + [token]
      && b'.cells == b.cells[start := RemoveFirst(b.cells[start], token)]
      && b'.occupied == if b'.cells[start] == [] then RemoveFirst(b.occupied, start) else b.occupied
  {
  }

  /** Back home: the token is only taken off start. */
  lemma MoveToHome(b: BoardState, token: Token, start: Space)
    requires Consistent(b)
    requires start in b.cells && token in b.cells[start]
    ensures var (b', r) := Move(b, token, start, H);
      && r == Done
      && b'.finish == b.finish
      && b'.cells == b.cells[start := RemoveFirst(b.cells[start], token)]
      && b'.occupied == if b'.cells[start] == [] then RemoveFirst(b.occupied, start) else b.occupied
  {
  }

  /** Out of home onto an empty cell: the token is only appended there. */
  lemma MoveFromHome(b: BoardState, token: Token, end: Space)
    requires Consistent(b)
    requires end in b.cells && b.cells[end] == []
    ensures Move(b, token, H, end) == (b.(cells := b.cells[end := [token]], occupied := b.occupied + [end]), Done)
  {
    assert b.cells[end] + [token] == [token];
  }

  /**
   * Onto a friendly token: the token is stacked behind the occupants and
   * nobody is evicted; start is vacated unless the token comes from home.
   */
  lemma MoveFriendly(b: BoardState, token: Token, start: Space, end: Space)
    requires Consistent(b)
    requires end in b.cells && b.cells[end] != [] && b.cells[end][0].seat == token.seat
    requires start == H || (start in b.cells && token in b.cells[start] && start != end)
    ensures var (b', r) := Move(b, token, start, end);
      && r == Done
      && b'.finish == b.finish
      && b'.cells[end] == b.cells[end] + [token]
      && b'.cells == (if start == H then b.cells[end := b.cells[end] + [token]]
                      else b.cells[end := b.cells[end] + [token]][start := RemoveFirst(b.cells[start], token)])
      && end in b'.occupied
  {
    var b1 := b.(cells := b.cells[end := b.cells[end] + [token]]);
    if start != H {
      assert Move(b, token, start, end) == Leave(b1, token, start, false);
      RemoveFirstSpec(b1.occupied, start);
    }
  }

  /**
   * Onto hostile tokens: every occupant is evicted and returned, the end
   * cell holds the mover alone, and start loses the mover.
   */
  lemma MoveCapture(b: BoardState, token: Token, start: Space, end: Space)
    requires Consistent(b)
    requires end in b.cells && b.cells[end] != [] && b.cells[end][0].seat != token.seat
    requires start in b.cells && token in b.cells[start] && start != end
    ensures var (b', r) := Move(b, token, start, end);
      && r == Kicked(b.cells[end])
      && b'.finish == b.finish
      && b'.cells == b.cells[end := [token]][start := RemoveFirst(b.cells[start], token)]
      && end in b'.occupied
      && Consistent(b')
  {
    MoveKeepsConsistent(b, token, start, end);
  }

  /**
   * Out of home onto hostile tokens: the end cell is cleared down to the
   * mover, then taking the mover off "H" raises KeyError; the evicted
   * tokens are not returned.
   */
  lemma MoveCaptureFromHome(b: BoardState, token: Token, end: Space)
    requires Consistent(b)
    requires end in b.cells && b.cells[end] != [] && b.cells[end][0].seat != token.seat
    ensures MoveAsWritten(b, token, H, end) == Move(b, token, H, end)
    ensures Move(b, token, H, end) == (b.(cells := b.cells[end := [token]]), Raised(KeyError))
  {
    assert end in b.occupied;
  }

  /**
   * A token missing from its start cell, moving onto an empty cell: it is
   * appended there, then removing it from start raises ValueError, and the
   * end cell holds it without being listed.
   */
  lemma MoveOffItsCell(b: BoardState, token: Token, start: Space, end: Space)
    requires Consistent(b)
    requires start in b.cells && token !in b.cells[start]
    requires end in b.cells && b.cells[end] == [] && start != end
    ensures Move(b, token, start, end) == (b.(cells := b.cells[end := [token]]), Raised(ValueError))
    ensures !Consistent(Move(b, token, start, end).0)
  {
    assert end !in b.occupied;
    assert b.cells[end] + [token] == [token];
  }

  /**
   * The code as written and the corrected code agree whenever the mover
   * leaves its start space empty (or does not stand there at all).
   */
  lemma MoveAgreesWithAsWritten(b: BoardState, token: Token, start: Space, end: Space)
    requires Inv(b)
    requires start != end
    requires start == H || start !in b.cells || token !in b.cells[start] || b.cells[start] == [token]
    ensures MoveAsWritten(b, token, start, end) == Move(b, token, start, end)
  {
    assert RemoveFirst([token], token) == [];
  }

  /**
   * As written, moving one of two tokens off a shared space drops that space
   * from the occupied list although the other token still stands there.
   */
  lemma AsWrittenLosesSharedStart(b: BoardState, token: Token, start: Space, end: Space)
    requires Consistent(b)
    requires start in b.cells && token in b.cells[start] && |b.cells[start]| >= 2
    requires end in b.cells && b.cells[end] == []
    ensures var (b', r) := MoveAsWritten(b, token, start, end);
      && r == Done
      && b'.cells[start] != []
      && start !in b'.occupied
      && !Consistent(b')
  {
    RemoveFirstNoDup(b.occupied, start);
    var (b', r) := MoveAsWritten(b, token, start, end);
    assert start != end;
    assert |b'.cells[start]| == |b.cells[start]| - 1;
  }

  /** The cells of the shared-space scenario below. */
  ghost predicate SharedScenario(b: BoardState, x: Token, y: Token, z: Token, s: Space, t: Space, e: Space)
  {
    && Consistent(b)
    && s in b.cells && t in b.cells && e in b.cells
    && s != t && s != e && t != e
    && b.cells[s] == [x, y] && b.cells[t] == [z] && b.cells[e] == []
    && y.seat != z.seat
  }

  /**
   * The symptom of the defect on any consistent board, as written: x and y
   * share `s`, a hostile z stands alone on `t`, `e` is empty. x moves from
   * `s` to `e`, which drops `s` from the occupied list; then z moves from
   * `t` onto `s` and joins y there.
   */
  lemma SharedCellAsWritten(b: BoardState, x: Token, y: Token, z: Token, s: Space, t: Space, e: Space)
    requires SharedScenario(b, x, y, z, s, t, e)
    ensures MoveAsWritten(b, x, s, e).1 == Done
    ensures Inv(MoveAsWritten(b, x, s, e).0)
    ensures MoveAsWritten(MoveAsWritten(b, x, s, e).0, z, t, s).1 == Done
    ensures Inv(MoveAsWritten(MoveAsWritten(b, x, s, e).0, z, t, s).0)
    ensures MoveAsWritten(MoveAsWritten(b, x, s, e).0, z, t, s).0.cells[s] == [y, z]
  {
    SharedFirstStepAsWritten(b, x, y, z, s, t, e);
    var b1 := MoveAsWritten(b, x, s, e).0;
    assert z in b1.cells[t] && s in b1.cells;
    PlainMoveAsWritten(b1, z, t, s);
    MoveWithKeepsInv(b1, z, t, s, true);
    var b2 := MoveAsWritten(b1, z, t, s).0;
    assert b2.cells[s] == b1.cells[s] + [z] == [y, z];
  }

  /**
   * The other symptom, as written: after x has left `s`, y moving on from
   * `s` to an empty cell `u` is appended at `u` and taken off `s`, and then
   * unlisting `s` raises ValueError, so `u` is never listed.
   */
  lemma SharedCellStrandsAsWritten(b: BoardState, x: Token, y: Token, z: Token, s: Space, t: Space, e: Space, u: Space)
    requires SharedScenario(b, x, y, z, s, t, e)
    requires u in b.cells && b.cells[u] == [] && u != s && u != e
    ensures Inv(MoveAsWritten(b, x, s, e).0)
    ensures MoveAsWritten(MoveAsWritten(b, x, s, e).0, y, s, u).1 == Raised(ValueError)
    ensures MoveAsWritten(MoveAsWritten(b, x, s, e).0, y, s, u).0.cells[s] == []
    ensures MoveAsWritten(MoveAsWritten(b, x, s, e).0, y, s, u).0.cells[u] == [y]
    ensures u !in MoveAsWritten(MoveAsWritten(b, x, s, e).0, y, s, u).0.occupied
  {
    SharedFirstStepAsWritten(b, x, y, z, s, t, e);
    PlainMoveAsWritten(b, x, s, e);
    LeavingUnlistedAsWritten(MoveAsWritten(b, x, s, e).0, y, s, u);
  }

  /** The second move of that symptom on its own: the last token leaves an unlisted cell. */
  lemma LeavingUnlistedAsWritten(b1: BoardState, y: Token, s: Space, u: Space)
    requires Inv(b1) && s in b1.cells && b1.cells[s] == [y] && s !in b1.occupied
    requires u in b1.cells && b1.cells[u] == [] && u != s
    ensures MoveAsWritten(b1, y, s, u) == (b1.(cells := b1.cells[u := [y]][s := []]), Raised(ValueError))
    ensures u !in b1.occupied
  {
    var c := b1.(cells := b1.cells[u := [y]]);
    assert b1.cells[u] + [y] == [y];
    assert RemoveFirst([y], y) == [];
    assert Leave(c, y, s, true) == (c.(cells := c.cells[s := []]), Raised(ValueError));
  }

  /** The first move of the scenario, as written: y stays on `s` but `s` is unlisted. */
  lemma SharedFirstStepAsWritten(b: BoardState, x: Token, y: Token, z: Token, s: Space, t: Space, e: Space)
    requires SharedScenario(b, x, y, z, s, t, e)
    ensures var (b1, r1) := MoveAsWritten(b, x, s, e);
      && r1 == Done && Inv(b1)
      && b1.cells[s] == [y] && b1.cells[t] == [z]
      && s !in b1.occupied && t in b1.occupied && s != t
  {
    assert e !in b.occupied;
    assert s in b.occupied && t in b.occupied;
    RemoveFirstNoDup(b.occupied, s);
    RemoveFirstSpec(b.occupied, s);
    assert RemoveFirst([x, y], x) == [y];
    PlainMoveAsWritten(b, x, s, e);
    MoveWithKeepsInv(b, x, s, e, true);
  }

  /** As written, a plain move onto an empty cell always drops start from the occupied list. */
  lemma PlainMoveAsWritten(b: BoardState, token: Token, start: Space, end: Space)
    requires Inv(b) && start in b.occupied && token in b.cells[start]
    requires end in b.cells && end !in b.occupied && start != end
    ensures MoveAsWritten(b, token, start, end)
         == (b.(cells := b.cells[end := b.cells[end] + [token]][start := RemoveFirst(b.cells[start], token)],
                occupied := RemoveFirst(b.occupied, start) + [end]), Done)
  {
  }

  /**
   * The same scenario with the corrected move: `s` stays listed while y
   * stands there, so z evicts y.
   */
  lemma SharedCellCorrected(b: BoardState, x: Token, y: Token, z: Token, s: Space, t: Space, e: Space)
    requires SharedScenario(b, x, y, z, s, t, e)
    ensures var (b1, r1) := Move(b, x, s, e);
      && r1 == Done && Inv(b1)
      && var (b2, r2) := Move(b1, z, t, s);
      && r2 == Kicked([y]) && Inv(b2) && b2.cells[s] == [z]
  {
    assert e !in b.occupied;
    assert s in b.occupied && t in b.occupied;
    assert RemoveFirst([x, y], x) == [y];
    assert RemoveFirst([z], z) == [];
    var c := b.(cells := b.cells[e := b.cells[e] + [x]]);
    var b1 := c.(cells := c.cells[s := [y]], occupied := b.occupied + [e]);
    assert Move(b, x, s, e) == (b1, Done);
    MoveWithKeepsInv(b, x, s, e, false);
    assert b1.cells[s] == [y] && b1.cells[t] == [z];
    assert s in b1.occupied && t in b1.occupied;
    var d := b1.(cells := b1.cells[s := [z]]);
    assert Leave(d, z, t, false).1 == Done;
    assert Move(b1, z, t, s) == (Leave(d, z, t, false).0, Kicked([y]));
    MoveWithKeepsInv(b1, z, t, s, false);
  }

  /** A board whose listed cells hold the given tokens and all other keys are empty. */
  function Board2(s1: Space, t1: seq<Token>, s2: Space, t2: seq<Token>): (b: BoardState)
    requires IsKey(s1) && IsKey(s2) && s1 != s2 && t1 != [] && t2 != []
    ensures Consistent(b)
  {
    var b := BoardState((map sp | sp in Keys() :: [])[s1 := t1][s2 := t2], [], [s1, s2]);
    assert HasKeys(b.cells);
    assert NoDup(b.occupied) by {
      assert forall sp :: multiset(b.occupied)[sp] == (if sp == s1 then 1 else 0) + (if sp == s2 then 1 else 0);
    }
    b
  }

  /**
   * The concrete instance: a_p and a_q share "9" and c_p stands on "5".
   * a_p moves on to "12"; then c_p moves four steps onto "9" and, as
   * written, joins a_q there instead of capturing it.
   */
  lemma SharedCellCounterexample()
    ensures var b := Board2(Ring(9), [Token(A, P), Token(A, Q)], Ring(5), [Token(C, P)]);
      && var (b1, r1) := MoveAsWritten(b, Token(A, P), Ring(9), Ring(12));
      && r1 == Done && Inv(b1)
      && var (b2, r2) := MoveAsWritten(b1, Token(C, P), Ring(5), Ring(9));
      && r2 == Done && Inv(b2)
      && b2.cells[Ring(9)] == [Token(A, Q), Token(C, P)]
    ensures var b := Board2(Ring(9), [Token(A, P), Token(A, Q)], Ring(5), [Token(C, P)]);
      && var (b1, r1) := Move(b, Token(A, P), Ring(9), Ring(12));
      && r1 == Done && Inv(b1)
      && var (b2, r2) := Move(b1, Token(C, P), Ring(5), Ring(9));
      && r2 == Kicked([Token(A, Q)]) && Inv(b2)
      && b2.cells[Ring(9)] == [Token(C, P)]
  {
    var b := Board2(Ring(9), [Token(A, P), Token(A, Q)], Ring(5), [Token(C, P)]);
    assert IsKey(Ring(12));
    assert SharedScenario(b, Token(A, P), Token(A, Q), Token(C, P), Ring(9), Ring(5), Ring(12));
    SharedCellAsWritten(b, Token(A, P), Token(A, Q), Token(C, P), Ring(9), Ring(5), Ring(12));
    SharedCellCorrected(b, Token(A, P), Token(A, Q), Token(C, P), Ring(9), Ring(5), Ring(12));
  }

  /**
   * The concrete instance of the second symptom: after a_p has left "9" for
   * "12", a_q moving from "9" to "20" raises ValueError, with a_q already on
   * "20", "9" empty, and "20" not on the occupied list.
   */
  lemma SharedCellStrandedCounterexample()
    ensures var b := Board2(Ring(9), [Token(A, P), Token(A, Q)], Ring(5), [Token(C, P)]);
      && var (b1, r1) := MoveAsWritten(b, Token(A, P), Ring(9), Ring(12));
      && r1 == Done && Inv(b1)
      && var (b2, r2) := MoveAsWritten(b1, Token(A, Q), Ring(9), Ring(20));
      && r2 == Raised(ValueError)
      && b2.cells[Ring(9)] == [] && b2.cells[Ring(20)] == [Token(A, Q)]
      && Ring(20) !in b2.occupied
  {
    var b := Board2(Ring(9), [Token(A, P), Token(A, Q)], Ring(5), [Token(C, P)]);
    assert IsKey(Ring(12)) && IsKey(Ring(20));
    assert SharedScenario(b, Token(A, P), Token(A, Q), Token(C, P), Ring(9), Ring(5), Ring(12));
    SharedFirstStepAsWritten(b, Token(A, P), Token(A, Q), Token(C, P), Ring(9), Ring(5), Ring(12));
    SharedCellStrandsAsWritten(b, Token(A, P), Token(A, Q), Token(C, P), Ring(9), Ring(5), Ring(12), Ring(20));
  }

  /** The Board object of LudoGameFinal.py. */
  class Board {
    var cells: map<Space, seq<Token>>
    var finish: seq<Token>
    var occupied: seq<Space>

    function State(): BoardState
      reads this
    {
      BoardState(cells, finish, occupied)
    }

    ghost predicate Valid()
      reads this
    {
      Inv(State())
    }

    /** Board.__init__: all 80 keys empty, nothing finished, nothing occupied. */
    constructor ()
      ensures Valid() && IsNew(State()) && |cells| == 80
    {
      var empty := EmptyCells();
      cells := empty;
      finish := [];
      occupied := [];
    }

    /** Board.remove_token with the occupied-list update of move_piece (corrected). */
    method Vacate(token: Token, start: Space) returns (r: PieceOutcome)
      modifies this
      ensures (State(), r) == Leave(old(State()), token, start, false)
    {
      if start !in cells {
        return Raised(KeyError);
      }
      if token !in cells[start] {
        return Raised(ValueError);
      }
      cells := cells[start := RemoveFirst(cells[start], token)];
      if cells[start] != [] {
        return Done;
      }
      if start !in occupied {
        return Raised(ValueError);
      }
      occupied := RemoveFirst(occupied, start);
      r := Done;
    }

    /** Board.move_piece, with the corrected occupied-list update. */
    method MovePiece(token: Token, start: Space, end: Space) returns (r: PieceOutcome)
      requires Valid()
      modifies this
      ensures (State(), r) == Move(old(State()), token, start, end)
      ensures Valid()
    {
      MoveWithKeepsInv(State(), token, start, end, false);
      if end in occupied {
        if cells[end][0].seat == token.seat {
          cells := cells[end := cells[end] + [token]];
          if start == H {
            r := Done;
          } else {
            r := Vacate(token, start);
          }
        } else {
          var removed := cells[end];
          cells := cells[end := [token]];
          r := Vacate(token, start);
          if !r.Raised? {
            r := Kicked(removed);
          }
        }
      } else if end == F {
        finish := finish + [token];
        r := Vacate(token, start);
      } else if end == H {
        r := Vacate(token, start);
      } else if end !in cells {
        r := Raised(KeyError);
      } else if start == H {
        cells := cells[end := cells[end] + [token]];
        occupied := occupied + [end];
        r := Done;
      } else {
        cells := cells[end := cells[end] + [token]];
        r := Vacate(token, start);
        if !r.Raised? {
          occupied := occupied + [end];
        }
      }
    }
  }
}
