/**
 * The Tic Tac Toe game board: ten slots, of which slot 0 records the mark
 * that started the game and slots 1..9 are the cells of the 3x3 grid in
 * row-major order, together with the mark whose turn it is.
 *
 * The pure queries are stated over the board's value (a `seq<Cell>`) so that
 * the heuristic selector, which reads the board, can use the same
 * definitions; the class `TicTacToe` holds the state the game updates.
 */
module Board {

  /** The two marks a player can be identified by. */
  datatype Mark = X | O

  /** What a board slot holds: nothing yet, or a mark. */
  datatype Cell = Empty | Marked(mark: Mark)

  /** Number of board slots: the starter slot plus nine cells. */
  const Slots := 10

  /** The other mark: the turn swap and the selector's opponent. */
  function Other(m: Mark): (r: Mark)
    ensures r != m
  {
    if m == X then O else X
  }

  /**
   * The eight winning triples: rows, columns and both diagonals. Shared by
   * win detection and by the selector's weight functions.
   */
  const WinningSets: seq<seq<int>> :=
    [[1, 2, 3], [4, 5, 6], [7, 8, 9],
     [1, 4, 7], [2, 5, 8], [3, 6, 9],
     [1, 5, 9], [3, 5, 7]]

  /** A fresh board: the starter's mark in slot 0, every cell empty. */
  function NewBoard(starter: Mark): (b: seq<Cell>)
    ensures |b| == Slots && b[0] == Marked(starter)
    ensures forall p :: 1 <= p < Slots ==> b[p] == Empty
  {
    [Marked(starter)] + seq(Slots - 1, _ => Empty)
  }

  /**
   * A position is open to play: a cell 1..9 that is still empty. Slot 0
   * never is, and a board with an open cell is not full.
   */
  predicate IsPlayable(b: seq<Cell>, position: int)
    requires |b| == Slots
    ensures IsPlayable(b, position) ==> position != 0 && !Draw(b)
  {
    1 <= position <= 9 && b[position] == Empty
  }

  /** Strictly ascending sequence of positions. */
  predicate Ascending(s: seq<int>)
  {
    forall i, j :: 0 <= i < j < |s| ==> s[i] < s[j]
  }

  /** The playable positions among slots 0..n-1, in ascending order. */
  function MovesBelow(b: seq<Cell>, n: nat): (r: seq<int>)
    requires |b| == Slots && n <= Slots
  {
    if n == 0 then []
    else MovesBelow(b, n - 1) + (if IsPlayable(b, n - 1) then [n - 1] else [])
  }

  /** MovesBelow holds exactly the playable slots below n, ascending. */
  lemma {:induction false} MovesBelowSpec(b: seq<Cell>, n: nat)
    requires |b| == Slots && n <= Slots
    ensures forall p :: p in MovesBelow(b, n) <==> 0 <= p < n && IsPlayable(b, p)
    ensures Ascending(MovesBelow(b, n))
    ensures forall i :: 0 <= i < |MovesBelow(b, n)| ==> MovesBelow(b, n)[i] < n
  {
    if n > 0 {
      MovesBelowSpec(b, n - 1);
    }
  }

  /**
   * The list of possible moves: exactly the playable positions, in
   * ascending order. Slot 0 is never among them.
   */
  function Moves(b: seq<Cell>): (r: seq<int>)
    requires |b| == Slots
    ensures forall p :: p in r <==> IsPlayable(b, p)
    ensures Ascending(r)
    ensures 0 !in r
  {
    MovesBelowSpec(b, Slots);
    MovesBelow(b, Slots)
  }

  /** The slots 0..n-1 that hold mark m, in ascending order. */
  function PositionsBelow(b: seq<Cell>, m: Mark, n: nat): (r: seq<int>)
    requires |b| == Slots && n <= Slots
    ensures forall p :: p in r <==> 0 <= p < n && b[p] == Marked(m)
    ensures Ascending(r)
    ensures forall i :: 0 <= i < |r| ==> r[i] < n
  {
    if n == 0 then []
    else PositionsBelow(b, m, n - 1) + (if b[n - 1] == Marked(m) then [n - 1] else [])
  }

  /**
   * The slots holding mark m, in ascending order. Slot 0 is among them when
   * m is the mark that started the game.
   */
  function Positions(b: seq<Cell>, m: Mark): (r: seq<int>)
    requires |b| == Slots
    ensures forall p :: p in r <==> 0 <= p < Slots && b[p] == Marked(m)
    ensures Ascending(r)
  {
    PositionsBelow(b, m, Slots)
  }

  /** Every position of the line holds mark m. */
  predicate LineFilled(b: seq<Cell>, line: seq<int>, m: Mark)
    requires forall j :: 0 <= j < |line| ==> 0 <= line[j] < |b|
  {
    forall j :: 0 <= j < |line| ==> b[line[j]] == Marked(m)
  }

  /** A winning triple lies entirely within the cells 1..9. */
  lemma WinningSetsInRange()
    ensures |WinningSets| == 8
    ensures forall k, j :: 0 <= k < 8 && 0 <= j < |WinningSets[k]| ==> 1 <= WinningSets[k][j] <= 9
  {
  }

  /**
   * On a fresh board every cell 1..9 is a possible move, only slot 0 holds
   * a mark (the starter's), nobody has won and the board is not full.
   */
  lemma NewBoardQueries(starter: Mark)
    ensures Moves(NewBoard(starter)) == [1, 2, 3, 4, 5, 6, 7, 8, 9]
    ensures Positions(NewBoard(starter), starter) == [0]
    ensures Positions(NewBoard(starter), Other(starter)) == []
    ensures !SomeoneWins(NewBoard(starter)) && !Draw(NewBoard(starter))
  {
    var b := NewBoard(starter);
    NewBoardMoves(b);
    AscendingSingleton(Positions(b, starter), 0);
    NoElements(Positions(b, Other(starter)));
    NoMarkNoWin(b, X);
    NoMarkNoWin(b, O);
    assert b[1] == Empty;
  }

  lemma NewBoardMoves(b: seq<Cell>)
    requires |b| == Slots && forall p :: 1 <= p < Slots ==> b[p] == Empty
    ensures Moves(b) == [1, 2, 3, 4, 5, 6, 7, 8, 9]
  {
    AllOpenBelow(b, Slots);
    var r := Moves(b);
    assert |r| == 9;
    forall i | 0 <= i < 9 ensures r[i] == [1, 2, 3, 4, 5, 6, 7, 8, 9][i] {
    }
  }

  lemma {:induction false} AllOpenBelow(b: seq<Cell>, n: nat)
    requires |b| == Slots && 1 <= n <= Slots && forall p :: 1 <= p < Slots ==> b[p] == Empty
    ensures |MovesBelow(b, n)| == n - 1 && forall i :: 0 <= i < n - 1 ==> MovesBelow(b, n)[i] == i + 1
  {
    if n > 1 {
      AllOpenBelow(b, n - 1);
      assert IsPlayable(b, n - 1);
    } else {
      assert MovesBelow(b, 0) == [];
    }
  }

  lemma NoMarkNoWin(b: seq<Cell>, m: Mark)
    requires |b| == Slots && forall p :: 1 <= p < Slots ==> b[p] == Empty
    ensures !Wins(b, m)
  {
    WinningSetsInRange();
    forall k | 0 <= k < 8
      ensures !LineFilled(b, WinningSets[k], m)
    {
      assert b[WinningSets[k][0]] == Empty;
    }
  }

  /** An ascending sequence whose only element is x is [x]. */
  lemma AscendingSingleton(r: seq<int>, x: int)
    requires Ascending(r) && forall p :: p in r <==> p == x
    ensures r == [x]
  {
    assert x in r;
    ElemIn(r, 0);
    ElemIn(r, |r| - 1);
  }

  /** A sequence with no element is empty. */
  lemma NoElements(r: seq<int>)
    requires forall p :: p !in r
    ensures r == []
  {
    if |r| > 0 {
      var y := r[0];
      assert y !in r;
      ElemIn(r, 0);
      assert false;
    }
  }

  /**
   * An element of a sequence is in it. Called instead of asserting the fact,
   * which the solver would flag as holding by itself in a contradictory context.
   */
  lemma ElemIn(r: seq<int>, i: int)
    requires 0 <= i < |r|
    ensures r[i] in r
  {
  }

  /** Mark m fills one of the eight winning triples. */
  predicate Wins(b: seq<Cell>, m: Mark)
    requires |b| == Slots
  {
    WinningSetsInRange();
    exists k :: 0 <= k < |WinningSets| && LineFilled(b, WinningSets[k], m)
  }

  /** Either mark fills a winning triple. */
  predicate SomeoneWins(b: seq<Cell>)
    requires |b| == Slots
  {
    Wins(b, X) || Wins(b, O)
  }

  /** The board is full: no slot is empty (whether or not someone won). */
  predicate Draw(b: seq<Cell>)
    ensures Draw(b) <==> forall i :: 0 <= i < |b| ==> b[i].Marked?
  {
    Empty !in b
  }

  /**
   * On a board whose slot 0 holds a mark, a draw is exactly "no move left".
   */
  lemma {:induction false} DrawIffNoMoves(b: seq<Cell>)
    requires |b| == Slots && b[0] != Empty
    ensures Draw(b) <==> Moves(b) == []
    ensures Draw(b) <==> forall p :: 1 <= p <= 9 ==> b[p] != Empty
  {
    if !Draw(b) {
      var i :| 0 <= i < |b| && b[i] == Empty;
      assert i in Moves(b);
    }
    if Moves(b) != [] {
      assert Moves(b)[0] in Moves(b);
    }
  }

  /**
   * A draw does not exclude a winner: a full board on which X holds the top
   * row counts as a draw.
   */
  lemma FullWonBoardIsDraw()
    ensures var b := [Marked(X), Marked(X), Marked(X), Marked(X),
                      Marked(O), Marked(O), Marked(X), Marked(O),
                      Marked(X), Marked(O)];
            Draw(b) && Wins(b, X) && !Wins(b, O)
  {
    var b := [Marked(X), Marked(X), Marked(X), Marked(X),
              Marked(O), Marked(O), Marked(X), Marked(O),
              Marked(X), Marked(O)];
    assert LineFilled(b, WinningSets[0], X);
    forall k | 0 <= k < |WinningSets|
      ensures !LineFilled(b, WinningSets[k], O)
    {
      var line := WinningSets[k];
      if k == 1 { assert b[line[2]] != Marked(O); }
      else if k == 2 { assert b[line[1]] != Marked(O); }
      else { assert b[line[0]] != Marked(O); }
    }
  }

  /**
   * Writing a mark into a playable cell changes no other slot and keeps
   * every occupied slot as it was (the write-once property, for callers
   * that check playability first).
   */
  lemma PlayableWriteKeepsOccupied(b: seq<Cell>, position: int, m: Mark)
    requires |b| == Slots && IsPlayable(b, position)
    ensures forall i :: 0 <= i < Slots && b[i] != Empty ==> b[position := Marked(m)][i] == b[i]
    ensures Moves(b[position := Marked(m)]) == RemoveMove(Moves(b), position)
  {
    var b' := b[position := Marked(m)];
    MovesAfterPlay(b, position, m, Slots);
  }

  /** A sequence of moves with one position taken out. */
  function RemoveMove(s: seq<int>, p: int): (r: seq<int>)
    ensures forall q :: q in r <==> q in s && q != p
    ensures |r| <= |s|
  {
    if s == [] then []
    else if s[0] == p then RemoveMove(s[1..], p)
    else [s[0]] + RemoveMove(s[1..], p)
  }

  lemma {:induction false} MovesAfterPlay(b: seq<Cell>, position: int, m: Mark, n: nat)
    requires |b| == Slots && IsPlayable(b, position) && n <= Slots
    ensures MovesBelow(b[position := Marked(m)], n) == RemoveMove(MovesBelow(b, n), position)
  {
    if n > 0 {
      var b' := b[position := Marked(m)];
      MovesAfterPlay(b, position, m, n - 1);
      var last := if IsPlayable(b, n - 1) then [n - 1] else [];
      var last' := if IsPlayable(b', n - 1) then [n - 1] else [];
      LastAfterPlay(b, position, m, n - 1);
      RemoveAppended(MovesBelow(b, n), MovesBelow(b', n), MovesBelow(b, n - 1), MovesBelow(b', n - 1),
        last, last', position);
    }
  }

  /** The last candidate slot before and after the write. */
  lemma LastAfterPlay(b: seq<Cell>, position: int, m: Mark, q: int)
    requires |b| == Slots && IsPlayable(b, position)
    ensures RemoveMove(if IsPlayable(b, q) then [q] else [], position) ==
            (if IsPlayable(b[position := Marked(m)], q) then [q] else [])
  {
    if IsPlayable(b, q) {
      assert [q][1..] == [];
    }
  }

  /** Removing a position from a concatenation, stated on named pieces. */
  lemma RemoveAppended(s: seq<int>, s': seq<int>, u: seq<int>, u': seq<int>, t: seq<int>, t': seq<int>, p: int)
    requires s == u + t && s' == u' + t'
    requires u' == RemoveMove(u, p) && t' == RemoveMove(t, p)
    ensures s' == RemoveMove(s, p)
  {
    RemoveMoveAppend(u, t, p);
  }

  /** Removing a position distributes over concatenation. */
  lemma {:induction false} RemoveMoveAppend(s: seq<int>, t: seq<int>, p: int)
    ensures RemoveMove(s + t, p) == RemoveMove(s, p) + RemoveMove(t, p)
  {
    if s != [] {
      assert (s + t)[1..] == s[1..] + t;
      RemoveMoveAppend(s[1..], t, p);
    } else {
      assert s + t == t;
    }
  }

  /**
   * The game board. `board` and `currentPlayer` are the source's fields; the
   * ghost fields `starter` and `plays` record the starting mark and the
   * number of effective plays, so that the turn-taking rule can be stated as
   * an invariant.
   */
  class TicTacToe {
    var board: seq<Cell>
    var currentPlayer: Mark
    ghost var starter: Mark
    ghost var plays: nat

    /**
     * The board keeps its ten slots, slot 0 always holds a mark, and the
     * turn is the starter's exactly after an even number of plays.
     */
    ghost predicate Valid()
      reads this
    {
      && |board| == Slots
      && board[0] != Empty
      && currentPlayer == (if plays % 2 == 0 then starter else Other(starter))
    }

    constructor (starterMark: Mark)
      ensures Valid()
      ensures board == NewBoard(starterMark) && currentPlayer == starterMark
      ensures starter == starterMark && plays == 0
    {
      board := NewBoard(starterMark);
      currentPlayer := starterMark;
      starter := starterMark;
      plays := 0;
    }

    /**
     * It is mark's turn. In a valid game that is the starter after an even
     * number of plays and the other mark after an odd number.
     */
    predicate IsTurn(mark: Mark)
      reads this
      ensures Valid() ==> (IsTurn(mark) <==> (mark == starter <==> plays % 2 == 0))
    {
      currentPlayer == mark
    }

    /**
     * Places mark at position when it is mark's turn, then hands the turn to
     * the other mark; does nothing when it is not mark's turn. Neither the
     * range 1..9 nor the emptiness of the cell is checked: any valid list
     * index is written (a negative one counts from the end).
     */
    method Play(position: int, mark: Mark)
      requires Valid()
      requires -Slots <= position < Slots
      modifies this
      ensures Valid() && starter == old(starter)
      ensures old(currentPlayer) == mark ==>
        && board == old(board)[(if position < 0 then position + Slots else position) := Marked(mark)]
        && currentPlayer == Other(mark)
        && plays == old(plays) + 1
      ensures old(currentPlayer) != mark ==>
        board == old(board) && currentPlayer == old(currentPlayer) && plays == old(plays)
    {
      if currentPlayer == mark {
        var index := if position < 0 then position + Slots else position;
        board := board[index := Marked(mark)];
        SwapMark();
        plays := plays + 1;
      }
    }

    /** Hands the turn to the other mark. */
    method SwapMark()
      modifies this
      ensures currentPlayer == Other(old(currentPlayer))
      ensures board == old(board) && starter == old(starter) && plays == old(plays)
    {
      currentPlayer := if currentPlayer == X then O else X;
    }

    /**
     * For each start position, checks whether mark holds every slot
     * `start + offset`; reports whether some start position succeeded.
     * The per-start verdicts are kept in a dictionary, as in the source.
     */
    method TestSequentialWin(mark: Mark, positions: seq<int>, offsets: seq<int>) returns (won: bool)
      requires Valid()
      requires forall i, j :: 0 <= i < |positions| && 0 <= j < |offsets| ==>
                 0 <= positions[i] + offsets[j] < Slots
      ensures won == SequentialWin(board, mark, positions, offsets)
    {
      var b := board;
      var sStatus: map<int, bool> := map[];
      for i := 0 to |positions|
        invariant forall p :: p in sStatus ==> p in positions
        invariant forall k :: 0 <= k < i ==> positions[k] in sStatus
        invariant forall p :: p in sStatus ==> (sStatus[p] <==> StartWins(b, mark, p, offsets))
      {
        var position := positions[i];
        sStatus := sStatus[position := true];
        for j := 0 to |offsets|
          invariant position in sStatus
          invariant forall p :: p in sStatus ==> p in positions
          invariant forall k :: 0 <= k < i ==> positions[k] in sStatus
          invariant sStatus[position] <==>
            forall j' :: 0 <= j' < j ==> b[position + offsets[j']] == Marked(mark)
          invariant forall p :: p in sStatus && p != position ==>
            (sStatus[p] <==> StartWins(b, mark, p, offsets))
        {
          if b[position + offsets[j]] != Marked(mark) {
            sStatus := sStatus[position := false];
          }
        }
      }
      won := exists p | p in sStatus :: sStatus[p];
      StatusVerdict(b, mark, positions, offsets, sStatus);
    }

    /**
     * Mark has won: tested as the columns, the rows and the two diagonals
     * written as start positions plus offsets. These are exactly the eight
     * winning triples.
     */
    method IsWinner(mark: Mark) returns (w: bool)
      requires Valid()
      ensures w == Wins(board, mark)
    {
      var vWin := TestSequentialWin(mark, [1, 2, 3], [0, 3, 6]);
      var hWin := TestSequentialWin(mark, [1, 4, 7], [0, 1, 2]);
      var dWin := TestSequentialWin(mark, [5], [-2, 0, 2]);
      var dWin2 := TestSequentialWin(mark, [5], [-4, 0, 4]);
      dWin := dWin2 || dWin;
      w := dWin || vWin || hWin;
      SequentialWinsAreWinningSets(board, mark);
      WinsAsDisjunction(board, mark);
    }

    /** Either mark has won. */
    method HasWinner() returns (r: bool)
      requires Valid()
      ensures r == SomeoneWins(board)
    {
      r := IsWinner(X);
      if !r {
        r := IsWinner(O);
      }
    }

    /** The game goes on: nobody has won and the board is not full. */
    method CanPlay() returns (r: bool)
      requires Valid()
      ensures r == (!SomeoneWins(board) && !Draw(board))
      ensures r ==> Moves(board) != []
    {
      var won := HasWinner();
      r := !won && !Draw(board);
      DrawIffNoMoves(board);
    }
  }

  /** Mark m holds every slot `start + offset`. */
  predicate StartWins(b: seq<Cell>, m: Mark, start: int, offsets: seq<int>)
  {
    forall j :: 0 <= j < |offsets| ==> 0 <= start + offsets[j] < |b| && b[start + offsets[j]] == Marked(m)
  }

  /** For some start position, mark m holds every slot `start + offset`. */
  predicate SequentialWin(b: seq<Cell>, m: Mark, positions: seq<int>, offsets: seq<int>)
  {
    exists i :: 0 <= i < |positions| && StartWins(b, m, positions[i], offsets)
  }

  /**
   * A dictionary from exactly the start positions to their verdicts holds a
   * `true` verdict iff some start position wins. (`true in d.values()` of
   * the source is written as a quantifier over the keys.)
   */
  lemma StatusVerdict(b: seq<Cell>, m: Mark, positions: seq<int>, offsets: seq<int>, sStatus: map<int, bool>)
    requires forall p :: p in sStatus ==> p in positions
    requires forall k :: 0 <= k < |positions| ==> positions[k] in sStatus
    requires forall p :: p in sStatus ==> (sStatus[p] <==> StartWins(b, m, p, offsets))
    ensures (exists p | p in sStatus :: sStatus[p]) == SequentialWin(b, m, positions, offsets)
  {
    if exists p | p in sStatus :: sStatus[p] {
      var p :| p in sStatus && sStatus[p];
      assert p in positions;
    }
  }

  /** `Wins` written out line by line. */
  lemma WinsAsDisjunction(b: seq<Cell>, m: Mark)
    requires |b| == Slots
    ensures Wins(b, m) <==>
      || LineFilled(b, WinningSets[0], m) || LineFilled(b, WinningSets[1], m)
      || LineFilled(b, WinningSets[2], m) || LineFilled(b, WinningSets[3], m)
      || LineFilled(b, WinningSets[4], m) || LineFilled(b, WinningSets[5], m)
      || LineFilled(b, WinningSets[6], m) || LineFilled(b, WinningSets[7], m)
  {
    WinningSetsInRange();
    if Wins(b, m) {
      var k :| 0 <= k < |WinningSets| && LineFilled(b, WinningSets[k], m);
      assert k in {0, 1, 2, 3, 4, 5, 6, 7};
    }
  }

  /**
   * The start positions and offsets tested for a win (columns, rows, the
   * two diagonals) cover exactly the eight winning triples.
   */
  lemma WinningSetsValues()
    ensures WinningSets[0] == [1, 2, 3] && WinningSets[1] == [4, 5, 6] && WinningSets[2] == [7, 8, 9]
    ensures WinningSets[3] == [1, 4, 7] && WinningSets[4] == [2, 5, 8] && WinningSets[5] == [3, 6, 9]
    ensures WinningSets[6] == [1, 5, 9] && WinningSets[7] == [3, 5, 7]
  {
  }

  /** A filled triple [p, q, r], written cell by cell. */
  lemma LineFilledThree(b: seq<Cell>, m: Mark, p: int, q: int, r: int)
    requires 0 <= p < |b| && 0 <= q < |b| && 0 <= r < |b|
    ensures LineFilled(b, [p, q, r], m) <==> b[p] == Marked(m) && b[q] == Marked(m) && b[r] == Marked(m)
  {
    if b[p] == Marked(m) && b[q] == Marked(m) && b[r] == Marked(m) {
      forall j | 0 <= j < 3 ensures b[[p, q, r][j]] == Marked(m) {
        assert j == 0 || j == 1 || j == 2;
      }
    } else {
      assert !(b[[p, q, r][0]] == Marked(m) && b[[p, q, r][1]] == Marked(m) && b[[p, q, r][2]] == Marked(m));
    }
  }

  /** A start-plus-offsets test with three offsets, written cell by cell. */
  lemma StartWinsThree(b: seq<Cell>, m: Mark, start: int, u: int, v: int, w: int)
    requires 0 <= start + u < |b| && 0 <= start + v < |b| && 0 <= start + w < |b|
    ensures StartWins(b, m, start, [u, v, w]) <==>
      b[start + u] == Marked(m) && b[start + v] == Marked(m) && b[start + w] == Marked(m)
  {
    if b[start + u] == Marked(m) && b[start + v] == Marked(m) && b[start + w] == Marked(m) {
      forall j | 0 <= j < 3 ensures b[start + [u, v, w][j]] == Marked(m) {
        assert j == 0 || j == 1 || j == 2;
      }
    } else {
      var o := [u, v, w];
      assert !(b[start + o[0]] == Marked(m) && b[start + o[1]] == Marked(m) && b[start + o[2]] == Marked(m));
    }
  }

  lemma SequentialWinsAreWinningSets(b: seq<Cell>, m: Mark)
    requires |b| == Slots
    ensures SequentialWin(b, m, [1, 2, 3], [0, 3, 6]) <==>
      LineFilled(b, WinningSets[3], m) || LineFilled(b, WinningSets[4], m) || LineFilled(b, WinningSets[5], m)
    ensures SequentialWin(b, m, [1, 4, 7], [0, 1, 2]) <==>
      LineFilled(b, WinningSets[0], m) || LineFilled(b, WinningSets[1], m) || LineFilled(b, WinningSets[2], m)
    ensures SequentialWin(b, m, [5], [-2, 0, 2]) <==> LineFilled(b, WinningSets[7], m)
    ensures SequentialWin(b, m, [5], [-4, 0, 4]) <==> LineFilled(b, WinningSets[6], m)
  {
    ColumnWins(b, m);
    RowWins(b, m);
    DiagonalWin(b, m, 7, 3, 7, -2, 2);
    DiagonalWin(b, m, 6, 1, 9, -4, 4);
  }

  /** The vertical test: start positions 1, 2, 3 with offsets 0, 3, 6. */
  lemma ColumnWins(b: seq<Cell>, m: Mark)
    requires |b| == Slots
    ensures SequentialWin(b, m, [1, 2, 3], [0, 3, 6]) <==>
      LineFilled(b, WinningSets[3], m) || LineFilled(b, WinningSets[4], m) || LineFilled(b, WinningSets[5], m)
  {
    WinningSetsValues();
    LineFilledThree(b, m, 1, 4, 7); LineFilledThree(b, m, 2, 5, 8); LineFilledThree(b, m, 3, 6, 9);
    StartWinsThree(b, m, 1, 0, 3, 6); StartWinsThree(b, m, 2, 0, 3, 6); StartWinsThree(b, m, 3, 0, 3, 6);
    ThreeStarts(b, m, 1, 2, 3, [0, 3, 6]);
  }

  /** The horizontal test: start positions 1, 4, 7 with offsets 0, 1, 2. */
  lemma RowWins(b: seq<Cell>, m: Mark)
    requires |b| == Slots
    ensures SequentialWin(b, m, [1, 4, 7], [0, 1, 2]) <==>
      LineFilled(b, WinningSets[0], m) || LineFilled(b, WinningSets[1], m) || LineFilled(b, WinningSets[2], m)
  {
    WinningSetsValues();
    LineFilledThree(b, m, 1, 2, 3); LineFilledThree(b, m, 4, 5, 6); LineFilledThree(b, m, 7, 8, 9);
    StartWinsThree(b, m, 1, 0, 1, 2); StartWinsThree(b, m, 4, 0, 1, 2); StartWinsThree(b, m, 7, 0, 1, 2);
    ThreeStarts(b, m, 1, 4, 7, [0, 1, 2]);
  }

  /** A diagonal test: start position 5 with offsets -o, 0, o is winning set k, [lo, 5, hi]. */
  lemma DiagonalWin(b: seq<Cell>, m: Mark, k: nat, lo: int, hi: int, neg: int, pos: int)
    requires |b| == Slots && k < 8
    requires WinningSets[k] == [lo, 5, hi] && lo == 5 + neg && hi == 5 + pos && 1 <= lo && hi <= 9
    ensures SequentialWin(b, m, [5], [neg, 0, pos]) <==> LineFilled(b, WinningSets[k], m)
  {
    LineFilledThree(b, m, lo, 5, hi);
    StartWinsThree(b, m, 5, neg, 0, pos);
    assert SequentialWin(b, m, [5], [neg, 0, pos]) <==> StartWins(b, m, 5, [neg, 0, pos]) by {
      assert [5][0] == 5;
    }
  }

  /** A test over three start positions is the disjunction of the three starts. */
  lemma ThreeStarts(b: seq<Cell>, m: Mark, s0: int, s1: int, s2: int, offsets: seq<int>)
    ensures SequentialWin(b, m, [s0, s1, s2], offsets) <==>
      StartWins(b, m, s0, offsets) || StartWins(b, m, s1, offsets) || StartWins(b, m, s2, offsets)
  {
    var ps := [s0, s1, s2];
    if SequentialWin(b, m, ps, offsets) {
      var i :| 0 <= i < 3 && StartWins(b, m, ps[i], offsets);
      assert i == 0 || i == 1 || i == 2;
    }
    if StartWins(b, m, s0, offsets) { assert StartWins(b, m, ps[0], offsets); }
    if StartWins(b, m, s1, offsets) { assert StartWins(b, m, ps[1], offsets); }
    if StartWins(b, m, s2, offsets) { assert StartWins(b, m, ps[2], offsets); }
  }
}
