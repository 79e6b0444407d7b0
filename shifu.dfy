/**
 * The heuristic move selector ("Shifu"). For every open cell it computes an
 * offence weight (how many still-winnable lines run through the cell, and how
 * far the selector has advanced on them) and a defence weight (how far the
 * opponent has advanced on the lines through the cell), multiplies them, and
 * plays one of the cells of maximal combined weight.
 *
 * The weights are stated as pure functions of the board; the selector's
 * methods build the same dictionaries with the loops of the original and are
 * proved equal to them.
 */
module Shifu {
  import opened Board

  /** The defence multiplier, an exact rational here. */
  const DefIncrement: real := 5.373

  /** The offence increment per own mark on a line. */
  const BestIncrement: int := 1

  /** What the selector's `play` returns: True, False, or (falling off the end) None. */
  datatype PlayResult =
    | Moved       // True: a cell was chosen and played
    | NoOpenCell  // False: no cell is open
    | Declined    // None: a cell was chosen but it was not the selector's turn

  /** All positions of the line are board slots. */
  predicate InRange(b: seq<Cell>, line: seq<int>)
  {
    forall j :: 0 <= j < |line| ==> 0 <= line[j] < |b|
  }

  /** Number of positions of the line that are slots holding mark m. */
  function Count(b: seq<Cell>, line: seq<int>, m: Mark): (n: nat)
    ensures n <= |line|
  {
    if line == [] then 0
    else
      var last := line[|line| - 1];
      Count(b, line[..|line| - 1], m) + (if 0 <= last < |b| && b[last] == Marked(m) then 1 else 0)
  }

  /** Some position of the line holds mark m. */
  predicate Touches(b: seq<Cell>, line: seq<int>, m: Mark)
    requires InRange(b, line)
  {
    exists j :: 0 <= j < |line| && b[line[j]] == Marked(m)
  }

  /** x raised to the n-th power. */
  function Pow(x: real, n: nat): (r: real)
    ensures x > 0.0 ==> r > 0.0
    ensures x >= 1.0 ==> r >= 1.0
  {
    if n == 0 then 1.0 else Pow(x, n - 1) * x
  }

  /**
   * What the winning set k adds to the offence weight of cell p: nothing if
   * p is not on it or the opponent holds a cell of it, else one plus `inc`
   * per cell of it that the selector holds.
   */
  function OffenceGain(b: seq<Cell>, p: int, shifu: Mark, inc: int, k: nat): (r: int)
    requires |b| == Slots && k < 8
  {
    WinningSetsInRange();
    var line := WinningSets[k];
    if p in line && !Touches(b, line, Other(shifu)) then 1 + inc * Count(b, line, shifu) else 0
  }

  /** The offence gains of cell p from the first k winning sets. */
  function OffenceSum(b: seq<Cell>, p: int, shifu: Mark, inc: int, k: nat): (r: int)
    requires |b| == Slots && k <= 8
    ensures inc >= 0 ==> r >= 0
  {
    if k == 0 then 0 else OffenceSum(b, p, shifu, inc, k - 1) + OffenceGain(b, p, shifu, inc, k - 1)
  }

  /**
   * The offence weights: for each open cell, 1 plus the gains of the eight
   * winning sets.
   */
  function Offence(b: seq<Cell>, shifu: Mark, inc: int): (r: map<int, int>)
    requires |b| == Slots
    ensures forall p :: p in r <==> p in Moves(b)
    ensures inc >= 0 ==> forall p :: p in r ==> r[p] >= 1
  {
    map p | p in Moves(b) :: 1 + OffenceSum(b, p, shifu, inc, 8)
  }

  /**
   * What the winning set k adds to the defence weight of cell p: nothing if
   * p is not on it or the opponent holds none of its cells, else `d` to the
   * power of the number of cells of it the opponent holds.
   */
  function DefenceGain(b: seq<Cell>, p: int, opp: Mark, d: real, k: nat): (r: real)
    requires |b| == Slots && k < 8
  {
    WinningSetsInRange();
    var line := WinningSets[k];
    if p in line && Touches(b, line, opp) then Pow(d, Count(b, line, opp)) else 0.0
  }

  /** The defence gains of cell p from the first k winning sets. */
  function DefenceSum(b: seq<Cell>, p: int, opp: Mark, d: real, k: nat): (r: real)
    requires |b| == Slots && k <= 8
    ensures d > 0.0 ==> r >= 0.0
  {
    if k == 0 then 0.0 else DefenceSum(b, p, opp, d, k - 1) + DefenceGain(b, p, opp, d, k - 1)
  }

  /**
   * The defence weights: for each open cell, 1 plus the gains of the eight
   * winning sets against the selector's opponent.
   */
  function Defence(b: seq<Cell>, shifu: Mark, d: real): (r: map<int, real>)
    requires |b| == Slots
    ensures forall p :: p in r <==> p in Moves(b)
    ensures d > 0.0 ==> forall p :: p in r ==> r[p] >= 1.0
  {
    map p | p in Moves(b) :: 1.0 + DefenceSum(b, p, Other(shifu), d, 8)
  }

  /** The combined weight of a cell: its offence weight times its defence weight. */
  function Weight(best: int, def: real): (r: real)
  {
    best as real * def
  }

  /** Entry-by-entry product of an offence and a defence dictionary. */
  function Multiply(best: map<int, int>, def: map<int, real>): (r: map<int, real>)
    requires best.Keys <= def.Keys
  {
    map p | p in best :: Weight(best[p], def[p])
  }

  /** The combined weight of each open cell: offence times defence. */
  function Combined(b: seq<Cell>, shifu: Mark, inc: int, d: real): (r: map<int, real>)
    requires |b| == Slots
    ensures forall p :: p in r <==> p in Moves(b)
  {
    Multiply(Offence(b, shifu, inc), Defence(b, shifu, d))
  }

  /** One entry of the product; stated as a lemma so callers need not unfold the map comprehension. */
  lemma MultiplyAt(best: map<int, int>, def: map<int, real>, p: int)
    requires best.Keys <= def.Keys && p in best
    ensures p in Multiply(best, def) && Multiply(best, def)[p] == Weight(best[p], def[p])
  {
  }

  /** One entry of the offence map, unfolded once here so the callers' proofs stay small. */
  lemma OffenceAt(b: seq<Cell>, shifu: Mark, inc: int, p: int)
    requires |b| == Slots && p in Moves(b)
    ensures p in Offence(b, shifu, inc) && Offence(b, shifu, inc)[p] == 1 + OffenceSum(b, p, shifu, inc, 8)
  {
  }

  /** One entry of the defence map, unfolded once here so the callers' proofs stay small. */
  lemma DefenceAt(b: seq<Cell>, shifu: Mark, d: real, p: int)
    requires |b| == Slots && p in Moves(b)
    ensures p in Defence(b, shifu, d) && Defence(b, shifu, d)[p] == 1.0 + DefenceSum(b, p, Other(shifu), d, 8)
  {
  }

  /** The combined weight of an open cell is its offence weight times its defence weight. */
  lemma CombinedAt(b: seq<Cell>, shifu: Mark, inc: int, d: real, p: int)
    requires |b| == Slots && p in Moves(b)
    ensures p in Combined(b, shifu, inc, d)
    ensures Combined(b, shifu, inc, d)[p] == Weight(Offence(b, shifu, inc)[p], Defence(b, shifu, d)[p])
  {
    var best, def := Offence(b, shifu, inc), Defence(b, shifu, d);
    assert best.Keys <= def.Keys;
    MultiplyAt(best, def, p);
  }

  /** A dictionary with the keys of best and the products as values is their product. */
  lemma MultiplyExtensional(best: map<int, int>, def: map<int, real>, h: map<int, real>)
    requires best.Keys <= def.Keys
    requires h.Keys == best.Keys && forall p :: p in h ==> h[p] == Weight(best[p], def[p])
    ensures h == Multiply(best, def)
  {
    var m := Multiply(best, def);
    assert h.Keys == m.Keys;
    forall p | p in h
      ensures h[p] == m[p]
    {
    }
  }

  /** Every combined weight is at least 1. */
  lemma CombinedAtLeastOne(b: seq<Cell>, shifu: Mark, inc: int, d: real)
    requires |b| == Slots && inc >= 0 && d > 0.0
    ensures forall p :: p in Combined(b, shifu, inc, d) ==> Combined(b, shifu, inc, d)[p] >= 1.0
  {
    forall p | p in Combined(b, shifu, inc, d)
      ensures Combined(b, shifu, inc, d)[p] >= 1.0
    {
      CombinedAt(b, shifu, inc, d, p);
      WeightAtLeastOne(Offence(b, shifu, inc)[p], Defence(b, shifu, d)[p]);
    }
  }

  /** Both factors at least one: the product is at least one (kept apart so no product enters the callers' context). */
  lemma WeightAtLeastOne(best: int, def: real)
    requires best >= 1 && def >= 1.0
    ensures Weight(best, def) >= 1.0
  {
    ProductAtLeastOne(best as real, def);
  }

  /** The real-arithmetic fact behind WeightAtLeastOne. */
  lemma ProductAtLeastOne(x: real, y: real)
    requires x >= 1.0 && y >= 1.0
    ensures x * y >= 1.0
  {
    assert x * y - y == (x - 1.0) * y;
    assert (x - 1.0) * y >= 0.0;
  }

  /** top is a key of s whose value is maximal over s. */
  predicate IsMaxKey<K>(h: map<K, real>, s: set<K>, top: K)
    requires s <= h.Keys
  {
    top in s && forall q :: q in s ==> h[q] <= h[top]
  }

  /** The open cells whose combined weight is maximal. */
  function BestCells(b: seq<Cell>, shifu: Mark, inc: int, d: real): (r: set<int>)
    requires |b| == Slots
    ensures forall p :: p in r ==> IsPlayable(b, p)
  {
    var h := Combined(b, shifu, inc, d);
    set p | p in h && IsMaxKey(h, h.Keys, p)
  }

  /** Some cell is of maximal weight exactly when some cell is open. */
  lemma BestCellsNonEmpty(b: seq<Cell>, shifu: Mark, inc: int, d: real)
    requires |b| == Slots
    ensures BestCells(b, shifu, inc, d) == {} <==> Moves(b) == []
  {
    if Moves(b) != [] {
      var h := Combined(b, shifu, inc, d);
      assert Moves(b)[0] in h;
      MaxExists(h, h.Keys);
      var top :| IsMaxKey(h, h.Keys, top);
      assert top in BestCells(b, shifu, inc, d);
    }
  }

  /** Every non-empty set of keys has one of maximal value. */
  lemma MaxExists<K>(h: map<K, real>, s: set<K>)
    requires s != {} && s <= h.Keys
    ensures exists top :: IsMaxKey(h, s, top)
    decreases s
  {
    var k :| k in s;
    var rest := s - {k};
    if rest == {} {
      assert IsMaxKey(h, s, k) by {
        forall q | q in s ensures h[q] <= h[k] { assert q == k || q in rest; }
      }
    } else {
      MaxExists(h, rest);
      var t :| IsMaxKey(h, rest, t);
      var top := if h[k] > h[t] then k else t;
      assert IsMaxKey(h, s, top) by {
        forall q | q in s ensures h[q] <= h[top] { assert q == k || q in rest; }
      }
    }
  }

  /**
   * A key of maximal value, as the builtin `max(d, key=d.get)` returns it.
   * Which of several maximal keys is found is not modelled.
   */
  method ArgMax(h: map<int, real>) returns (top: int)
    requires |h| > 0
    ensures top in h && forall k :: k in h ==> h[k] <= h[top]
  {
    var keys := h.Keys;
    top := Choice(keys);
    keys := keys - {top};
    while keys != {}
      invariant keys <= h.Keys && top in h
      invariant forall k :: k in h && k !in keys ==> h[k] <= h[top]
      decreases keys
    {
      var k := Choice(keys);
      if h[k] > h[top] {
        top := k;
      }
      keys := keys - {k};
    }
  }

  /** The selector: its mark, the opponent's mark, the winning sets and the weight constants. */
  class TicTacToeShifu {
    const shifuMark: Mark
    const oppMark: Mark := Other(shifuMark)
    const winningSets: seq<seq<int>> := WinningSets
    const defIncrement: real := DefIncrement
    const bestIncrement: int := BestIncrement

    constructor (shifuMark: Mark)
      ensures this.shifuMark == shifuMark && oppMark == Other(shifuMark)
    {
      this.shifuMark := shifuMark;
    }

    /** The opponent holds a cell of the winning set. */
    method IsOppWinning(b: seq<Cell>, winningSet: seq<int>) returns (r: bool)
      requires |b| == Slots && InRange(b, winningSet)
      ensures r == Touches(b, winningSet, oppMark)
    {
      for j := 0 to |winningSet|
        invariant forall j' :: 0 <= j' < j ==> b[winningSet[j']] != Marked(oppMark)
      {
        if b[winningSet[j]] == Marked(oppMark) {
          return true;
        }
      }
      return false;
    }

    /** The winning set can still be won: the opponent holds none of its cells. */
    method IsPossibleWin(b: seq<Cell>, winningSet: seq<int>) returns (r: bool)
      requires |b| == Slots && InRange(b, winningSet)
      ensures r == !Touches(b, winningSet, oppMark)
    {
      for j := 0 to |winningSet|
        invariant forall j' :: 0 <= j' < j ==> b[winningSet[j']] != Marked(oppMark)
      {
        if b[winningSet[j]] == Marked(oppMark) {
          return false;
        }
      }
      return true;
    }

    /**
     * Adds, to each entry of the dictionary on the winning set, one plus the
     * offence increment per selector mark on the set (once per occurrence
     * of the position in the set).
     */
    method IncrementHeuristics(b: seq<Cell>, dict: map<int, int>, winningSet: seq<int>)
      returns (tempDict: map<int, int>)
      requires |b| == Slots
      ensures AddedAlong(dict, tempDict, winningSet, 1 + bestIncrement * Count(b, winningSet, shifuMark))
    {
      var currPos := Positions(b, shifuMark);
      var incrementVal := 1;
      for j := 0 to |winningSet|
        invariant incrementVal == 1 + bestIncrement * Count(b, winningSet[..j], shifuMark)
      {
        CountExtend(b, winningSet, j, shifuMark);
        if winningSet[j] in currPos {
          incrementVal := incrementVal + bestIncrement;
        }
      }
      assert winningSet[..|winningSet|] == winningSet;
      tempDict := dict;
      assert winningSet[..0] == [];
      for j := 0 to |winningSet|
        invariant AddedAlong(dict, tempDict, winningSet[..j], incrementVal)
      {
        AddedAlongStep(dict, tempDict, winningSet, j, incrementVal);
        if winningSet[j] in tempDict.Keys {
          tempDict := tempDict[winningSet[j] := tempDict[winningSet[j]] + incrementVal];
        }
      }
    }

    /**
     * Adds, to each entry of the dictionary on the winning set, the defence
     * multiplier to the power of the number of opponent marks on the set
     * (once per occurrence of the position in the set).
     */
    method IncrementDefenceMul(b: seq<Cell>, posDict: map<int, real>, winningSet: seq<int>)
      returns (hDict: map<int, real>)
      requires |b| == Slots
      ensures AddedAlongReal(posDict, hDict, winningSet, Pow(defIncrement, Count(b, winningSet, oppMark)))
    {
      hDict := posDict;
      var currPos := Positions(b, oppMark);
      var incrementVal := 1.0;
      for j := 0 to |winningSet|
        invariant incrementVal == Pow(defIncrement, Count(b, winningSet[..j], oppMark))
      {
        CountExtend(b, winningSet, j, oppMark);
        if winningSet[j] in currPos {
          incrementVal := incrementVal * defIncrement;
        }
      }
      assert winningSet[..|winningSet|] == winningSet;
      assert winningSet[..0] == [];
      for j := 0 to |winningSet|
        invariant AddedAlongReal(posDict, hDict, winningSet[..j], incrementVal)
      {
        AddedAlongRealStep(posDict, hDict, winningSet, j, incrementVal);
        if winningSet[j] in hDict.Keys {
          hDict := hDict[winningSet[j] := hDict[winningSet[j]] + incrementVal];
        }
      }
    }

    /** One pass of the offence loop: raises the cells of winning set k if it is still winnable. */
    method OffenceRound(board: seq<Cell>, hVals: map<int, int>, k: nat) returns (hVals': map<int, int>)
      requires |board| == Slots && k < 8 && OffenceAfter(board, shifuMark, bestIncrement, hVals, k)
      ensures OffenceAfter(board, shifuMark, bestIncrement, hVals', k + 1)
    {
      WinningSetsInRange();
      var line := winningSets[k];
      assert line == WinningSets[k];
      var possible := IsPossibleWin(board, line);
      if possible {
        hVals' := IncrementHeuristics(board, hVals, line);
        OffenceStepOpen(board, shifuMark, bestIncrement, hVals, hVals', k,
          1 + bestIncrement * Count(board, line, shifuMark));
      } else {
        hVals' := hVals;
        OffenceStepBlocked(board, shifuMark, bestIncrement, hVals, k);
      }
    }

    /** One pass of the defence loop: raises the cells of winning set k if the opponent is on it. */
    method DefenceRound(board: seq<Cell>, hMuls: map<int, real>, k: nat) returns (hMuls': map<int, real>)
      requires |board| == Slots && k < 8 && DefenceAfter(board, shifuMark, defIncrement, hMuls, k)
      ensures DefenceAfter(board, shifuMark, defIncrement, hMuls', k + 1)
    {
      WinningSetsInRange();
      var line := winningSets[k];
      assert line == WinningSets[k];
      var winning := IsOppWinning(board, line);
      if winning {
        hMuls' := IncrementDefenceMul(board, hMuls, line);
        DefenceStepTouched(board, shifuMark, defIncrement, hMuls, hMuls', k,
          Pow(defIncrement, Count(board, line, oppMark)));
      } else {
        hMuls' := hMuls;
        DefenceStepUntouched(board, shifuMark, defIncrement, hMuls, k);
      }
    }

    /** The offence weights of the game's open cells. */
    method GetBestMoves(game: TicTacToe) returns (hVals: map<int, int>)
      requires game.Valid()
      ensures hVals == Offence(game.board, shifuMark, bestIncrement)
    {
      var board := game.board;
      hVals := Uniform(Moves(board), 1);
      OffenceStart(board, shifuMark, bestIncrement, hVals);
      WinningSetsInRange();
      for k := 0 to |winningSets|
        invariant OffenceAfter(board, shifuMark, bestIncrement, hVals, k)
      {
        hVals := OffenceRound(board, hVals, k);
      }
      OffenceComplete(board, shifuMark, bestIncrement, hVals);
    }

    /** The defence weights of the game's open cells. */
    method GetDefenceMoves(game: TicTacToe) returns (hMuls: map<int, real>)
      requires game.Valid()
      ensures hMuls == Defence(game.board, shifuMark, defIncrement)
    {
      var board := game.board;
      hMuls := Uniform(Moves(board), 1.0);
      DefenceStart(board, shifuMark, defIncrement, hMuls);
      WinningSetsInRange();
      for k := 0 to |winningSets|
        invariant DefenceAfter(board, shifuMark, defIncrement, hMuls, k)
      {
        hMuls := DefenceRound(board, hMuls, k);
      }
      DefenceComplete(board, shifuMark, defIncrement, hMuls);
    }

    /**
     * Plays one move for the selector: multiplies the offence and defence
     * weights, keeps the cells of maximal product, picks any one of them and
     * plays it if it is playable and it is the selector's turn.
     */
    method Play(game: TicTacToe) returns (result: PlayResult)
      requires game.Valid()
      modifies game
      ensures game.Valid() && game.starter == old(game.starter)
      ensures result == NoOpenCell <==> Moves(old(game.board)) == []
      ensures result == NoOpenCell <==> Draw(old(game.board))
      ensures result == Moved <==> Moves(old(game.board)) != [] && old(game.currentPlayer) == shifuMark
      ensures result != Moved ==>
        game.board == old(game.board) && game.currentPlayer == old(game.currentPlayer) && game.plays == old(game.plays)
      ensures result == Moved ==>
        && (exists p :: p in BestCells(old(game.board), shifuMark, bestIncrement, defIncrement)
                     && game.board == old(game.board)[p := Marked(shifuMark)])
        && game.currentPlayer == oppMark
        && game.plays == old(game.plays) + 1
        && forall i :: 0 <= i < Slots && old(game.board)[i] != Empty ==> game.board[i] == old(game.board)[i]
    {
      DrawIffNoMoves(game.board);
      var hBest := GetBestMoves(game);
      var hDef := GetDefenceMoves(game);
      var heuristics := MultiplyWeights(hBest, hDef);
      assert game.Valid();
      assert Moves(game.board) != [] ==> Moves(game.board)[0] in heuristics;

      var hTop: int;
      if |heuristics| > 0 {
        var top := ArgMax(heuristics);
        var maxHeuristics := AtLeast(heuristics, heuristics[top]);
        assert top in maxHeuristics;
        hTop := Choice(maxHeuristics.Keys);
        assert IsMaxKey(heuristics, heuristics.Keys, hTop);
      } else if |Moves(game.board)| > 0 {
        // The keys of `heuristics` are exactly the open cells, so the
        // random fallback over all open cells is never reached.
        assert false;
      } else {
        return NoOpenCell;
      }

      if IsPlayable(game.board, hTop) && game.IsTurn(shifuMark) {
        ghost var before := game.board;
        assert hTop in BestCells(before, shifuMark, bestIncrement, defIncrement);
        PlayableWriteKeepsOccupied(before, hTop, shifuMark);
        game.Play(hTop, shifuMark);
        assert game.board == before[hTop := Marked(shifuMark)];
        return Moved;
      }
      return Declined;
    }
  }

  /**
   * A selector that starts a fresh game plays the centre: its first call to
   * `Play` returns `Moved` and leaves its mark in cell 5 and nowhere else.
   */
  method OpeningMove(shifuMark: Mark) returns (game: TicTacToe, result: PlayResult)
    ensures game.Valid() && result == Moved
    ensures game.board == NewBoard(shifuMark)[5 := Marked(shifuMark)]
    ensures game.currentPlayer == Other(shifuMark)
  {
    game := new TicTacToe(shifuMark);
    var shifu := new TicTacToeShifu(shifuMark);
    ghost var b := game.board;
    EmptyBoardBestIsCentre(b, shifuMark, BestIncrement, DefIncrement);
    assert IsPlayable(b, 1);
    result := shifu.Play(game);
  }

  /** h holds, for each open cell, one plus its offence gains from the first k winning sets. */
  ghost predicate OffenceAfter(b: seq<Cell>, shifu: Mark, inc: int, h: map<int, int>, k: nat)
    requires |b| == Slots && k <= 8
  {
    (forall p :: p in h <==> p in Moves(b))
    && forall p :: p in h ==> h[p] == 1 + OffenceSum(b, p, shifu, inc, k)
  }

  /** Before the first winning set every open cell has weight 1. */
  lemma OffenceStart(b: seq<Cell>, shifu: Mark, inc: int, h: map<int, int>)
    requires |b| == Slots
    requires forall p :: p in h <==> p in Moves(b)
    requires forall p :: p in h ==> h[p] == 1
    ensures OffenceAfter(b, shifu, inc, h, 0)
  {
  }

  /** One round of the offence loop on a set the opponent is not on: its cells are raised. */
  lemma OffenceStepOpen(b: seq<Cell>, shifu: Mark, inc: int, h: map<int, int>, h': map<int, int>, k: nat, v: int)
    requires |b| == Slots && k < 8 && OffenceAfter(b, shifu, inc, h, k)
    requires InRange(b, WinningSets[k]) && !Touches(b, WinningSets[k], Other(shifu))
    requires v == 1 + inc * Count(b, WinningSets[k], shifu)
    requires AddedAlong(h, h', WinningSets[k], v)
    ensures OffenceAfter(b, shifu, inc, h', k + 1)
  {
    forall p | p in h'
      ensures h'[p] == 1 + OffenceSum(b, p, shifu, inc, k + 1)
    {
      SingleOccurrence(k, p);
      TimesUnit(multiset(WinningSets[k])[p], v);
    }
  }

  /** One round of the offence loop on a set the opponent is on: nothing changes. */
  lemma OffenceStepBlocked(b: seq<Cell>, shifu: Mark, inc: int, h: map<int, int>, k: nat)
    requires |b| == Slots && k < 8 && OffenceAfter(b, shifu, inc, h, k)
    requires InRange(b, WinningSets[k]) && Touches(b, WinningSets[k], Other(shifu))
    ensures OffenceAfter(b, shifu, inc, h, k + 1)
  {
    forall p | p in h
      ensures h[p] == 1 + OffenceSum(b, p, shifu, inc, k + 1)
    {
      assert OffenceGain(b, p, shifu, inc, k) == 0;
    }
  }

  /** After all eight winning sets the dictionary is the offence map. */
  lemma OffenceComplete(b: seq<Cell>, shifu: Mark, inc: int, h: map<int, int>)
    requires |b| == Slots && OffenceAfter(b, shifu, inc, h, 8)
    ensures h == Offence(b, shifu, inc)
  {
  }

  /** h holds, for each open cell, one plus its defence gains from the first k winning sets. */
  ghost predicate DefenceAfter(b: seq<Cell>, shifu: Mark, d: real, h: map<int, real>, k: nat)
    requires |b| == Slots && k <= 8
  {
    (forall p :: p in h <==> p in Moves(b))
    && forall p :: p in h ==> h[p] == 1.0 + DefenceSum(b, p, Other(shifu), d, k)
  }

  /** Before the first winning set every open cell has weight 1. */
  lemma DefenceStart(b: seq<Cell>, shifu: Mark, d: real, h: map<int, real>)
    requires |b| == Slots
    requires forall p :: p in h <==> p in Moves(b)
    requires forall p :: p in h ==> h[p] == 1.0
    ensures DefenceAfter(b, shifu, d, h, 0)
  {
  }

  /** One round of the defence loop on a set the opponent is on: its cells are raised. */
  lemma DefenceStepTouched(b: seq<Cell>, shifu: Mark, d: real, h: map<int, real>, h': map<int, real>, k: nat, v: real)
    requires |b| == Slots && k < 8 && DefenceAfter(b, shifu, d, h, k)
    requires InRange(b, WinningSets[k]) && Touches(b, WinningSets[k], Other(shifu))
    requires v == Pow(d, Count(b, WinningSets[k], Other(shifu)))
    requires AddedAlongReal(h, h', WinningSets[k], v)
    ensures DefenceAfter(b, shifu, d, h', k + 1)
  {
    forall p | p in h'
      ensures h'[p] == 1.0 + DefenceSum(b, p, Other(shifu), d, k + 1)
    {
      DefenceTouchedAt(b, Other(shifu), d, h[p], h'[p], k, p, v);
    }
  }

  /** One round of the defence loop on a set the opponent is not on: nothing changes. */
  lemma DefenceStepUntouched(b: seq<Cell>, shifu: Mark, d: real, h: map<int, real>, k: nat)
    requires |b| == Slots && k < 8 && DefenceAfter(b, shifu, d, h, k)
    requires InRange(b, WinningSets[k]) && !Touches(b, WinningSets[k], Other(shifu))
    ensures DefenceAfter(b, shifu, d, h, k + 1)
  {
    forall p | p in h
      ensures h[p] == 1.0 + DefenceSum(b, p, Other(shifu), d, k + 1)
    {
      DefenceUntouchedAt(b, Other(shifu), d, k, p);
    }
  }

  /** An entry on a set the opponent touches grows by the set's gain. */
  lemma DefenceTouchedAt(b: seq<Cell>, opp: Mark, d: real, w: real, w': real, k: nat, p: int, v: real)
    requires |b| == Slots && k < 8 && InRange(b, WinningSets[k]) && Touches(b, WinningSets[k], opp)
    requires v == Pow(d, Count(b, WinningSets[k], opp))
    requires w == 1.0 + DefenceSum(b, p, opp, d, k)
    requires w' == w + Scaled(multiset(WinningSets[k])[p], v)
    ensures w' == 1.0 + DefenceSum(b, p, opp, d, k + 1)
  {
    SingleOccurrence(k, p);
    var g := DefenceGain(b, p, opp, d, k);
    assert DefenceSum(b, p, opp, d, k + 1) == DefenceSum(b, p, opp, d, k) + g;
    if p in WinningSets[k] {
      ScaledUnit(multiset(WinningSets[k])[p], v);
      assert g == v;
    } else {
      ScaledUnit(multiset(WinningSets[k])[p], v);
      assert g == 0.0;
    }
  }

  /** A set the opponent does not touch adds nothing to the defence sum. */
  lemma DefenceUntouchedAt(b: seq<Cell>, opp: Mark, d: real, k: nat, p: int)
    requires |b| == Slots && k < 8 && InRange(b, WinningSets[k]) && !Touches(b, WinningSets[k], opp)
    ensures DefenceSum(b, p, opp, d, k + 1) == DefenceSum(b, p, opp, d, k)
  {
    assert DefenceGain(b, p, opp, d, k) == 0.0;
  }

  /** After all eight winning sets the dictionary is the defence map. */
  lemma DefenceComplete(b: seq<Cell>, shifu: Mark, d: real, h: map<int, real>)
    requires |b| == Slots && DefenceAfter(b, shifu, d, h, 8)
    ensures h == Defence(b, shifu, d)
  {
  }

  /** The opponent holds a cell of a line exactly when it holds at least one of its positions. */
  lemma {:induction false} TouchesIffCount(b: seq<Cell>, line: seq<int>, m: Mark)
    requires InRange(b, line)
    ensures Touches(b, line, m) <==> Count(b, line, m) > 0
  {
    if line != [] {
      var init := line[..|line| - 1];
      assert InRange(b, init);
      TouchesIffCount(b, init, m);
      if Touches(b, line, m) {
        var j :| 0 <= j < |line| && b[line[j]] == Marked(m);
        if j < |init| {
          assert init[j] == line[j];
        }
      }
      if Touches(b, init, m) {
        var j :| 0 <= j < |init| && b[init[j]] == Marked(m);
        assert line[j] == init[j];
      }
      if b[line[|line| - 1]] == Marked(m) {
        assert Touches(b, line, m);
      }
    }
  }

  /** A board on which no cell 1..9 holds mark m. */
  predicate Untouched(b: seq<Cell>, m: Mark)
    requires |b| == Slots
  {
    forall p :: 1 <= p <= 9 ==> b[p] != Marked(m)
  }

  lemma {:induction false} DefenceSumWithoutOpponent(b: seq<Cell>, p: int, opp: Mark, d: real, k: nat)
    requires |b| == Slots && k <= 8 && Untouched(b, opp)
    ensures DefenceSum(b, p, opp, d, k) == 0.0
  {
    if k > 0 {
      DefenceSumWithoutOpponent(b, p, opp, d, k - 1);
      WinningSetsInRange();
      assert !Touches(b, WinningSets[k - 1], opp);
    }
  }

  /** While the opponent holds no cell, every defence weight is 1. */
  lemma DefenceWithoutOpponent(b: seq<Cell>, shifu: Mark, d: real)
    requires |b| == Slots && Untouched(b, Other(shifu))
    ensures forall p :: p in Defence(b, shifu, d) ==> Defence(b, shifu, d)[p] == 1.0
  {
    forall p | p in Defence(b, shifu, d)
      ensures Defence(b, shifu, d)[p] == 1.0
    {
      DefenceSumWithoutOpponent(b, p, Other(shifu), d, 8);
    }
  }

  /** Number of the first k winning sets that run through cell p. */
  function LinesThrough(p: int, k: nat): (r: nat)
    requires k <= 8
  {
    WinningSetsInRange();
    if k == 0 then 0 else LinesThrough(p, k - 1) + (if p in WinningSets[k - 1] then 1 else 0)
  }

  /** On a board with no mark in 1..9, the offence gain of a cell is the number of lines through it. */
  lemma {:induction false} OffenceSumOnEmpty(b: seq<Cell>, p: int, shifu: Mark, inc: int, k: nat)
    requires |b| == Slots && k <= 8 && Untouched(b, X) && Untouched(b, O)
    ensures OffenceSum(b, p, shifu, inc, k) == LinesThrough(p, k)
  {
    if k > 0 {
      OffenceSumOnEmpty(b, p, shifu, inc, k - 1);
      OffenceGainOnEmpty(b, p, shifu, inc, k - 1);
    }
  }

  /** On a board with no mark in 1..9, a winning set adds one to each of its cells. */
  lemma OffenceGainOnEmpty(b: seq<Cell>, p: int, shifu: Mark, inc: int, k: nat)
    requires |b| == Slots && k < 8 && Untouched(b, X) && Untouched(b, O)
    ensures OffenceGain(b, p, shifu, inc, k) == if p in WinningSets[k] then 1 else 0
  {
    WinningSetsInRange();
    var line := WinningSets[k];
    assert !Touches(b, line, Other(shifu));
    assert !Touches(b, line, shifu);
    TouchesIffCount(b, line, shifu);
    var c := Count(b, line, shifu);
    assert c == 0;
    assert inc * c == 0;
  }

  /**
   * On an empty board the offence weights are 1 plus the number of lines
   * through the cell: 5 for the centre, 4 for the corners, 3 for the edges.
   */
  lemma OffenceOnEmptyBoard(b: seq<Cell>, shifu: Mark, inc: int)
    requires |b| == Slots && Untouched(b, X) && Untouched(b, O)
    ensures forall p :: p in Offence(b, shifu, inc) <==> 1 <= p <= 9 && b[p] == Empty
    ensures forall p :: p in Offence(b, shifu, inc) ==>
      Offence(b, shifu, inc)[p] == if p == 5 then 5 else if p % 2 == 1 then 4 else 3
  {
    forall p | p in Offence(b, shifu, inc)
      ensures Offence(b, shifu, inc)[p] == if p == 5 then 5 else if p % 2 == 1 then 4 else 3
    {
      OffenceSumOnEmpty(b, p, shifu, inc, 8);
      LinesThroughCell(p);
    }
  }

  /** The centre lies on four lines, a corner on three, an edge on two. */
  lemma LinesThroughCell(p: int)
    requires 1 <= p <= 9
    ensures LinesThrough(p, 8) == if p == 5 then 4 else if p % 2 == 1 then 3 else 2
  {
    LinesThroughExpanded(p);
    assert p % 2 == 1 <==> p == 1 || p == 3 || p == 5 || p == 7 || p == 9;
  }

  /** LinesThrough over all eight sets, one membership test per set. */
  lemma LinesThroughExpanded(p: int)
    ensures LinesThrough(p, 8) ==
      (if p == 1 || p == 2 || p == 3 then 1 else 0) + (if p == 4 || p == 5 || p == 6 then 1 else 0) +
      (if p == 7 || p == 8 || p == 9 then 1 else 0) + (if p == 1 || p == 4 || p == 7 then 1 else 0) +
      (if p == 2 || p == 5 || p == 8 then 1 else 0) + (if p == 3 || p == 6 || p == 9 then 1 else 0) +
      (if p == 1 || p == 5 || p == 9 then 1 else 0) + (if p == 3 || p == 5 || p == 7 then 1 else 0)
  {
    WinningSetsValues();
    LinesThroughStep(p, 0, 1, 2, 3);
    LinesThroughStep(p, 1, 4, 5, 6);
    LinesThroughStep(p, 2, 7, 8, 9);
    LinesThroughStep(p, 3, 1, 4, 7);
    LinesThroughStep(p, 4, 2, 5, 8);
    LinesThroughStep(p, 5, 3, 6, 9);
    LinesThroughStep(p, 6, 1, 5, 9);
    LinesThroughStep(p, 7, 3, 5, 7);
  }

  /** Counting one more winning set, the triple [x, y, z]. */
  lemma LinesThroughStep(p: int, k: nat, x: int, y: int, z: int)
    requires k < 8 && WinningSets[k] == [x, y, z]
    ensures LinesThrough(p, k + 1) == LinesThrough(p, k) + (if p == x || p == y || p == z then 1 else 0)
  {
    assert p in [x, y, z] <==> p == x || p == y || p == z;
  }

  /** On an empty board the combined weight of a cell is its offence weight. */
  lemma EmptyBoardCombined(b: seq<Cell>, shifu: Mark, inc: int, d: real, p: int)
    requires |b| == Slots && Untouched(b, X) && Untouched(b, O) && p in Moves(b)
    ensures p in Combined(b, shifu, inc, d)
    ensures Combined(b, shifu, inc, d)[p] == Weight(1 + (if p == 5 then 4 else if p % 2 == 1 then 3 else 2), 1.0 + 0.0)
  {
    OffenceSumOnEmpty(b, p, shifu, inc, 8);
    LinesThroughCell(p);
    DefenceSumWithoutOpponent(b, p, Other(shifu), d, 8);
    CombinedValue(b, shifu, inc, d, p, 1 + (if p == 5 then 4 else if p % 2 == 1 then 3 else 2), 1.0 + 0.0);
  }

  /**
   * On an empty board the centre is the only cell of maximal combined
   * weight, whatever the selector's mark and the multipliers.
   */
  lemma EmptyBoardBestIsCentre(b: seq<Cell>, shifu: Mark, inc: int, d: real)
    requires |b| == Slots && Untouched(b, X) && Untouched(b, O)
    ensures BestCells(b, shifu, inc, d) == {5}
  {
    var c := Combined(b, shifu, inc, d);
    assert IsPlayable(b, 5);
    EmptyBoardCombined(b, shifu, inc, d, 5);
    forall p | p in c
      ensures p == 5 || c[p] < c[5]
    {
      EmptyBoardCombined(b, shifu, inc, d, p);
    }
    assert IsMaxKey(c, c.Keys, 5);
    forall p | p in BestCells(b, shifu, inc, d)
      ensures p == 5
    {
      assert c[p] >= c[5];
    }
  }

  /** The offence sum written out as the gains of the eight winning sets. */
  lemma OffenceSumExpanded(b: seq<Cell>, p: int, shifu: Mark, inc: int)
    requires |b| == Slots
    ensures OffenceSum(b, p, shifu, inc, 8) ==
      OffenceGain(b, p, shifu, inc, 0) + OffenceGain(b, p, shifu, inc, 1) + OffenceGain(b, p, shifu, inc, 2)
      + OffenceGain(b, p, shifu, inc, 3) + OffenceGain(b, p, shifu, inc, 4) + OffenceGain(b, p, shifu, inc, 5)
      + OffenceGain(b, p, shifu, inc, 6) + OffenceGain(b, p, shifu, inc, 7)
  {
    assert OffenceSum(b, p, shifu, inc, 1) == OffenceGain(b, p, shifu, inc, 0);
    assert OffenceSum(b, p, shifu, inc, 2) == OffenceGain(b, p, shifu, inc, 0) + OffenceGain(b, p, shifu, inc, 1);
    assert OffenceSum(b, p, shifu, inc, 4) == OffenceSum(b, p, shifu, inc, 2)
      + OffenceGain(b, p, shifu, inc, 2) + OffenceGain(b, p, shifu, inc, 3);
    assert OffenceSum(b, p, shifu, inc, 6) == OffenceSum(b, p, shifu, inc, 4)
      + OffenceGain(b, p, shifu, inc, 4) + OffenceGain(b, p, shifu, inc, 5);
  }

  /** The defence sum written out as the gains of the eight winning sets. */
  lemma DefenceSumExpanded(b: seq<Cell>, p: int, opp: Mark, d: real)
    requires |b| == Slots
    ensures DefenceSum(b, p, opp, d, 8) ==
      DefenceGain(b, p, opp, d, 0) + DefenceGain(b, p, opp, d, 1) + DefenceGain(b, p, opp, d, 2)
      + DefenceGain(b, p, opp, d, 3) + DefenceGain(b, p, opp, d, 4) + DefenceGain(b, p, opp, d, 5)
      + DefenceGain(b, p, opp, d, 6) + DefenceGain(b, p, opp, d, 7)
  {
    assert DefenceSum(b, p, opp, d, 1) == DefenceGain(b, p, opp, d, 0);
    assert DefenceSum(b, p, opp, d, 2) == DefenceGain(b, p, opp, d, 0) + DefenceGain(b, p, opp, d, 1);
    assert DefenceSum(b, p, opp, d, 4) == DefenceSum(b, p, opp, d, 2)
      + DefenceGain(b, p, opp, d, 2) + DefenceGain(b, p, opp, d, 3);
    assert DefenceSum(b, p, opp, d, 6) == DefenceSum(b, p, opp, d, 4)
      + DefenceGain(b, p, opp, d, 4) + DefenceGain(b, p, opp, d, 5);
  }

  /** The combined weight of an open cell in terms of its offence and defence sums. */
  lemma CombinedValue(b: seq<Cell>, shifu: Mark, inc: int, d: real, p: int, best: int, def: real)
    requires |b| == Slots && p in Moves(b)
    requires 1 + OffenceSum(b, p, shifu, inc, 8) == best && 1.0 + DefenceSum(b, p, Other(shifu), d, 8) == def
    ensures p in Combined(b, shifu, inc, d)
    ensures Combined(b, shifu, inc, d)[p] == Weight(best, def)
  {
    OffenceAt(b, shifu, inc, p);
    DefenceAt(b, shifu, d, p);
    CombinedAt(b, shifu, inc, d, p);
    WeightOf(Offence(b, shifu, inc)[p], Defence(b, shifu, d)[p], best, def);
  }

  /** Congruence of Weight: lets a caller rewrite its arguments without the solver expanding the product. */
  lemma WeightOf(best: int, def: real, best': int, def': real)
    requires best == best' && def == def'
    ensures Weight(best, def) == Weight(best', def')
  {
  }

  /** 1 if slot p holds mark m, else 0. */
  function Holds(b: seq<Cell>, p: int, m: Mark): (r: nat)
  {
    if 0 <= p < |b| && b[p] == Marked(m) then 1 else 0
  }

  lemma CountThree(b: seq<Cell>, p: int, q: int, r: int, m: Mark)
    ensures Count(b, [p, q, r], m) == Holds(b, p, m) + Holds(b, q, m) + Holds(b, r, m)
  {
    assert [p, q, r][..2] == [p, q];
    assert [p, q][..1] == [p];
    assert [p][..0] == [];
    assert Count(b, [p], m) == Holds(b, p, m);
    assert Count(b, [p, q], m) == Holds(b, p, m) + Holds(b, q, m);
  }

  /**
   * The position after X (who started) took 1 and 2 and O took the centre:
   * X threatens to complete the top row at 3.
   */
  predicate IsBlockBoard(b: seq<Cell>)
  {
    && |b| == Slots
    && b[0] == Marked(X) && b[1] == Marked(X) && b[2] == Marked(X) && b[5] == Marked(O)
    && b[3] == Empty && b[4] == Empty && b[6] == Empty && b[7] == Empty && b[8] == Empty && b[9] == Empty
  }

  /** The open cells of the scenario board. */
  lemma BlockMoves(b: seq<Cell>)
    requires IsBlockBoard(b)
    ensures forall p :: p in Moves(b) <==> (p == 3 || p == 4 || p == 6 || p == 7 || p == 8 || p == 9)
  {
    forall p ensures p in Moves(b) <==> (p == 3 || p == 4 || p == 6 || p == 7 || p == 8 || p == 9) {
      assert IsPlayable(b, p) <==> (p == 3 || p == 4 || p == 6 || p == 7 || p == 8 || p == 9);
    }
  }

  /** How many cells of each winning set X and O hold on the scenario board. */
  lemma BlockFacts(b: seq<Cell>)
    requires IsBlockBoard(b)
    ensures forall k :: 0 <= k < 8 ==> InRange(b, WinningSets[k])
    ensures forall k, m :: 0 <= k < 8 ==>
      (Touches(b, WinningSets[k], m) <==> Count(b, WinningSets[k], m) > 0)
    ensures Count(b, WinningSets[0], X) == 2 && Count(b, WinningSets[0], O) == 0
    ensures Count(b, WinningSets[1], X) == 0 && Count(b, WinningSets[1], O) == 1
    ensures Count(b, WinningSets[2], X) == 0 && Count(b, WinningSets[2], O) == 0
    ensures Count(b, WinningSets[3], X) == 1 && Count(b, WinningSets[3], O) == 0
    ensures Count(b, WinningSets[4], X) == 1 && Count(b, WinningSets[4], O) == 1
    ensures Count(b, WinningSets[5], X) == 0 && Count(b, WinningSets[5], O) == 0
    ensures Count(b, WinningSets[6], X) == 1 && Count(b, WinningSets[6], O) == 1
    ensures Count(b, WinningSets[7], X) == 0 && Count(b, WinningSets[7], O) == 1
    ensures WinningSets[0] == [1, 2, 3] && WinningSets[1] == [4, 5, 6] && WinningSets[2] == [7, 8, 9]
    ensures WinningSets[3] == [1, 4, 7] && WinningSets[4] == [2, 5, 8] && WinningSets[5] == [3, 6, 9]
    ensures WinningSets[6] == [1, 5, 9] && WinningSets[7] == [3, 5, 7]
  {
    WinningSetsValues();
    WinningSetsInRange();
    forall k, m | 0 <= k < 8
      ensures Count(b, WinningSets[k], m) ==
        Holds(b, WinningSets[k][0], m) + Holds(b, WinningSets[k][1], m) + Holds(b, WinningSets[k][2], m)
    {
      var line := WinningSets[k];
      assert line == [line[0], line[1], line[2]];
      CountThree(b, line[0], line[1], line[2], m);
    }
    forall k, m | 0 <= k < 8
      ensures Touches(b, WinningSets[k], m) <==> Count(b, WinningSets[k], m) > 0
    {
      TouchesIffCount(b, WinningSets[k], m);
    }
  }

  /** What each winning set adds to the offence weights on the scenario board, selector O. */
  lemma BlockOffenceGains(b: seq<Cell>, p: int)
    requires IsBlockBoard(b)
    ensures OffenceGain(b, p, O, 1, 0) == 0
    ensures OffenceGain(b, p, O, 1, 1) == if (p == 4 || p == 5 || p == 6) then 2 else 0
    ensures OffenceGain(b, p, O, 1, 2) == if (p == 7 || p == 8 || p == 9) then 1 else 0
    ensures OffenceGain(b, p, O, 1, 3) == 0
    ensures OffenceGain(b, p, O, 1, 4) == 0
    ensures OffenceGain(b, p, O, 1, 5) == if (p == 3 || p == 6 || p == 9) then 1 else 0
    ensures OffenceGain(b, p, O, 1, 6) == 0
    ensures OffenceGain(b, p, O, 1, 7) == if (p == 3 || p == 5 || p == 7) then 2 else 0
  {
    BlockFacts(b);
  }

  /** What each winning set adds to the defence weights on the scenario board, opponent X. */
  lemma BlockDefenceGains(b: seq<Cell>, p: int, d: real)
    requires IsBlockBoard(b)
    ensures DefenceGain(b, p, X, d, 0) == if (p == 1 || p == 2 || p == 3) then d * d else 0.0
    ensures DefenceGain(b, p, X, d, 1) == 0.0
    ensures DefenceGain(b, p, X, d, 2) == 0.0
    ensures DefenceGain(b, p, X, d, 3) == if (p == 1 || p == 4 || p == 7) then d else 0.0
    ensures DefenceGain(b, p, X, d, 4) == if (p == 2 || p == 5 || p == 8) then d else 0.0
    ensures DefenceGain(b, p, X, d, 5) == 0.0
    ensures DefenceGain(b, p, X, d, 6) == if (p == 1 || p == 5 || p == 9) then d else 0.0
    ensures DefenceGain(b, p, X, d, 7) == 0.0
  {
    BlockFacts(b);
    assert Pow(d, 1) == d;
    assert Pow(d, 2) == d * d;
  }

  /** The offence sums on the scenario board for the selector playing O. */
  lemma BlockOffence(b: seq<Cell>, p: int)
    requires IsBlockBoard(b) && (p == 3 || p == 4 || p == 6 || p == 7 || p == 8 || p == 9)
    ensures OffenceSum(b, p, O, 1, 8) == (if (p == 4 || p == 9) then 2 else if (p == 3 || p == 6 || p == 7) then 3 else 1)
  {
    OffenceSumExpanded(b, p, O, 1);
    BlockOffenceGains(b, p);
  }

  /** The defence sums on the scenario board for the selector playing O. */
  lemma BlockDefence(b: seq<Cell>, p: int, d: real)
    requires IsBlockBoard(b) && (p == 3 || p == 4 || p == 6 || p == 7 || p == 8 || p == 9)
    ensures DefenceSum(b, p, X, d, 8) == (if p == 3 then d * d else if p == 6 then 0.0 else d)
  {
    DefenceSumExpanded(b, p, X, d);
    BlockDefenceGains(b, p, d);
  }

  /**
   * The combined weights on the scenario board, selector O: cell 3 gets
   * 4 * (1 + d*d); cell 6 gets 4; cells 4, 7, 8 and 9 get 3, 4, 2 and 3
   * times (1 + d).
   */
  lemma BlockCombined(b: seq<Cell>, d: real, p: int)
    requires IsBlockBoard(b) && (p == 3 || p == 4 || p == 6 || p == 7 || p == 8 || p == 9)
    ensures p in Combined(b, O, 1, d)
    ensures p == 3 ==> Combined(b, O, 1, d)[p] == Weight(4, 1.0 + d * d)
    ensures p == 6 ==> Combined(b, O, 1, d)[p] == Weight(4, 1.0)
    ensures p == 7 ==> Combined(b, O, 1, d)[p] == Weight(4, 1.0 + d)
    ensures (p == 4 || p == 9) ==> Combined(b, O, 1, d)[p] == Weight(3, 1.0 + d)
    ensures p == 8 ==> Combined(b, O, 1, d)[p] == Weight(2, 1.0 + d)
  {
    BlockMoves(b);
    BlockOffence(b, p);
    BlockDefence(b, p, d);
    if p == 3 {
      CombinedValue(b, O, 1, d, p, 4, 1.0 + d * d);
    } else if p == 6 {
      CombinedValue(b, O, 1, d, p, 4, 1.0);
    } else if p == 7 {
      CombinedValue(b, O, 1, d, p, 4, 1.0 + d);
    } else if p == 8 {
      CombinedValue(b, O, 1, d, p, 2, 1.0 + d);
    } else {
      CombinedValue(b, O, 1, d, p, 3, 1.0 + d);
    }
  }

  /** On the scenario board every open cell other than 3 weighs less than 3. */
  lemma BlockBelowBest(b: seq<Cell>, p: int)
    requires IsBlockBoard(b) && (p == 3 || p == 4 || p == 6 || p == 7 || p == 8 || p == 9)
    ensures 3 in Combined(b, O, 1, DefIncrement) && p in Combined(b, O, 1, DefIncrement)
    ensures p == 3 || Combined(b, O, 1, DefIncrement)[p] < Combined(b, O, 1, DefIncrement)[3]
  {
    var d := DefIncrement;
    BlockCombined(b, d, 3);
    BlockCombined(b, d, p);
    if p == 6 {
      WeightsBelow(4, 1.0, 4, 1.0 + d * d);
    } else if p == 7 {
      WeightsBelow(4, 1.0 + d, 4, 1.0 + d * d);
    } else if p == 4 || p == 9 {
      WeightsBelow(3, 1.0 + d, 4, 1.0 + d * d);
    } else if p == 8 {
      WeightsBelow(2, 1.0 + d, 4, 1.0 + d * d);
    }
  }

  /** A smaller offence weight and a smaller defence weight give a smaller product. */
  lemma WeightsBelow(best: int, def: real, best': int, def': real)
    requires 0 < best <= best' && 0.0 < def < def'
    ensures Weight(best, def) < Weight(best', def')
  {
    ScaleLeft(best as real, best' as real, def);
    ScaleRight(best' as real, def, def');
  }

  /** Monotonicity in the left factor, kept apart from the scenario proofs that use it. */
  lemma ScaleLeft(a: real, a': real, c: real)
    requires 0.0 <= a <= a' && 0.0 <= c
    ensures a * c <= a' * c
  {
    assert a' * c - a * c == (a' - a) * c;
  }

  /** Monotonicity in the right factor, kept apart from the scenario proofs that use it. */
  lemma ScaleRight(a: real, c: real, c': real)
    requires 0.0 < a && c < c'
    ensures a * c < a * c'
  {
    assert a * c' - a * c == a * (c' - c);
  }

  /**
   * On the scenario board the selector playing O has a single best cell, 3,
   * the one that blocks X's top row.
   */
  lemma BlockScenarioBestIsBlock(b: seq<Cell>)
    requires IsBlockBoard(b)
    ensures BestCells(b, O, BestIncrement, DefIncrement) == {3}
  {
    BlockMoves(b);
    var c := Combined(b, O, 1, DefIncrement);
    BlockCombined(b, DefIncrement, 3);
    forall p | p in c
      ensures p == 3 || c[p] < c[3]
    {
      BlockBelowBest(b, p);
    }
    assert IsMaxKey(c, c.Keys, 3);
    forall p | p in BestCells(b, O, 1, DefIncrement)
      ensures p == 3
    {
      assert c[p] >= c[3];
    }
  }

  /** result adds v to each entry of dict once per occurrence of its key in line. */
  predicate AddedAlong(dict: map<int, int>, result: map<int, int>, line: seq<int>, v: int)
  {
    result.Keys == dict.Keys && forall p :: p in dict ==> result[p] == dict[p] + Times(multiset(line)[p], v)
  }

  /** `AddedAlong` for dictionaries of reals. */
  predicate AddedAlongReal(dict: map<int, real>, result: map<int, real>, line: seq<int>, v: real)
  {
    result.Keys == dict.Keys && forall p :: p in dict ==> result[p] == dict[p] + Scaled(multiset(line)[p], v)
  }

  lemma AddedAlongStep(dict: map<int, int>, t: map<int, int>, line: seq<int>, j: nat, v: int)
    requires j < |line| && AddedAlong(dict, t, line[..j], v)
    ensures AddedAlong(dict, if line[j] in t then t[line[j] := t[line[j]] + v] else t, line[..j + 1], v)
  {
    var t' := if line[j] in t then t[line[j] := t[line[j]] + v] else t;
    forall p | p in dict
      ensures t'[p] == dict[p] + Times(multiset(line[..j + 1])[p], v)
    {
      AddedAt(dict, t, line, j, v, p);
    }
  }

  lemma AddedAt(dict: map<int, int>, t: map<int, int>, line: seq<int>, j: nat, v: int, p: int)
    requires j < |line| && AddedAlong(dict, t, line[..j], v) && p in dict
    ensures var t' := if line[j] in t then t[line[j] := t[line[j]] + v] else t;
      t'[p] == dict[p] + Times(multiset(line[..j + 1])[p], v)
  {
    assert line[..j + 1] == line[..j] + [line[j]];
    var c := multiset(line[..j])[p];
    var c' := multiset(line[..j + 1])[p];
    assert t[p] == dict[p] + Times(c, v);
    if p == line[j] {
      assert c' == c + 1;
      SuccTimesInt(c, v);
    } else {
      assert c' == c;
    }
  }

  lemma AddedAlongRealStep(dict: map<int, real>, t: map<int, real>, line: seq<int>, j: nat, v: real)
    requires j < |line| && AddedAlongReal(dict, t, line[..j], v)
    ensures AddedAlongReal(dict, if line[j] in t then t[line[j] := t[line[j]] + v] else t, line[..j + 1], v)
  {
    var t' := if line[j] in t then t[line[j] := t[line[j]] + v] else t;
    forall p | p in dict
      ensures t'[p] == dict[p] + Scaled(multiset(line[..j + 1])[p], v)
    {
      AddedRealAt(dict, t, line, j, v, p);
    }
  }

  /** One entry of `AddedAlongRealStep`. */
  lemma AddedRealAt(dict: map<int, real>, t: map<int, real>, line: seq<int>, j: nat, v: real, p: int)
    requires j < |line| && AddedAlongReal(dict, t, line[..j], v) && p in dict
    ensures var t' := if line[j] in t then t[line[j] := t[line[j]] + v] else t;
      t'[p] == dict[p] + Scaled(multiset(line[..j + 1])[p], v)
  {
    assert line[..j + 1] == line[..j] + [line[j]];
    var c := multiset(line[..j])[p];
    var c' := multiset(line[..j + 1])[p];
    assert t[p] == dict[p] + Scaled(c, v);
    if p == line[j] {
      assert c' == c + 1;
      SuccTimes(c, v);
    } else {
      assert c' == c;
    }
  }

  /** v taken n times. */
  /** n copies of v; a function so that the product stays out of the loop proofs. */
  function Times(n: nat, v: int): (r: int)
  {
    n * v
  }

  /** Scaling by a count of one or zero. */
  lemma TimesUnit(n: nat, v: int)
    requires n <= 1
    ensures Times(n, v) == if n == 1 then v else 0
  {
  }

  /** One more occurrence adds one more v. */
  lemma SuccTimesInt(c: nat, v: int)
    ensures Times(c + 1, v) == Times(c, v) + v
  {
  }

  function Scaled(n: nat, v: real): (r: real)
  {
    n as real * v
  }

  /** Scaling by a count of one or zero; keeps the product out of the loop proofs. */
  lemma ScaledUnit(n: nat, v: real)
    requires n <= 1
    ensures Scaled(n, v) == if n == 1 then v else 0.0
  {
  }

  /** One more occurrence adds one more v; keeps the product out of the loop proofs. */
  lemma SuccTimes(c: nat, v: real)
    ensures Scaled(c + 1, v) == Scaled(c, v) + v
  {
  }

  /** Counting one more position of the line. */
  lemma CountExtend(b: seq<Cell>, line: seq<int>, j: nat, m: Mark)
    requires |b| == Slots && j < |line|
    ensures Count(b, line[..j + 1], m) == Count(b, line[..j], m) + (if line[j] in Positions(b, m) then 1 else 0)
  {
    assert line[..j + 1][..j] == line[..j];
  }

  /** A winning set holds each position at most once. */
  lemma SingleOccurrence(k: nat, p: int)
    requires k < 8
    ensures |WinningSets| == 8
    ensures multiset(WinningSets[k])[p] == if p in WinningSets[k] then 1 else 0
  {
    WinningSetsValues();
    var line := WinningSets[k];
    assert |line| == 3 && line[0] < line[1] < line[2] by {
      assert k in {0, 1, 2, 3, 4, 5, 6, 7};
    }
    assert line == [line[0], line[1], line[2]];
    DistinctThree(line[0], line[1], line[2], p);
  }

  /** Each of three distinct positions occurs once in their multiset. */
  lemma DistinctThree(a: int, b: int, c: int, p: int)
    requires a != b && b != c && a != c
    ensures multiset([a, b, c])[p] == if p in [a, b, c] then 1 else 0
  {
    assert multiset([a, b, c]) == multiset{a} + multiset{b} + multiset{c};
  }

  /** A dictionary giving every position of the list the same initial value. */
  method Uniform<V>(positions: seq<int>, v: V) returns (h: map<int, V>)
    ensures forall p :: p in h <==> p in positions
    ensures forall p :: p in h ==> h[p] == v
  {
    h := map[];
    for i := 0 to |positions|
      invariant forall p :: p in h <==> p in positions[..i]
      invariant forall p :: p in h ==> h[p] == v
    {
      h := h[positions[i] := v];
    }
    assert positions[..|positions|] == positions;
  }

  /** The products of the offence and the defence weight of each cell. */
  method MultiplyWeights(hBest: map<int, int>, hDef: map<int, real>) returns (heuristics: map<int, real>)
    requires hBest.Keys <= hDef.Keys
    ensures heuristics == Multiply(hBest, hDef)
  {
    heuristics := map[];
    var keys := hBest.Keys;
    while keys != {}
      invariant keys <= hBest.Keys
      invariant forall p :: p in heuristics <==> p in hBest && p !in keys
      invariant forall p :: p in heuristics ==> heuristics[p] == Weight(hBest[p], hDef[p])
      decreases keys
    {
      var key := Choice(keys);
      heuristics := heuristics[key := Weight(hBest[key], hDef[key])];
      keys := keys - {key};
    }
    assert forall p :: p in heuristics <==> p in hBest;
    assert heuristics.Keys == hBest.Keys;
    MultiplyExtensional(hBest, hDef, heuristics);
  }

  /** The entries of the dictionary whose value is at least hMax. */
  method AtLeast(heuristics: map<int, real>, hMax: real) returns (maxHeuristics: map<int, real>)
    ensures forall p :: p in maxHeuristics <==> p in heuristics && heuristics[p] >= hMax
    ensures forall p :: p in maxHeuristics ==> maxHeuristics[p] == heuristics[p]
  {
    maxHeuristics := map[];
    var keys := heuristics.Keys;
    while keys != {}
      invariant keys <= heuristics.Keys
      invariant forall p :: p in maxHeuristics <==> p in heuristics && p !in keys && heuristics[p] >= hMax
      invariant forall p :: p in maxHeuristics ==> maxHeuristics[p] == heuristics[p]
      decreases keys
    {
      var key := Choice(keys);
      if heuristics[key] >= hMax {
        maxHeuristics := maxHeuristics[key := heuristics[key]];
      }
      keys := keys - {key};
    }
  }

  /** Picks any element of a non-empty set: `random.choice`, and the visiting order of a dictionary. */
  method Choice<T>(s: set<T>) returns (x: T)
    requires s != {}
    ensures x in s
  {
    x :| x in s;
  }
}
