# Tic Tac Toe board and the Shifu heuristic player

This project models the game logic of `TicTacToe.py`, a console Tic Tac Toe
game whose computer opponent is called Shifu. It has two parts.

- **The board** (module `Board`, class `Board.TicTacToe`).
  - The board has ten slots. Slot 0 records the mark that started the game; slots 1..9 are the cells, row by row.
  - A `currentPlayer` field records whose turn it is.
  - The queries on open cells, occupied positions and a full board are functions on the board's value.
  - The winner and game-over queries (`IsWinner`, `HasWinner`, `CanPlay`) are methods of the class, and `TestSequentialWin` keeps the source's loops. Their contracts are stated with the value-level `Wins`, `SomeoneWins` and `Draw`.
  - `Play` is the one mutator. It writes a mark when it is that mark's turn, then swaps the turn.
  - The class carries ghost fields `starter` and `plays`. Its invariant `Valid` says the turn is the starter's exactly after an even number of effective plays.
- **The Shifu selector** (module `Shifu`, class `Shifu.TicTacToeShifu`).
  - Every open cell gets an integer offence weight. It is the sum, over winning lines through the cell that the opponent has not touched, of `1 + bestIncrement × own marks on the line`.
  - Every open cell gets a real defence weight. It is the sum, over lines the opponent has touched, of `defIncrement ^ opponent marks on the line`.
  - Both sums start at 1.
  - The selector multiplies the two weights, keeps the cells of maximal product, and picks one. When the cell is playable and it is Shifu's turn, it plays there.

The weight dictionaries are specified by pure functions: `Shifu.Offence`, `Shifu.Defence` and `Shifu.Combined`. The dictionary-building loops of the source are methods proved equal to them.

The model follows the code in three places where the usual reading of the game differs:
- `draw` means no cell is empty, whether or not someone has won (`Board.FullWonBoardIsDraw` exhibits a full board won by X).
- The offence weights on an empty board are not uniform: centre 5, corners 4, edges 3. So a selector that opens the game always takes the centre (`Shifu.EmptyBoardBestIsCentre`, `Shifu.OpeningMove`).
- Shifu's `play` has three outcomes, not two. It returns `True` after moving and `False` when no cell is open. In every other case it falls off the end and returns `None`. These are `Moved`, `NoOpenCell` and `Declined` of `Shifu.PlayResult`.

## Model

| member | source | states |
|---|---|---|
| Board.Other | TicTacToe.py:117 | the turn swap and the opponent mark give the mark other than the given one |
| Board.NewBoard | TicTacToe.py:60-64 | a fresh board has ten slots, the starter's mark in slot 0 and every cell 1..9 empty |
| Board.TicTacToe.constructor | TicTacToe.py:60-64 | a new game holds the fresh board, the starter is to move, no play has been made, and the turn invariant holds |
| Board.NewBoardQueries | TicTacToe.py:60-82 | on a fresh board the moves are exactly 1..9; the starter occupies only slot 0; the other mark occupies nothing; nobody has won; it is not a draw |
| Board.IsPlayable | TicTacToe.py:73-74 | a position is playable exactly when it is in 1..9 and its slot is empty; so slot 0 never is, and a board with a playable cell is not full |
| Board.Moves | TicTacToe.py:77-78 | the moves are exactly the playable positions (cells 1..9 that are empty), in ascending order, and never include slot 0 |
| Board.Positions | TicTacToe.py:81-82 | the positions of a mark are exactly the slots 0..9 holding it, ascending, so slot 0 is included for the starter |
| Board.WinningSetsInRange | TicTacToe.py:175-177 | there are eight winning triples and each lies within cells 1..9 |
| Board.TicTacToe.TestSequentialWin | TicTacToe.py:87-96 | the per-start status dictionary reports true exactly when some start position has the mark at every offset |
| Board.TicTacToe.IsWinner | TicTacToe.py:85-102 | the vertical, horizontal and two diagonal tests succeed exactly when the mark fills one of the eight winning triples |
| Board.SequentialWinsAreWinningSets | TicTacToe.py:98-101 | each start-plus-offset test is the same as filling the matching rows, columns or diagonal of the winning-triple table |
| Board.TicTacToe.HasWinner | TicTacToe.py:105 | there is a winner exactly when X or O fills a winning triple |
| Board.Draw | TicTacToe.py:108 | the board is a draw exactly when every one of the ten slots holds a mark |
| Board.DrawIffNoMoves | TicTacToe.py:108 | draw holds exactly when no cell 1..9 is empty, which is exactly when there are no moves |
| Board.FullWonBoardIsDraw | TicTacToe.py:108 | a full board on which X has a row counts as a draw, and O has no line on it |
| Board.TicTacToe.CanPlay | TicTacToe.py:111 | the game can go on exactly when nobody has won and the board is not full, and then some move is open |
| Board.TicTacToe.IsTurn | TicTacToe.py:70 | it is a mark's turn when it is the current player; in a valid game that is the starter after an even number of plays and the other mark after an odd number |
| Board.TicTacToe.Play | TicTacToe.py:114-121 | on its turn, the mark is written at the index (a negative index counts from the end) and the turn passes to the other mark, one more play being counted; otherwise board and turn are unchanged; the turn-parity invariant is kept |
| Board.TicTacToe.SwapMark | TicTacToe.py:117 | the current player becomes the other mark and nothing else changes |
| Board.PlayableWriteKeepsOccupied | TicTacToe.py:114-121 | writing a mark on a playable cell leaves every occupied slot as it was, and removes exactly that cell from the moves |
| Shifu.TicTacToeShifu.constructor | TicTacToe.py:171-189 | the selector records its mark, and its opponent mark is the other mark |
| Shifu.TicTacToeShifu.IsOppWinning | TicTacToe.py:203-208 | a line counts as contested exactly when some cell of it holds the opponent's mark |
| Shifu.TicTacToeShifu.IsPossibleWin | TicTacToe.py:249-255 | a line is still winnable exactly when no cell of it holds the opponent's mark |
| Shifu.TouchesIffCount | TicTacToe.py:203-208 | the opponent touches a line exactly when the number of its marks on the line is positive |
| Shifu.TicTacToeShifu.IncrementHeuristics | TicTacToe.py:257-268 | every open cell of the line gains 1 plus bestIncrement times the selector's marks on the line; other entries and the key set are unchanged |
| Shifu.TicTacToeShifu.IncrementDefenceMul | TicTacToe.py:210-221 | every open cell of the line gains defIncrement raised to the opponent's marks on the line; other entries and the key set are unchanged |
| Shifu.Offence | TicTacToe.py:237-280 | the offence dictionary has exactly the moves as keys, and every weight is at least 1 |
| Shifu.Uniform | TicTacToe.py:224-227 | the initialisation loop gives every move, and nothing else, the weight 1 |
| Shifu.TicTacToeShifu.OffenceRound | TicTacToe.py:276-278 | examining one more winning triple extends the offence sums of every open cell by that triple's gain, and keeps the key set |
| Shifu.TicTacToeShifu.DefenceRound | TicTacToe.py:229-233 | examining one more winning triple extends the defence sums of every open cell by that triple's gain, and keeps the key set |
| Shifu.TicTacToeShifu.GetBestMoves | TicTacToe.py:237-280 | the dictionary built by the loops is the offence specification of the game's board |
| Shifu.Defence | TicTacToe.py:191-235 | the defence dictionary has exactly the moves as keys, and every weight is at least 1 |
| Shifu.TicTacToeShifu.GetDefenceMoves | TicTacToe.py:191-235 | the dictionary built by the loops is the defence specification of the game's board |
| Shifu.DefenceWithoutOpponent | TicTacToe.py:191-235 | when the opponent holds no cell, every defence weight is 1 |
| Shifu.OffenceOnEmptyBoard | TicTacToe.py:237-280 | on an empty board every cell is a key, and the offence weight is 5 for the centre, 4 for a corner and 3 for an edge |
| Shifu.Combined | TicTacToe.py:294-296 | the combined dictionary has exactly the moves as keys |
| Shifu.MultiplyWeights | TicTacToe.py:294-296 | the dictionary built by the loop is the entry-by-entry product: the offence keys, each weighted by its offence weight times the defence weight of the same cell |
| Shifu.CombinedAtLeastOne | TicTacToe.py:294-296 | with non-negative increments and a positive multiplier, every combined weight is at least 1 |
| Shifu.ArgMax | TicTacToe.py:309 | the key picked by max is in the dictionary and its weight is at least every other weight |
| Shifu.AtLeast | TicTacToe.py:311-314 | the filtered dictionary keeps exactly the entries whose weight reaches the threshold, with their weights |
| Shifu.BestCells | TicTacToe.py:308-315 | every cell of maximal combined weight is playable |
| Shifu.BestCellsNonEmpty | TicTacToe.py:308-319 | some cell has maximal weight exactly when some move is open, so the random fallback is dead code |
| Shifu.TicTacToeShifu.Play | TicTacToe.py:282-328 | it reports no open cell exactly when the board is a draw; it moves exactly when a cell is open and it is the selector's turn, and then exactly one cell of maximal combined weight gets the selector's mark, the turn passes and occupied cells are kept; otherwise nothing changes |
| Shifu.EmptyBoardBestIsCentre | TicTacToe.py:282-315 | on an empty board the centre is the only cell of maximal combined weight, whatever the mark and multipliers |
| Shifu.OpeningMove | TicTacToe.py:282-328 | a selector opening a fresh game moves, puts its mark in the centre and nowhere else, and passes the turn |
| Shifu.BlockScenarioBestIsBlock | TicTacToe.py:282-315 | with X on cells 1 and 2, O on cell 5 and the rest empty, the only cell of maximal weight for O is 3, which blocks X's row |

## Left out

- `printUI` and the `game()` driver are not modelled. They cover console formatting, `input`/`raw_input`, screen clearing, the messages and the play-again loop. The driver only calls the board after `isPlayable` accepts a human move; `Board.PlayableWriteKeepsOccupied` states what that check buys.
- The debug printing behind `AIdebug` is not modelled. It only prints and changes no state.
- `random.choice` is modelled as a nondeterministic choice from the set of maximal cells. No distribution is modelled, and neither is the iteration order of dictionaries or the tie-breaking of `max`.
- The random fallback over `game.moves()` is not modelled as a separate branch. `Shifu.BestCellsNonEmpty` proves it unreachable.
- `defIncrement` is the exact real 5.373 and its powers are exact. IEEE-754 rounding is not modelled, so neither are ties that rounding could create or break.
- Positions are integers. Python 2's `input()` evaluating user text is not modelled.
- `getboard` is not a separate member: the model reads the `board` field directly.
- Marks are a two-valued datatype, and the source's `is` comparisons (mark identity) are modelled as equality.
- Dictionary aliasing is modelled as reassignment. In the increment helpers the "copy" is an alias of the dictionary being updated; because the caller reassigns the result to the same name, reassigning a value is equivalent.
- The tuning comments about chances to lose are not modelled. They are empirical claims, not code behaviour.
- Board.TicTacToe.Play: requires the index to be between -10 and 9. On the mover's turn the source raises `IndexError` outside that range; off turn it ignores any position. The model requires -10..9 in both cases, and both call sites (TicTacToe.py:327, 354) pass only positions that `isPlayable` accepted at lines 322 and 350.
- Board.TicTacToe.TestSequentialWin: requires every start-plus-offset to be a valid slot, which holds for the four calls `isWinner` makes. The out-of-range `IndexError` is not modelled.
