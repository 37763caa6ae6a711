# ConnectFour in Dafny

A model of the game core of coderodde's ConnectFour, a Connect Four engine
for a minimax bot. The model covers three parts.

- **The board** (`ConnectFourState`):
  - construction and its argument checks;
  - dropping a token into a column (`move`), `columnIsFull`, `isFull`, `write`;
  - the successor list (`children`);
  - the four victory scans, `checkVictory` and `isTerminal`;
  - the text rendering (`toString`).
- **The pattern-counting evaluator** (`BruteForceConnectFourStateEvaluatorFunction`).
  It counts runs of each length for each colour, along four axes, and turns
  the counts into a score.
- **The weight-table evaluator** (`WeightMatrixConnectFourStateEvaluatorFunction`).
  A decided board gets a fixed value. Otherwise the score sums a 6-by-7
  table of cell weights over the tokens, positive for the maximizing player
  and negative for the minimizing one.

The board is an immutable value: `State(grid, winningLength, mover)`.
`grid[y][x]` holds `None` for an empty cell and `Some(Max)` or `Some(Min)`
for a token, with row 0 at the top. `mover` is the colour that made the last
move, the `playerColor` field of the source. `move` drops a token of the
other colour into the lowest empty cell of the column.

Modules, one per file:

| file | module | contents |
|---|---|---|
| wrappers.dfy | `Wrappers` | `Option` and `Result` |
| player_color.dfy | `PlayerColors` | the two colours and `getChar` |
| counting.dfy | `Counting` | `Count` and `Sum` over integer ranges, with their algebra |
| board.dfy | `Board` | the state, construction, `move`, `children`, gravity |
| lines.dfy | `Lines` | runs along a direction, `HasLine`, `Winner`, colour swap and mirror image |
| victory.dfy | `Victory` | the four victory scans, `checkVictory`, `isTerminal` |
| rendering.dfy | `Rendering` | `toString`, a parser for its output, and the round trip |
| pattern_evaluator.dfy | `BruteForceEvaluator` | pattern counting and the base score |
| weight_evaluator.dfy | `WeightEvaluator` | the weight-table evaluator |

Notes:

- **Winner.** `Winner(b)` is the reference for who has won. It is `Max` if
  the maximizing colour has a run of `winningLength` tokens along any axis,
  else `Min` if the minimizing colour has one, else nobody. This is the
  precedence `checkVictory()` uses.
- **Victory scans.** Each scan is a method that follows the Java loops,
  including the counter that resets on a mismatch. Each one is proved to
  decide exactly its axis of `HasLine`.
- **Glyphs.** The source prints `X` for a minimizing token and `O` for a
  maximizing one. That is the reverse of `PlayerColor.getChar()`, where
  MAX is `X`. The model keeps both as written and states the mismatch in
  the contract of `Glyph`.
- **Pattern counts.** Each Java scan is a method. Its result is proved equal
  to a declarative count (`AxisCount`): the number of windows, over the
  index ranges the Java loops visit, in which every cell holds the colour.
  The horizontal scan also requires the first cell to be occupied. The
  vertical scan also requires every cell below the window, up to the bottom
  row, to be occupied. That is the effect of its `continue outer`.
- **Score lengths.** The score weighs pattern lengths 2 up to and
  including the winning length. The loop bound in the code (line 347 of
  the evaluator) includes the last entry of the count table. A reading that
  stops before the winning length does not match the code, and the model
  follows the code.
- **Scan bands.** The vertical and diagonal pattern scans of the brute-force
  evaluator start only in a band of `winningLength - 1` rows: the bottom
  rows for vertical and ascending windows, the top rows for descending
  ones. The set of full-length patterns therefore equals the set of winning
  lines only when the height is `2 * winningLength - 2`. The default
  6-high board with runs of 4 is such a case. `FullPatternIffLine` proves
  this for gravity boards of that height.
- **Weight table.** Each weight in the table is the number of four-cell
  lines of the standard 7-by-6 board through that cell
  (`MatrixCountsLines`).

## Model

| member | source | states |
|---|---|---|
| `PlayerColors.Opposite` | src/main/java/net/coderodde/games/connect/four/ConnectFourState.java:160-163 | the colour of the next token always differs from the colour that moved last |
| `Board.EmptyGrid` | src/main/java/net/coderodde/games/connect/four/ConnectFourState.java:66-67 | a new board has `height` rows of `width` cells, all empty |
| `Board.Create` | src/main/java/net/coderodde/games/connect/four/ConnectFourState.java:63-80 | construction succeeds exactly when height ≥ 1, width ≥ 1, winning length ≥ 3, the owner is given, and the winning length fits the larger dimension; each failure is reported in the Java check order (height, width, winning length, null owner, then a winning length longer than both dimensions); a success is an empty valid board of the requested size, winning length and owner |
| `Board.CreateDefault` | src/main/java/net/coderodde/games/connect/four/ConnectFourState.java:86-91 | the one-argument constructor succeeds exactly when the owner is given and yields an empty 7-wide, 6-high board with runs of 4 whose player to move is the owner |
| `Board.LowestEmptyRow` | src/main/java/net/coderodde/games/connect/four/ConnectFourState.java:166-174 | the bottom-up scan finds an empty row with every cell below it occupied, or reports that the scanned cells are all occupied |
| `Board.Move` | src/main/java/net/coderodde/games/connect/four/ConnectFourState.java:155-179 | a move fails exactly when the column's top cell is occupied; otherwise it fills the lowest empty cell of the column with the other colour, changes no other cell, keeps size and winning length, and makes that colour the mover |
| `Board.Write` | src/main/java/net/coderodde/games/connect/four/ConnectFourState.java:145-147 | writing sets the one cell and leaves every other cell, the size, the winning length and the mover unchanged |
| `Board.IsFull` | src/main/java/net/coderodde/games/connect/four/ConnectFourState.java:199-207 | the board is reported full exactly when every column reports full |
| `Board.OpenColumns` | src/main/java/net/coderodde/games/connect/four/ConnectFourState.java:112-113 | the columns that are not full, each once, in increasing order, and no other column |
| `Board.ChildrenFrom` | src/main/java/net/coderodde/games/connect/four/ConnectFourState.java:112-117 | the successors built from column `x` on: the i-th is the result of moving in the i-th open column |
| `Board.Children` | src/main/java/net/coderodde/games/connect/four/ConnectFourState.java:108-121 | one successor per open column, left to right, each the successful move in that column |
| `Board.ColumnFullMeansColumnOccupied` | src/main/java/net/coderodde/games/connect/four/ConnectFourState.java:133-135 | on a board where tokens rest on tokens, testing only the top cell decides whether the whole column is occupied |
| `Board.MovePreservesGravity` | src/main/java/net/coderodde/games/connect/four/ConnectFourState.java:166-174 | a move keeps every token resting on a token or on the bottom row |
| `Board.MoveNStacks` | src/main/java/net/coderodde/games/connect/four/ConnectFourState.java:166-174 | after k moves into an empty column, exactly the bottom k cells of that column are occupied |
| `Board.FillColumn` | src/main/java/net/coderodde/games/connect/four/ConnectFourState.java:155-159 | an empty column accepts exactly `height` tokens: it is not full before the last one, full after it, and one more move fails |
| `Lines.DownRightIsUpLeft` | src/main/java/net/coderodde/games/connect/four/impl/BruteForceConnectFourStateEvaluatorFunction.java:174-178 | a run read down and to the right is the run read up and to the left from its far end, so the descending pattern scan and the descending victory scan look at the same lines |
| `Lines.EmptyBoardHasNoLine` | src/main/java/net/coderodde/games/connect/four/ConnectFourState.java:187-197 | a board without tokens has no line of either colour |
| `Lines.CreateHasNoWinner` | src/main/java/net/coderodde/games/connect/four/ConnectFourState.java:63-80 | a newly constructed board has no winner |
| `Lines.SwapLines` | src/main/java/net/coderodde/games/connect/four/ConnectFourState.java:232-237 | after the colours of all tokens are exchanged, a colour has a line exactly when the other colour had one before |
| `Lines.MirrorLines` | src/main/java/net/coderodde/games/connect/four/ConnectFourState.java:232-237 | the left-right mirror image of a board has a line of a colour exactly when the board does |
| `Victory.CheckVictoryHorizontal` | src/main/java/net/coderodde/games/connect/four/ConnectFourState.java:314-333 | the row scan with a reset-on-mismatch counter reports a win exactly when some row holds `winningLength` consecutive tokens of the colour |
| `Victory.RowHasLine` | src/main/java/net/coderodde/games/connect/four/ConnectFourState.java:315-329 | one row's reset-on-mismatch scan reports a win exactly when the row holds `winningLength` consecutive tokens of the colour |
| `Victory.CheckVictoryVertical` | src/main/java/net/coderodde/games/connect/four/ConnectFourState.java:293-312 | the bottom-up column scan reports a win exactly when some column holds `winningLength` consecutive tokens of the colour |
| `Victory.ColumnHasLine` | src/main/java/net/coderodde/games/connect/four/ConnectFourState.java:295-309 | one column's bottom-up scan reports a win exactly when the column holds `winningLength` consecutive tokens of the colour |
| `Victory.CheckVictoryAscendingDiagonal` | src/main/java/net/coderodde/games/connect/four/ConnectFourState.java:265-291 | the scan over start cells reports a win exactly when some up-and-right diagonal run of `winningLength` tokens of the colour exists |
| `Victory.CheckVictoryDescendingDiagonal` | src/main/java/net/coderodde/games/connect/four/ConnectFourState.java:239-263 | the scan over start cells reports a win exactly when some up-and-left diagonal run of `winningLength` tokens of the colour exists |
| `Victory.CheckVictoryFor` | src/main/java/net/coderodde/games/connect/four/ConnectFourState.java:232-237 | the four scans together report a win exactly when the colour has a line along some axis |
| `Victory.CheckVictory` | src/main/java/net/coderodde/games/connect/four/ConnectFourState.java:187-197 | the maximizing colour is reported whenever it has a line, even if the minimizing one has one too; otherwise the minimizing colour if it has a line; otherwise nobody |
| `Victory.IsTerminal` | src/main/java/net/coderodde/games/connect/four/ConnectFourState.java:123-126 | a state is terminal exactly when some colour has a line; a full board without a line is not terminal |
| `Rendering.Glyph` | src/main/java/net/coderodde/games/connect/four/ConnectFourState.java:411-424 | each cell prints as one character that identifies it uniquely and is none of the frame characters; a token never prints as its own colour's `getChar` |
| `Rendering.GlyphIsOtherColourChar` | src/main/java/net/coderodde/games/connect/four/ConnectFourState.java:411-424 | a token prints as the character `getChar` gives the other colour, and only an empty cell prints as a blank |
| `Rendering.RenderRow` | src/main/java/net/coderodde/games/connect/four/ConnectFourState.java:217-226 | a row prints as a bar, then each cell's character followed by a bar, then a newline |
| `Rendering.LowerBar` | src/main/java/net/coderodde/games/connect/four/ConnectFourState.java:400-409 | the lower bar has 2·width+1 characters, alternating `+` and `-`, starting and ending with `+` |
| `Rendering.Rows` | src/main/java/net/coderodde/games/connect/four/ConnectFourState.java:217-226 | the rows print one line each: every cell's character, every bar and every newline sits at its computed position |
| `Rendering.Render` | src/main/java/net/coderodde/games/connect/four/ConnectFourState.java:210-230 | the text has the rows then the lower bar, and places each cell's character, each bar and each newline at its computed position |
| `Rendering.Parse` | src/main/java/net/coderodde/games/connect/four/ConnectFourState.java:210-230 | a parsed grid has the given size, and each of its cells prints as the character found at that cell's position |
| `Rendering.ParseRender` | src/main/java/net/coderodde/games/connect/four/ConnectFourState.java:210-230 | reading back the printed text at the board's size recovers the grid exactly |
| `Rendering.RenderFirstNewline` | src/main/java/net/coderodde/games/connect/four/ConnectFourState.java:217-226 | the first line of the text is 2·width+1 characters long, so the width can be recovered from the text |
| `Rendering.RenderInjective` | src/main/java/net/coderodde/games/connect/four/ConnectFourState.java:210-230 | two boards that print the same text have the same size and the same grid |
| `BruteForceEvaluator.Matches` | src/main/java/net/coderodde/games/connect/four/impl/BruteForceConnectFourStateEvaluatorFunction.java:244-248 | the inner comparison loop accepts exactly when all `n` cells along the direction hold the colour |
| `BruteForceEvaluator.HorizontalPatternCount` | src/main/java/net/coderodde/games/connect/four/impl/BruteForceConnectFourStateEvaluatorFunction.java:230-255 | the result is the number of occupied start cells whose `n`-cell row window holds only the colour |
| `BruteForceEvaluator.HorizontalRowCount` | src/main/java/net/coderodde/games/connect/four/impl/BruteForceConnectFourStateEvaluatorFunction.java:238-251 | for one row, the result is the number of occupied start columns, among those leaving room for `n` cells, whose `n`-cell window holds only the colour |
| `BruteForceEvaluator.VerticalPatternCount` | src/main/java/net/coderodde/games/connect/four/impl/BruteForceConnectFourStateEvaluatorFunction.java:265-291 | the result is the number of band windows, read upward, that hold only the colour and have no empty cell between them and the bottom row |
| `BruteForceEvaluator.ColumnPatternCount` | src/main/java/net/coderodde/games/connect/four/impl/BruteForceConnectFourStateEvaluatorFunction.java:272-287 | one column's windows are counted, and the scan leaves the column at its first empty cell without missing any of them |
| `BruteForceEvaluator.EmptyCellEndsColumn` | src/main/java/net/coderodde/games/connect/four/impl/BruteForceConnectFourStateEvaluatorFunction.java:276-278 | no window starting above an empty band cell is counted, so leaving the column there loses nothing |
| `BruteForceEvaluator.AscendingPatternCount` | src/main/java/net/coderodde/games/connect/four/impl/BruteForceConnectFourStateEvaluatorFunction.java:195-220 | the result is the number of up-and-right windows starting in the bottom band that hold only the colour |
| `BruteForceEvaluator.DescendingPatternCount` | src/main/java/net/coderodde/games/connect/four/impl/BruteForceConnectFourStateEvaluatorFunction.java:163-185 | the result is the number of down-and-right windows starting in the top band that hold only the colour |
| `BruteForceEvaluator.AscendingRowCount` | src/main/java/net/coderodde/games/connect/four/impl/BruteForceConnectFourStateEvaluatorFunction.java:205-216 | for one start row, the result is the number of start columns, among those leaving room for a full winning line, whose next `n` cells up and to the right all hold the colour |
| `BruteForceEvaluator.DescendingRowCount` | src/main/java/net/coderodde/games/connect/four/impl/BruteForceConnectFourStateEvaluatorFunction.java:170-180 | for one start row, the result is the number of start columns, among those leaving room for a full winning line, whose next `n` cells down and to the right all hold the colour |
| `BruteForceEvaluator.FindPatternCount` | src/main/java/net/coderodde/games/connect/four/impl/BruteForceConnectFourStateEvaluatorFunction.java:132-153 | the result is the total of the four axis counts |
| `BruteForceEvaluator.ComputeBaseScore` | src/main/java/net/coderodde/games/connect/four/impl/BruteForceConnectFourStateEvaluatorFunction.java:332-356 | the result is the win value set by the last entries (the maximizing one overriding), plus, for each length from 2 up to the last, the count difference times ten to the length |
| `BruteForceEvaluator.CountTable` | src/main/java/net/coderodde/games/connect/four/impl/BruteForceConnectFourStateEvaluatorFunction.java:59-60 | a count table has one entry per length from 0 to the board's winning length |
| `BruteForceEvaluator.FillTable` | src/main/java/net/coderodde/games/connect/four/impl/BruteForceConnectFourStateEvaluatorFunction.java:63-75 | stopping at the first length with no pattern gives the same table as counting every length up to the bound |
| `BruteForceEvaluator.Evaluate` | src/main/java/net/coderodde/games/connect/four/impl/BruteForceConnectFourStateEvaluatorFunction.java:56-95 | the score is the base score of the full count tables, the minimizing one up to the evaluator's winning length and the maximizing one up to the board's |
| `BruteForceEvaluator.AxisCountNonNegative` | src/main/java/net/coderodde/games/connect/four/impl/BruteForceConnectFourStateEvaluatorFunction.java:132-153 | no axis count is negative |
| `BruteForceEvaluator.AxisCountMonotone` | src/main/java/net/coderodde/games/connect/four/impl/BruteForceConnectFourStateEvaluatorFunction.java:132-153 | along each axis, there are never more patterns of length n+1 than of length n |
| `BruteForceEvaluator.PatternCountMonotone` | src/main/java/net/coderodde/games/connect/four/impl/BruteForceConnectFourStateEvaluatorFunction.java:68-72 | pattern counts do not grow with the length, which is the reason the source's comment gives for the early stop |
| `BruteForceEvaluator.PatternCountStaysZero` | src/main/java/net/coderodde/games/connect/four/impl/BruteForceConnectFourStateEvaluatorFunction.java:68-72 | once no pattern of some length exists, none of any greater length exists |
| `BruteForceEvaluator.PatternCountZeroUpTo` | src/main/java/net/coderodde/games/connect/four/impl/BruteForceConnectFourStateEvaluatorFunction.java:68-72 | a zero count at length n stays zero at every longer length m |
| `BruteForceEvaluator.AxisCountZeroUpTo` | src/main/java/net/coderodde/games/connect/four/impl/BruteForceConnectFourStateEvaluatorFunction.java:68-72 | along each axis, a zero count at length n stays zero at every longer length m |
| `BruteForceEvaluator.EmptyBoardHasNoPattern` | src/main/java/net/coderodde/games/connect/four/impl/BruteForceConnectFourStateEvaluatorFunction.java:132-153 | a board without tokens has no pattern of any length |
| `BruteForceEvaluator.EmptyBoardScoresZero` | src/main/java/net/coderodde/games/connect/four/impl/BruteForceConnectFourStateEvaluatorFunction.java:56-95 | a board without tokens scores 0 |
| `BruteForceEvaluator.SwapWindow` | src/main/java/net/coderodde/games/connect/four/impl/BruteForceConnectFourStateEvaluatorFunction.java:132-153 | after the colours are exchanged, a window holds a colour exactly when it held the other colour before |
| `BruteForceEvaluator.SwapPatternCount` | src/main/java/net/coderodde/games/connect/four/impl/BruteForceConnectFourStateEvaluatorFunction.java:103-121 | the counts for one colour after the exchange are the counts for the other colour before it |
| `BruteForceEvaluator.SwapCountTable` | src/main/java/net/coderodde/games/connect/four/impl/BruteForceConnectFourStateEvaluatorFunction.java:59-89 | exchanging the colours exchanges the two count tables |
| `BruteForceEvaluator.BaseScoreAntisymmetric` | src/main/java/net/coderodde/games/connect/four/impl/BruteForceConnectFourStateEvaluatorFunction.java:332-356 | exchanging the two tables negates the base score, except that a full-length count on both sides gives the positive win value both ways |
| `BruteForceEvaluator.SwapNegatesScore` | src/main/java/net/coderodde/games/connect/four/impl/BruteForceConnectFourStateEvaluatorFunction.java:56-95 | when the evaluator's winning length equals the board's, exchanging the colours negates the score, unless both colours have a full-length pattern |
| `BruteForceEvaluator.MoverPatternCount` | src/main/java/net/coderodde/games/connect/four/impl/BruteForceConnectFourStateEvaluatorFunction.java:132-153 | the pattern count of every length and colour is the same whichever player is to move |
| `BruteForceEvaluator.ScoreIgnoresMover` | src/main/java/net/coderodde/games/connect/four/impl/BruteForceConnectFourStateEvaluatorFunction.java:56-95 | the score depends only on the cells and the two winning lengths: changing the player to move leaves it unchanged |
| `BruteForceEvaluator.FullPatternIsLine` | src/main/java/net/coderodde/games/connect/four/impl/BruteForceConnectFourStateEvaluatorFunction.java:339-345 | a counted pattern of the full winning length is a winning line |
| `BruteForceEvaluator.CountedWindow` | src/main/java/net/coderodde/games/connect/four/impl/BruteForceConnectFourStateEvaluatorFunction.java:132-153 | a matching window in a scanned range makes the total count positive |
| `BruteForceEvaluator.FullPatternIffLine` | src/main/java/net/coderodde/games/connect/four/impl/BruteForceConnectFourStateEvaluatorFunction.java:339-345 | on a gravity board whose height is twice the winning length minus two, some full-length pattern is counted exactly when the colour has a winning line |
| `BruteForceEvaluator.HorizontalLineCounted` | src/main/java/net/coderodde/games/connect/four/impl/BruteForceConnectFourStateEvaluatorFunction.java:230-255 | every horizontal winning line is counted |
| `BruteForceEvaluator.VerticalLineCounted` | src/main/java/net/coderodde/games/connect/four/impl/BruteForceConnectFourStateEvaluatorFunction.java:265-291 | on such a gravity board every vertical winning line is counted |
| `BruteForceEvaluator.AscendingLineCounted` | src/main/java/net/coderodde/games/connect/four/impl/BruteForceConnectFourStateEvaluatorFunction.java:195-220 | on such a board every up-and-right winning line is counted |
| `BruteForceEvaluator.DescendingLineCounted` | src/main/java/net/coderodde/games/connect/four/impl/BruteForceConnectFourStateEvaluatorFunction.java:163-185 | on such a board every up-and-left winning line is counted |
| `WeightEvaluator.Evaluate` | src/main/java/net/coderodde/games/connect/four/impl/WeightMatrixConnectFourStateEvaluatorFunction.java:28-53 | a board won by the minimizing colour gives -1000000 and one won by the maximizing colour gives 1000000 (MAX first); otherwise the result is the signed weight sum, and it fails exactly when a token lies outside the table |
| `WeightEvaluator.WeightSum` | src/main/java/net/coderodde/games/connect/four/impl/WeightMatrixConnectFourStateEvaluatorFunction.java:39-52 | the double loop gives the signed weight sum of all tokens, and fails exactly when some token lies outside the table |
| `WeightEvaluator.RowWeight` | src/main/java/net/coderodde/games/connect/four/impl/WeightMatrixConnectFourStateEvaluatorFunction.java:42-49 | one row's signed weights, or a failure exactly when a token of that row lies outside the table |
| `WeightEvaluator.CellWeight` | src/main/java/net/coderodde/games/connect/four/impl/WeightMatrixConnectFourStateEvaluatorFunction.java:43-48 | a cell adds its weight for a maximizing token, minus its weight for a minimizing one, and nothing when empty; the access fails exactly when a token lies outside the table |
| `WeightEvaluator.MatrixCountsLines` | src/main/java/net/coderodde/games/connect/four/impl/WeightMatrixConnectFourStateEvaluatorFunction.java:19-24 | the table has 6 rows of 7 weights, and each weight is the number of four-cell lines of the standard board through its cell |
| `WeightEvaluator.MatrixSymmetric` | src/main/java/net/coderodde/games/connect/four/impl/WeightMatrixConnectFourStateEvaluatorFunction.java:19-24 | the table reads the same from both sides and upside down |
| `WeightEvaluator.EmptyBoardEvaluatesToZero` | src/main/java/net/coderodde/games/connect/four/impl/WeightMatrixConnectFourStateEvaluatorFunction.java:28-53 | a board without tokens has no winner, fits the table and sums to 0 |
| `WeightEvaluator.SwapNegatesPositionalSum` | src/main/java/net/coderodde/games/connect/four/impl/WeightMatrixConnectFourStateEvaluatorFunction.java:41-50 | exchanging the colours negates the weight sum and keeps whether every token fits the table |
| `WeightEvaluator.SwapWinner` | src/main/java/net/coderodde/games/connect/four/impl/WeightMatrixConnectFourStateEvaluatorFunction.java:29-37 | exchanging the colours exchanges the winner, except that a board with lines of both colours is won by MAX either way |
| `WeightEvaluator.MirrorKeepsPositionalSum` | src/main/java/net/coderodde/games/connect/four/impl/WeightMatrixConnectFourStateEvaluatorFunction.java:41-50 | on a 7-wide board the mirror image has the same weight sum |
| `WeightEvaluator.MirrorKeepsFit` | src/main/java/net/coderodde/games/connect/four/impl/WeightMatrixConnectFourStateEvaluatorFunction.java:41-50 | on a 7-wide board the mirror image fits the table exactly when the board does |
| `WeightEvaluator.MirrorKeepsEvaluation` | src/main/java/net/coderodde/games/connect/four/impl/WeightMatrixConnectFourStateEvaluatorFunction.java:28-53 | on a 7-wide board the mirror image has the same winner, the same fit and the same weight sum, so it evaluates the same |
| `WeightEvaluator.RowSumBounded` | src/main/java/net/coderodde/games/connect/four/impl/WeightMatrixConnectFourStateEvaluatorFunction.java:42-49 | a board row's signed sum is at most that table row's total in absolute value |
| `WeightEvaluator.TableTotal` | src/main/java/net/coderodde/games/connect/four/impl/WeightMatrixConnectFourStateEvaluatorFunction.java:19-24 | the weights total 276 |
| `WeightEvaluator.TableRowTotal` | src/main/java/net/coderodde/games/connect/four/impl/WeightMatrixConnectFourStateEvaluatorFunction.java:19-24 | the rows of the table total 31, 46, 61, 61, 46 and 31 |
| `WeightEvaluator.PositionalSumBounded` | src/main/java/net/coderodde/games/connect/four/impl/WeightMatrixConnectFourStateEvaluatorFunction.java:39-52 | the weight sum lies within ±276, below the win value, so a decided board always outranks an undecided one |

## Left out

- `Demo`, `Human`, `SmartBot` and the tests. They drive the game through I/O and a search that is not part of this model.
- `Board.Children`: the source caches the list in a mutable field and returns the cached list on later calls. That has no visible effect only while `write` is not called after `children()`. A `write` after `children()` changes the grid in place, and a later `children()` still returns the old successors. The model's `Write` returns a new state, so `Children(Write(b, …))` always reflects the write. This staleness is not modelled.
- `Board.Move`: the copy made by `cloneState` is implicit, because the grid is a value and the receiver can never change.
- Board.Move: requires `0 <= x < width`. For any other column, the `columnIsFull` test at the start of `move` throws `ArrayIndexOutOfBoundsException`. The model does not represent that exception; every caller in the core passes a column on the board.
- Board.Write: requires `0 <= x < width` and `0 <= y < height`. Outside them `write` throws `ArrayIndexOutOfBoundsException`, and the model does not represent that exception.
- Board.State.ReadCell: requires `0 <= x < width` and `0 <= y < height`. Outside them `readCell` throws `ArrayIndexOutOfBoundsException`, and the model does not represent that exception.
- Board.State.ColumnIsFull: requires `0 <= x < width`, for the same reason as `Board.Move`.
- `getPlayer` and `readCell` are `grid[y][x]` (`State.ReadCell`). `getHeight`, `getWidth` and `getWinningLength` are `Height()`, `Width()` and the field.
- `write` can store a token anywhere. The model keeps that freedom and does not require gravity, except where a lemma states it.
- The brute-force evaluator's weight matrix (`getWeightMatrix`, `getWeights` and the constructor's `maxWeight`): the score never uses it. The call to `getWeights` is commented out, so only the stored winning length matters.
- Doubles are modelled as exact integers. The constants are `-1e9`, `1e9`, `1e6` and powers of ten. The model's arithmetic is exact. Java's double arithmetic on these integers is exact while every intermediate value stays below 2^53 in magnitude; beyond that it may round. They stay below 2^53 on the default 7-by-6 board with runs of 4, whose terms are at most a few hundred times 10^4 next to 1e9. It can fail for long winning lengths, with winning length 17 on a board at least 32 rows high. `computeBaseScore` adds the terms in order of length. Suppose the running value is 1e9, and then a length-2 term of 100 and a length-17 term of 10^17 are added. The double result is then 4 below the exact sum, and the model's exact score differs. Adding 10^17 to 1e9 alone is exact, since both are multiples of 16. The two unused constants `POSITIVE_CLOSE_TO_WIN_VALUE` and `NEGATIVE_CLOSE_TO_WIN_VALUE` are left out.
- Java `int` overflow is not modelled. Each axis count is at most the number of cells, so a pattern count is at most four times the number of cells. It fits in an `int` for boards with fewer than 2^29 cells.
- BruteForceEvaluator.Evaluate: requires the evaluator's winning length to be at most the board's, and twice the board's winning length to be at most the height plus two. Outside these bounds the Java loops index past the arrays or the board for some boards and throw; the model does not represent that exception.
- BruteForceEvaluator.FindPatternCount: requires `1 <= n <= winningLength` and `winningLength + n <= height + 2`. These bounds are enough for every read to stay on the board. The Java code reads out of bounds, and throws, for some boards outside them.
- BruteForceEvaluator.ComputeBaseScore: computes the score exactly. Java may round once a partial sum exceeds 2^53 (see the line on doubles above).
- BruteForceEvaluator.VerticalPatternCount: requires `winningLength + n <= height + 2`. Java's column scan reads up to `n` cells upward from each band start, leaving the window at the first cell that is not the pattern colour. Outside the bound a window can reach past the top row. Java throws only when, in a column the scan has not yet left, such a window reaches row −1 with every cell it read equal to the pattern colour. Otherwise it returns a count, for example 0 on an empty 7-by-3 board with winning length 3 and `n = 3`. The model covers neither case.
- BruteForceEvaluator.ColumnPatternCount: the same bound as `VerticalPatternCount`, for one column.
- BruteForceEvaluator.AscendingPatternCount: requires `n <= winningLength` and `winningLength + n <= height + 2`. Outside these bounds Java's reads can leave the board at the top or the right, and whether it throws or returns depends on the cells it reads first. The model covers neither case.
- BruteForceEvaluator.AscendingRowCount: the same bounds as `AscendingPatternCount`, for one row.
- BruteForceEvaluator.DescendingPatternCount: requires `n <= winningLength` and `winningLength + n <= height + 2`, for the same reason as `AscendingPatternCount`. The reads leave the board at the bottom or the right.
- BruteForceEvaluator.DescendingRowCount: the same bounds as `DescendingPatternCount`, for one row.
- BruteForceEvaluator.FillTable: requires `top <= winningLength` and `2 * winningLength <= height + 2`, so that every length it tries meets the bounds of `FindPatternCount`. Java's loop runs outside them and may throw.
- BruteForceEvaluator.SwapNegatesScore: states colour antisymmetry only when the evaluator's winning length equals the board's. With different lengths the two count tables cover different ranges, and the score is not antisymmetric.
- BruteForceEvaluator.FullPatternIffLine: proved only for height `2 * winningLength - 2`, where the scanned bands cover every start row. On a taller board a line outside the bands is not counted.
- WeightEvaluator.MirrorKeepsEvaluation: stated for boards 7 wide, the width the table is built for. On other widths the table is not symmetric about the board's centre.
- `PlayerColor.getChar` is modelled (`GetChar`) but used only to state the glyph mismatch.
