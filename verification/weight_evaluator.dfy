/** `WeightMatrixConnectFourStateEvaluatorFunction`: a won board scores a
    fixed value; otherwise every token scores the weight of its cell, in
    favour of its owner. The weights form a 6-by-7 table: each entry is the
    number of four-cell lines of the standard board through that cell. */
module WeightEvaluator {
  import opened Wrappers
  import opened PlayerColors
  import opened Board
  import opened Lines
  import opened Counting
  import opened Victory

  /** The `ArrayIndexOutOfBoundsException` raised when a token lies outside
      the weight table, which only happens on a board larger than 7 by 6. */
  datatype EvalError = OutsideMatrix

  const WinValue := 1_000_000

  /** The weight table, row 0 at the top. */
  const Matrix: seq<seq<int>> :=
    [[3, 4,  5,  7,  5, 4, 3],
     [4, 6,  8, 10,  8, 6, 4],
     [5, 8, 11, 13, 11, 8, 5],
     [5, 8, 11, 13, 11, 8, 5],
     [4, 6,  8, 10,  8, 6, 4],
     [3, 4,  5,  7,  5, 4, 3]]

  /** Where the array access `matrix[y][x]` succeeds. */
  predicate InMatrix(x: int, y: int)
  {
    0 <= y < |Matrix| && 0 <= x < |Matrix[y]|
  }


  /** The cell `(x, y)` is empty, off the board, or inside the table. */
  predicate Fits(b: State, x: int, y: int)
  {
    b.Valid() && OnBoard(b, x, y) && b.grid[y][x] != None ==> InMatrix(x, y)
  }

  /** Every token lies inside the weight table. */
  predicate FitsMatrix(b: State)
  {
    forall y :: 0 <= y < b.Height() ==> RowFits(b, y)
  }

  /** Every token of row `y` lies inside the weight table. */
  predicate RowFits(b: State, y: int)
  {
    forall x :: 0 <= x < b.Width() ==> Fits(b, x, y)
  }

  /** The weight of the cell `(x, y)`, zero outside the table. */
  function Weight(x: int, y: int): int
  {
    if InMatrix(x, y) then Matrix[y][x] else 0
  }

  /** What the cell `(x, y)` adds to the sum: its weight for a maximizing
      token, minus its weight for a minimizing one, nothing when empty. */
  function CellValue(b: State, x: int, y: int): int
  {
    if b.Valid() && OnBoard(b, x, y) then
      match b.grid[y][x]
      case Some(Max) => Weight(x, y)
      case Some(Min) => -Weight(x, y)
      case None => 0
    else 0
  }

  function CellValuesOf(b: State, y: int): int -> int
  {
    x => CellValue(b, x, y)
  }

  function RowSum(b: State, y: int): int
  {
    Sum(0, b.Width(), CellValuesOf(b, y))
  }

  function RowSumsOf(b: State): int -> int
  {
    y => RowSum(b, y)
  }

  /** The signed sum of the weights of all tokens. */
  function PositionalSum(b: State): int
  {
    Sum(0, b.Height(), RowSumsOf(b))
  }

  /** `evaluate`: the win values for a decided board (MAX taking precedence,
      as in `checkVictory`), the positional sum otherwise, and an error when
      a token lies outside the table. */
  method Evaluate(b: State) returns (r: Result<int, EvalError>)
    requires b.Valid()
    ensures Winner(b) == Some(Min) ==> r == Success(-WinValue)
    ensures Winner(b) == Some(Max) ==> r == Success(WinValue)
    ensures Winner(b) == None ==> (r.Success? <==> FitsMatrix(b))
    ensures Winner(b) == None && FitsMatrix(b) ==> r == Success(PositionalSum(b))
  {
    var winner := CheckVictory(b);
    if winner == Some(Min) {
      return Success(-WinValue);
    }
    if winner == Some(Max) {
      return Success(WinValue);
    }
    r := WeightSum(b);
  }

  /** The double loop of `evaluate`, run on a board nobody has won: the
      signed weight sum, or a failure exactly when a token lies outside the
      table. */
  method WeightSum(b: State) returns (r: Result<int, EvalError>)
    requires b.Valid()
    ensures r.Success? <==> FitsMatrix(b)
    ensures r.Success? ==> r.value == PositionalSum(b)
  {
    var rows := RowSumsOf(b);
    var sum := 0;
    var y := 0;
    while y < b.Height()
      invariant 0 <= y <= b.Height()
      invariant sum == Sum(0, y, rows)
      invariant forall y' :: 0 <= y' < y ==> RowFits(b, y')
    {
      var row := RowWeight(b, y);
      if row.Failure? {
        return Failure(OutsideMatrix);
      }
      assert sum + row.value == Sum(0, y + 1, rows) by {
        SumPeelHigh(0, y + 1, rows);
      }
      sum := sum + row.value;
      y := y + 1;
    }
    return Success(sum);
  }


  /** One pass of the inner loop of `evaluate`: the signed weights of row
      `y`, or the error at the first token outside the table. */
  method RowWeight(b: State, y: int) returns (r: Result<int, EvalError>)
    requires b.Valid() && 0 <= y < b.Height()
    ensures r.Success? <==> RowFits(b, y)
    ensures r.Success? ==> r.value == RowSum(b, y)
  {
    var cells := CellValuesOf(b, y);
    var sum := 0;
    var x := 0;
    while x < b.Width()
      invariant 0 <= x <= b.Width()
      invariant sum == Sum(0, x, cells)
      invariant forall x' :: 0 <= x' < x ==> Fits(b, x', y)
    {
      var c := CellWeight(b, x, y);
      if c.Failure? {
        return Failure(OutsideMatrix);
      }
      sum := sum + c.value;
      SumPeelHigh(0, x + 1, cells);
      x := x + 1;
    }
    return Success(sum);
  }
  /** The body of the inner loop of `evaluate`: what the cell `(x, y)` adds
      to the sum, or the failure of `matrix[y][x]` for a token outside the
      table. An empty cell reads no weight. */
  method CellWeight(b: State, x: int, y: int) returns (r: Result<int, EvalError>)
    requires b.Valid() && 0 <= y < b.Height() && 0 <= x < b.Width()
    ensures r.Success? <==> Fits(b, x, y)
    ensures r.Success? ==> r.value == CellValue(b, x, y)
  {
    match b.grid[y][x]
    case Some(Max) =>
      if !InMatrix(x, y) {
        return Failure(OutsideMatrix);
      }
      return Success(Matrix[y][x]);
    case Some(Min) =>
      if !InMatrix(x, y) {
        return Failure(OutsideMatrix);
      }
      return Success(-Matrix[y][x]);
    case None =>
      return Success(0);
  }



  /** Whether the four-cell window from `(x, y)` along `d` lies on the
      standard 7-by-6 board. */
  predicate StandardWindow(d: Direction, x: int, y: int)
  {
    && 0 <= x < DefaultWidth && 0 <= y < DefaultHeight
    && 0 <= StepX(d, x, DefaultWinningLength - 1) < DefaultWidth
    && 0 <= StepY(d, y, DefaultWinningLength - 1) < DefaultHeight
  }

  /** 1 when the window along `d` whose `k`-th cell is `(x, y)` lies on the
      standard board, else 0. */
  function Through(d: Direction, x: int, y: int, k: int): int
  {
    if StandardWindow(d, 2 * x - StepX(d, x, k), 2 * y - StepY(d, y, k)) then 1 else 0
  }

  /** The windows along `d` through `(x, y)`. */
  function ThroughAlong(d: Direction, x: int, y: int): int
  {
    Through(d, x, y, 0) + Through(d, x, y, 1) + Through(d, x, y, 2) + Through(d, x, y, 3)
  }

  /** The four-cell lines of the standard board through `(x, y)`, in all
      four orientations. */
  function LinesThrough(x: int, y: int): int
  {
    ThroughAlong(Right, x, y) + ThroughAlong(Up, x, y) + ThroughAlong(UpRight, x, y) + ThroughAlong(UpLeft, x, y)
  }

  /** The number of integers in `[lo, hi]`. */
  function Span(lo: int, hi: int): int { if lo <= hi then hi - lo + 1 else 0 }

  /** The positions `k` of `(x, y)` inside a window along `d` are an interval;
      this is the length of that interval on the standard board. */
  function ThroughSpan(d: Direction, x: int, y: int): int
  {
    match d
    case Right => Span(MaxInt(0, x - 3), MinInt(3, x))
    case Up => Span(MaxInt(0, 3 - y), MinInt(3, 5 - y))
    case UpRight => Span(MaxInt(MaxInt(0, x - 3), 3 - y), MinInt(MinInt(3, x), 5 - y))
    case UpLeft => Span(MaxInt(MaxInt(0, 3 - x), 3 - y), MinInt(MinInt(3, 6 - x), 5 - y))
    case DownRight => 0
  }

  /** `ThroughAlong` agrees with `ThroughSpan` on the standard board. The
      four directions are proved by separate lemmas below, because together
      they exceed what the solver checks reliably in one proof obligation. */
  lemma ThroughAlongIsSpan(d: Direction, x: int, y: int)
    requires d != DownRight
    requires 0 <= x < DefaultWidth && 0 <= y < DefaultHeight
    ensures ThroughAlong(d, x, y) == ThroughSpan(d, x, y)
  {
    match d
    case Right => RightIsSpan(x, y);
    case Up => UpIsSpan(x, y);
    case UpRight => UpRightIsSpan(x, y);
    case UpLeft => UpLeftIsSpan(x, y);
  }

  lemma RightIsSpan(x: int, y: int)
    requires 0 <= x < DefaultWidth && 0 <= y < DefaultHeight
    ensures ThroughAlong(Right, x, y) == ThroughSpan(Right, x, y)
  {
  }

  lemma UpIsSpan(x: int, y: int)
    requires 0 <= x < DefaultWidth && 0 <= y < DefaultHeight
    ensures ThroughAlong(Up, x, y) == ThroughSpan(Up, x, y)
  {
  }

  lemma UpRightIsSpan(x: int, y: int)
    requires 0 <= x < DefaultWidth && 0 <= y < DefaultHeight
    ensures ThroughAlong(UpRight, x, y) == ThroughSpan(UpRight, x, y)
  {
  }

  lemma UpLeftIsSpan(x: int, y: int)
    requires 0 <= x < DefaultWidth && 0 <= y < DefaultHeight
    ensures ThroughAlong(UpLeft, x, y) == ThroughSpan(UpLeft, x, y)
  {
  }

  /** `LinesThrough` as a sum of interval lengths. */
  function LinesThroughSpan(x: int, y: int): int
  {
    ThroughSpan(Right, x, y) + ThroughSpan(Up, x, y) + ThroughSpan(UpRight, x, y) + ThroughSpan(UpLeft, x, y)
  }

  lemma RowMatchesSpan(y: int)
    requires 0 <= y < DefaultHeight
    ensures forall x :: 0 <= x < DefaultWidth ==> Matrix[y][x] == LinesThroughSpan(x, y)
  {
    if y == 0 {
      RowZeroMatchesSpan();
    } else if y == 1 {
      RowOneMatchesSpan();
    } else if y == 2 {
      RowTwoMatchesSpan();
    } else if y == 3 {
      RowThreeMatchesSpan();
    } else if y == 4 {
      RowFourMatchesSpan();
    } else {
      RowFiveMatchesSpan();
    }
  }

  // One lemma per table row: the six rows checked together exceed what the
  // solver handles reliably in one proof obligation.
  lemma RowZeroMatchesSpan()
    ensures forall x :: 0 <= x < DefaultWidth ==> Matrix[0][x] == LinesThroughSpan(x, 0)
  {
  }

  lemma RowOneMatchesSpan()
    ensures forall x :: 0 <= x < DefaultWidth ==> Matrix[1][x] == LinesThroughSpan(x, 1)
  {
  }

  lemma RowTwoMatchesSpan()
    ensures forall x :: 0 <= x < DefaultWidth ==> Matrix[2][x] == LinesThroughSpan(x, 2)
  {
  }

  lemma RowThreeMatchesSpan()
    ensures forall x :: 0 <= x < DefaultWidth ==> Matrix[3][x] == LinesThroughSpan(x, 3)
  {
  }

  lemma RowFourMatchesSpan()
    ensures forall x :: 0 <= x < DefaultWidth ==> Matrix[4][x] == LinesThroughSpan(x, 4)
  {
  }

  lemma RowFiveMatchesSpan()
    ensures forall x :: 0 <= x < DefaultWidth ==> Matrix[5][x] == LinesThroughSpan(x, 5)
  {
  }


  /** Each weight is the number of winning lines of the standard board
      through its cell. */
  lemma MatrixCountsLines()
    ensures |Matrix| == DefaultHeight
    ensures forall y :: 0 <= y < DefaultHeight ==> |Matrix[y]| == DefaultWidth
    ensures forall y, x :: 0 <= y < DefaultHeight && 0 <= x < DefaultWidth ==> Matrix[y][x] == LinesThrough(x, y)
  {
    forall y, x | 0 <= y < DefaultHeight && 0 <= x < DefaultWidth
      ensures Matrix[y][x] == LinesThrough(x, y)
    {
      RowMatchesSpan(y);
      ThroughAlongIsSpan(Right, x, y);
      ThroughAlongIsSpan(Up, x, y);
      ThroughAlongIsSpan(UpRight, x, y);
      ThroughAlongIsSpan(UpLeft, x, y);
    }
  }

  /** The table reads the same from both sides and upside down. */
  lemma MatrixSymmetric()
    ensures forall y, x :: 0 <= x < DefaultWidth ==>
      (InMatrix(x, y) <==> InMatrix(DefaultWidth - 1 - x, y)) && Weight(x, y) == Weight(DefaultWidth - 1 - x, y)
    ensures forall y, x :: 0 <= y < DefaultHeight ==>
      (InMatrix(x, y) <==> InMatrix(x, DefaultHeight - 1 - y)) && Weight(x, y) == Weight(x, DefaultHeight - 1 - y)
  {
  }

  /** A board without tokens evaluates to zero. */
  lemma EmptyBoardEvaluatesToZero(b: State)
    requires b.Valid() && b.IsEmpty()
    ensures Winner(b) == None && FitsMatrix(b) && PositionalSum(b) == 0
  {
    EmptyBoardHasNoLine(b, Max);
    EmptyBoardHasNoLine(b, Min);
    forall y | 0 <= y < b.Height()
      ensures RowSum(b, y) == 0
    {
      SumZero(0, b.Width(), CellValuesOf(b, y));
    }
    SumZero(0, b.Height(), RowSumsOf(b));
  }

  /** Exchanging the colours of all tokens negates the positional sum and
      keeps whether every token fits the table. */
  lemma SwapNegatesPositionalSum(b: State)
    requires b.Valid()
    ensures PositionalSum(Swap(b)) == -PositionalSum(b)
    ensures FitsMatrix(Swap(b)) <==> FitsMatrix(b)
  {
    var s := Swap(b);
    forall y | 0 <= y < b.Height()
      ensures RowSum(s, y) == -RowSum(b, y)
    {
      forall x | 0 <= x < b.Width()
        ensures CellValue(s, x, y) == -CellValue(b, x, y)
      {
      }
      SumNegate(0, b.Width(), CellValuesOf(b, y), CellValuesOf(s, y));
    }
    SumNegate(0, b.Height(), RowSumsOf(b), RowSumsOf(s));
    forall y | 0 <= y < b.Height()
      ensures RowFits(s, y) <==> RowFits(b, y)
    {
      assert forall x :: 0 <= x < b.Width() ==> (Fits(s, x, y) <==> Fits(b, x, y));
    }
  }

  /** Exchanging the colours exchanges the winner, except that a board on
      which both colours have a line is won by MAX either way. */
  lemma SwapWinner(b: State)
    requires b.Valid()
    ensures !(HasLine(b, Max) && HasLine(b, Min)) ==> Winner(Swap(b)) == SwapCell(Winner(b))
    ensures HasLine(b, Max) && HasLine(b, Min) ==> Winner(Swap(b)) == Winner(b) == Some(Max)
  {
    SwapLines(b, Max);
    SwapLines(b, Min);
  }

  /** On a board of the standard width the weights are symmetric, so the
      mirror image has the same positional sum. */
  lemma MirrorKeepsPositionalSum(b: State)
    requires b.Valid() && b.Width() == DefaultWidth
    ensures PositionalSum(Mirror(b)) == PositionalSum(b)
  {
    var m := Mirror(b);
    var w := b.Width();
    MatrixSymmetric();
    forall y | 0 <= y < b.Height()
      ensures RowSum(m, y) == RowSum(b, y)
    {
      forall x | 0 <= x < w
        ensures CellValue(m, x, y) == CellValue(b, w - 1 - x, y)
      {
      }
      SumReverse(0, w, CellValuesOf(b, y), CellValuesOf(m, y));
    }
    SumSame(0, b.Height(), RowSumsOf(b), RowSumsOf(m));
  }

  /** On a board of the standard width, the mirror image fits the table
      exactly when the board does. */
  lemma MirrorKeepsFit(b: State)
    requires b.Valid() && b.Width() == DefaultWidth
    ensures FitsMatrix(Mirror(b)) <==> FitsMatrix(b)
  {
    var m := Mirror(b);
    var w := b.Width();
    MatrixSymmetric();
    forall y, x | 0 <= y < b.Height() && 0 <= x < w
      ensures Fits(m, x, y) <==> Fits(b, w - 1 - x, y)
    {
    }
    forall y | 0 <= y < b.Height()
      ensures RowFits(m, y) <==> RowFits(b, y)
    {
      if RowFits(m, y) {
        forall x | 0 <= x < w
          ensures Fits(b, x, y)
        {
          assert Fits(m, w - 1 - x, y);
        }
      }
    }
  }

  /** The mirror image of a board on the standard width evaluates like the
      board itself. */
  lemma MirrorKeepsEvaluation(b: State)
    requires b.Valid() && b.Width() == DefaultWidth
    ensures PositionalSum(Mirror(b)) == PositionalSum(b)
    ensures FitsMatrix(Mirror(b)) <==> FitsMatrix(b)
    ensures Winner(Mirror(b)) == Winner(b)
  {
    MirrorKeepsPositionalSum(b);
    MirrorKeepsFit(b);
    MirrorLines(b, Max);
    MirrorLines(b, Min);
  }

  function WeightsOf(y: int): int -> int
  {
    x => Weight(x, y)
  }

  /** The total weight of row `y` of the table. */
  function TableRow(y: int): int
  {
    Sum(0, DefaultWidth, WeightsOf(y))
  }

  function TableRowsOf(): int -> int
  {
    y => TableRow(y)
  }

  lemma WeightNonNegative(x: int, y: int)
    ensures Weight(x, y) >= 0
  {
    if InMatrix(x, y) {
      RowMatchesSpan(y);
    }
  }

  /** A sum of terms that are non-negative below `m` and zero from `m` on
      never exceeds the sum up to `m`. */
  lemma {:induction false} SumWithin(hi: int, m: int, f: int -> int)
    requires 0 <= hi && 0 <= m
    requires forall i :: 0 <= i < m ==> f(i) >= 0
    requires forall i :: m <= i ==> f(i) == 0
    ensures Sum(0, hi, f) <= Sum(0, m, f)
  {
    if hi <= m {
      SumRangeMono(0, hi, m, f);
    } else {
      SumSplit(0, m, hi, f);
      SumZero(m, hi, f);
    }
  }

  /** A row of the board sums to at most the matching row of the table, in
      either direction. */
  lemma RowSumBounded(b: State, y: int)
    requires b.Valid()
    ensures -TableRow(y) <= RowSum(b, y) <= TableRow(y)
  {
    var w := b.Width();
    var weights := WeightsOf(y);
    var cells := CellValuesOf(b, y);
    forall x ensures weights(x) >= 0 {
      WeightNonNegative(x, y);
    }
    SumMono(0, w, cells, weights);
    SumMono(0, w, (x: int) => -weights(x), cells);
    SumNegate(0, w, weights, (x: int) => -weights(x));
    SumWithin(w, DefaultWidth, weights);
  }

  /** The table's rows total 276. */
  lemma TableTotal()
    ensures Sum(0, DefaultHeight, TableRowsOf()) == 276
  {
    forall y | 0 <= y < DefaultHeight
      ensures TableRow(y) == RowTotals[y]
    {
      TableRowTotal(y);
    }
    SumSix(TableRowsOf());
  }

  /** The totals of the six rows of the weight table. */
  const RowTotals: seq<int> := [31, 46, 61, 61, 46, 31]

  /** One row at a time, for the same reason as `RowMatchesSpan`. */
  lemma TableRowTotal(y: int)
    requires 0 <= y < DefaultHeight
    ensures TableRow(y) == RowTotals[y]
  {
    SumSeven(WeightsOf(y));
  }


  lemma SumSix(f: int -> int)
    ensures Sum(0, 6, f) == f(0) + f(1) + f(2) + f(3) + f(4) + f(5)
  {
    assert Sum(5, 6, f) == f(5);
    assert Sum(3, 6, f) == f(3) + f(4) + f(5);
    assert Sum(1, 6, f) == f(1) + f(2) + f(3) + f(4) + f(5);
  }

  lemma SumSeven(f: int -> int)
    ensures Sum(0, 7, f) == f(0) + f(1) + f(2) + f(3) + f(4) + f(5) + f(6)
  {
    SumSix((i: int) => f(i + 1));
    SumShift(0, 6, f);
  }

  /** The positional sum never reaches the win value: a decided board
      always outranks an undecided one. */
  lemma PositionalSumBounded(b: State)
    requires b.Valid()
    ensures -276 <= PositionalSum(b) <= 276 < WinValue
  {
    var rows := RowSumsOf(b);
    var table := TableRowsOf();
    forall y | 0 <= y < b.Height()
      ensures -table(y) <= rows(y) <= table(y)
    {
      RowSumBounded(b, y);
    }
    forall y ensures table(y) >= 0 {
      forall x ensures WeightsOf(y)(x) >= 0 {
        WeightNonNegative(x, y);
      }
      SumNonNegative(0, DefaultWidth, WeightsOf(y));
    }
    forall y | DefaultHeight <= y ensures table(y) == 0 {
      SumZero(0, DefaultWidth, WeightsOf(y));
    }
    SumMono(0, b.Height(), rows, table);
    SumMono(0, b.Height(), (y: int) => -table(y), rows);
    SumNegate(0, b.Height(), table, (y: int) => -table(y));
    SumWithin(b.Height(), DefaultHeight, table);
    TableTotal();
  }
}
