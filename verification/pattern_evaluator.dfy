/** `BruteForceConnectFourStateEvaluatorFunction`: counts, for each pattern
    length, the windows of one colour along four axes, and turns the two
    colours' count tables into a score. The counts are given by reference
    definitions over index ranges (`AxisCount`, `PatternCount`); the loop
    methods are proved to compute them. */
module BruteForceEvaluator {
  import opened Wrappers
  import opened PlayerColors
  import opened Board
  import opened Lines
  import opened Counting

  const NegativeWinValue := -1_000_000_000
  const PositiveWinValue := 1_000_000_000

  /** The evaluator keeps the pattern length up to which it counts the
      minimizing player's patterns. The weight matrix it also builds is
      never read by `evaluate`. */
  datatype Evaluator = Evaluator(winningLength: int)

  /** The four scans of `findPatternCount`. Descending windows run down and
      to the right from their start, ascending ones up and to the right. */
  datatype Axis = Horizontal | Vertical | Ascending | Descending

  /** Every cell of column `x` from row `y` down to the bottom is occupied:
      the vertical scan gives up on a column at its first empty cell. */
  predicate FilledBelow(b: State, x: int, y: int)
  {
    && b.Valid() && 0 <= x < b.Width() && 0 <= y
    && forall y' :: y <= y' < b.Height() ==> b.grid[y'][x] != None
  }

  /** Whether the scan of axis `a` counts the window of length `n` it tries
      at outer index `o` and inner index `i`. Horizontal and ascending scans
      take `o` as the row and `i` as the column; the vertical scan takes `o`
      as the column and `i` as the bottom row of the window; the descending
      scan takes `o` as the top row and `i` as the left column. */
  predicate Window(b: State, p: Color, n: int, a: Axis, o: int, i: int)
  {
    b.Valid() &&
    match a
    case Horizontal => Along(b, Right, i, o, 0) != None && RunRight(b, p, n, i, o)
    case Vertical => FilledBelow(b, o, i) && RunUp(b, p, n, o, i)
    case Ascending => RunUpRight(b, p, n, i, o)
    case Descending => Run(b, p, DownRight, n, i, o)
  }

  /** Outer loop range of each scan, `[OuterLo, OuterHi)`. */
  function OuterLo(b: State, a: Axis): int
  {
    match a
    case Ascending => b.Height() - b.winningLength + 1
    case _ => 0
  }

  function OuterHi(b: State, a: Axis): int
  {
    match a
    case Horizontal => b.Height()
    case Vertical => b.Width()
    case Ascending => b.Height()
    case Descending => b.winningLength - 1
  }

  /** Inner loop range of each scan, `[InnerLo, InnerHi)`. Only the
      horizontal scan bounds its starts by the pattern length; the others
      use the board's winning length. */
  function InnerLo(b: State, a: Axis): int
  {
    match a
    case Vertical => b.Height() - b.winningLength + 1
    case _ => 0
  }

  function InnerHi(b: State, n: int, a: Axis): int
  {
    match a
    case Horizontal => b.Width() - n + 1
    case Vertical => b.Height()
    case _ => b.Width() - b.winningLength + 1
  }

  function WindowsOf(b: State, p: Color, n: int, a: Axis, o: int): int -> bool
  {
    i => Window(b, p, n, a, o, i)
  }

  /** The windows one pass of the inner loop counts. */
  function LineCount(b: State, p: Color, n: int, a: Axis, o: int): nat
  {
    Count(InnerLo(b, a), InnerHi(b, n, a), WindowsOf(b, p, n, a, o))
  }

  function LineCountsOf(b: State, p: Color, n: int, a: Axis): int -> int
  {
    o => LineCount(b, p, n, a, o)
  }

  /** What one `find...PatternCount` scan returns. */
  function AxisCount(b: State, p: Color, n: int, a: Axis): int
  {
    Sum(OuterLo(b, a), OuterHi(b, a), LineCountsOf(b, p, n, a))
  }

  /** What `findPatternCount` returns: the four scans added up. */
  function PatternCount(b: State, p: Color, n: int): int
  {
    AxisCount(b, p, n, Horizontal) + AxisCount(b, p, n, Vertical)
    + AxisCount(b, p, n, Ascending) + AxisCount(b, p, n, Descending)
  }

  /** The innermost loop of every scan: the `n` cells from `(x, y)` along `d`
      are compared with `p`, leaving at the first mismatch. */
  method Matches(b: State, p: Color, d: Direction, n: int, x: int, y: int) returns (m: bool)
    requires b.Valid() && 1 <= n
    requires OnBoard(b, x, y) && OnBoard(b, StepX(d, x, n - 1), StepY(d, y, n - 1))
    ensures m <==> Run(b, p, d, n, x, y)
  {
    var i := 0;
    while i < n
      invariant 0 <= i <= n
      invariant forall k :: 0 <= k < i ==> Along(b, d, x, y, k) == Some(p)
    {
      var cx := StepX(d, x, i);
      var cy := StepY(d, y, i);
      assert OnBoard(b, cx, cy);
      if b.grid[cy][cx] != Some(p) {
        assert Along(b, d, x, y, i) != Some(p);
        return false;
      }
      i := i + 1;
    }
    return true;
  }

  /** `findHorizontalPatternCount`. */
  method HorizontalPatternCount(b: State, p: Color, n: int) returns (count: int)
    requires b.Valid() && 1 <= n
    ensures count == AxisCount(b, p, n, Horizontal)
  {
    var lines := LineCountsOf(b, p, n, Horizontal);
    count := 0;
    var y := b.Height() - 1;
    while y >= 0
      invariant -1 <= y < b.Height()
      invariant count == Sum(y + 1, b.Height(), lines)
    {
      var c := HorizontalRowCount(b, p, n, y);
      assert count + c == Sum(y, b.Height(), lines) by {
        SumPeelLow(y, b.Height(), lines);
      }
      count := count + c;
      y := y - 1;
    }
  }
  /** One pass of the inner loop of `findHorizontalPatternCount`: the
      occupied start cells of row `y` whose `n`-cell window holds only `p`. */
  method HorizontalRowCount(b: State, p: Color, n: int, y: int) returns (count: int)
    requires b.Valid() && 1 <= n && 0 <= y < b.Height()
    ensures count == LineCount(b, p, n, Horizontal, y)
  {
    var windows := WindowsOf(b, p, n, Horizontal, y);
    count := 0;
    var x := 0;
    while x <= b.Width() - n
      invariant 0 <= x && (x <= b.Width() - n + 1 || x == 0)
      invariant count == Count(0, x, windows)
    {
      if b.grid[y][x] != None {
        var m := Matches(b, p, Right, n, x, y);
        if m {
          count := count + 1;
        }
      }
      CountPeelHigh(0, x + 1, windows);
      x := x + 1;
    }
  }


  /** `findVerticalPatternCount`. */
  method VerticalPatternCount(b: State, p: Color, n: int) returns (count: int)
    requires b.Valid() && 1 <= n && b.winningLength + n <= b.Height() + 2
    ensures count == AxisCount(b, p, n, Vertical)
  {
    var lines := LineCountsOf(b, p, n, Vertical);
    count := 0;
    var x := 0;
    while x < b.Width()
      invariant 0 <= x <= b.Width()
      invariant count == Sum(0, x, lines)
    {
      var c := ColumnPatternCount(b, p, n, x);
      count := count + c;
      SumPeelHigh(0, x + 1, lines);
      x := x + 1;
    }
  }

  /** One column of `findVerticalPatternCount`: the windows are tried bottom
      row first, and the first empty cell ends the column (`continue outer`). */
  method ColumnPatternCount(b: State, p: Color, n: int, x: int) returns (count: int)
    requires b.Valid() && 1 <= n && b.winningLength + n <= b.Height() + 2
    requires 0 <= x < b.Width()
    ensures count == LineCount(b, p, n, Vertical, x)
  {
    var windows := WindowsOf(b, p, n, Vertical, x);
    var h := b.Height();
    var lo := h - b.winningLength + 1;
    count := 0;
    var y := h - 1;
    while y > h - b.winningLength
      invariant lo - 1 <= y <= h - 1
      invariant FilledBelow(b, x, y + 1)
      invariant count == Count(y + 1, h, windows)
    {
      if b.grid[y][x] == None {
        EmptyCellEndsColumn(b, p, n, x, y);
        return;
      }
      var m := Matches(b, p, Up, n, x, y);
      assert Count(y, h, windows) == (if m then 1 else 0) + Count(y + 1, h, windows) by {
        assert FilledBelow(b, x, y);
      }
      if m {
        count := count + 1;
      }
      y := y - 1;
    }
    assert y + 1 == InnerLo(b, Vertical);
  }

  /** No window at or above an empty cell is counted. */
  lemma EmptyCellEndsColumn(b: State, p: Color, n: int, x: int, y: int)
    requires b.Valid() && 0 <= x < b.Width() && 0 <= y < b.Height()
    requires b.grid[y][x] == None
    requires b.Height() - b.winningLength + 1 <= y + 1
    ensures LineCount(b, p, n, Vertical, x) == Count(y + 1, b.Height(), WindowsOf(b, p, n, Vertical, x))
  {
    var windows := WindowsOf(b, p, n, Vertical, x);
    var lo := b.Height() - b.winningLength + 1;
    forall i | lo <= i < y + 1
      ensures !windows(i)
    {
      assert b.grid[y][x] == None;
    }
    CountNone(lo, y + 1, windows);
    CountSplit(lo, y + 1, b.Height(), windows);
  }

  /** `findAscendingDiagonalPatternCount`. */
  method AscendingPatternCount(b: State, p: Color, n: int) returns (count: int)
    requires b.Valid() && 1 <= n <= b.winningLength && b.winningLength + n <= b.Height() + 2
    ensures count == AxisCount(b, p, n, Ascending)
  {
    var lines := LineCountsOf(b, p, n, Ascending);
    var h := b.Height();
    count := 0;
    var y := h - 1;
    while y > h - b.winningLength
      invariant h - b.winningLength <= y <= h - 1
      invariant count == Sum(y + 1, h, lines)
    {
      var c := AscendingRowCount(b, p, n, y);
      assert count + c == Sum(y, h, lines) by {
        SumPeelLow(y, h, lines);
      }
      count := count + c;
      y := y - 1;
    }
    assert y + 1 == OuterLo(b, Ascending);
  }

  /** One row of `findAscendingDiagonalPatternCount`: every start column
      that leaves room for a full winning line is tried. */
  method AscendingRowCount(b: State, p: Color, n: int, y: int) returns (count: int)
    requires b.Valid() && 1 <= n <= b.winningLength && b.winningLength + n <= b.Height() + 2
    requires b.Height() - b.winningLength < y < b.Height()
    ensures count == LineCount(b, p, n, Ascending, y)
  {
    var windows := WindowsOf(b, p, n, Ascending, y);
    count := 0;
    var x := 0;
    while x <= b.Width() - b.winningLength
      invariant 0 <= x && (x <= b.Width() - b.winningLength + 1 || x == 0)
      invariant count == Count(0, x, windows)
    {
      var m := Matches(b, p, UpRight, n, x, y);
      if m {
        count := count + 1;
      }
      CountPeelHigh(0, x + 1, windows);
      x := x + 1;
    }
  }

  /** `findDescendingDiagonalPatternCount`. */
  method DescendingPatternCount(b: State, p: Color, n: int) returns (count: int)
    requires b.Valid() && 1 <= n <= b.winningLength && b.winningLength + n <= b.Height() + 2
    ensures count == AxisCount(b, p, n, Descending)
  {
    var lines := LineCountsOf(b, p, n, Descending);
    count := 0;
    var y := 0;
    while y < b.winningLength - 1
      invariant 0 <= y <= b.winningLength - 1
      invariant count == Sum(0, y, lines)
    {
      var c := DescendingRowCount(b, p, n, y);
      count := count + c;
      SumPeelHigh(0, y + 1, lines);
      y := y + 1;
    }
  }

  /** One row of `findDescendingDiagonalPatternCount`: every start column
      that leaves room for a full winning line is tried. */
  method DescendingRowCount(b: State, p: Color, n: int, y: int) returns (count: int)
    requires b.Valid() && 1 <= n <= b.winningLength && b.winningLength + n <= b.Height() + 2
    requires 0 <= y < b.winningLength - 1
    ensures count == LineCount(b, p, n, Descending, y)
  {
    var windows := WindowsOf(b, p, n, Descending, y);
    count := 0;
    var x := 0;
    while x <= b.Width() - b.winningLength
      invariant 0 <= x && (x <= b.Width() - b.winningLength + 1 || x == 0)
      invariant count == Count(0, x, windows)
    {
      var m := Matches(b, p, DownRight, n, x, y);
      if m {
        count := count + 1;
      }
      CountPeelHigh(0, x + 1, windows);
      x := x + 1;
    }
  }

  /** `findPatternCount`. */
  method FindPatternCount(b: State, p: Color, n: int) returns (count: int)
    requires b.Valid() && 1 <= n <= b.winningLength && b.winningLength + n <= b.Height() + 2
    ensures count == PatternCount(b, p, n)
  {
    count := 0;
    var c := HorizontalPatternCount(b, p, n);
    count := count + c;
    c := VerticalPatternCount(b, p, n);
    count := count + c;
    c := AscendingPatternCount(b, p, n);
    count := count + c;
    c := DescendingPatternCount(b, p, n);
    count := count + c;
  }

  /** `Math.pow(10, k)`, exact. */
  function Pow10(k: nat): (r: int)
    ensures r >= 1
  {
    if k == 0 then 1 else 10 * Pow10(k - 1)
  }

  /** The value `computeBaseScore` starts from: a full-length pattern of the
      maximizing player overrides one of the minimizing player. */
  function WinBase(minCounts: seq<int>, maxCounts: seq<int>): int
    requires 1 <= |minCounts| <= |maxCounts|
  {
    var top := |minCounts| - 1;
    if maxCounts[top] != 0 then PositiveWinValue
    else if minCounts[top] != 0 then NegativeWinValue
    else 0
  }

  /** What length `length` adds to the score: ten to the length for each
      maximizing pattern, minus as much for each minimizing one. */
  function Weighted(minCounts: seq<int>, maxCounts: seq<int>): int -> int
  {
    length =>
      if 0 <= length < |minCounts| && length < |maxCounts|
      then (maxCounts[length] - minCounts[length]) * Pow10(length)
      else 0
  }

  /** The score of two count tables, the last index of the minimizing table
      being the winning length. Lengths 2 up to and including it are weighed. */
  function BaseScore(minCounts: seq<int>, maxCounts: seq<int>): int
    requires 1 <= |minCounts| <= |maxCounts|
  {
    WinBase(minCounts, maxCounts) + Sum(2, |minCounts|, Weighted(minCounts, maxCounts))
  }

  /** `computeBaseScore`. */
  method ComputeBaseScore(minCounts: seq<int>, maxCounts: seq<int>) returns (value: int)
    requires 1 <= |minCounts| <= |maxCounts|
    ensures value == BaseScore(minCounts, maxCounts)
  {
    var weighted := Weighted(minCounts, maxCounts);
    var top := |minCounts| - 1;
    value := 0;
    if minCounts[top] != 0 {
      value := NegativeWinValue;
    }
    if maxCounts[top] != 0 {
      value := PositiveWinValue;
    }
    var length := 2;
    while length < |minCounts|
      invariant 2 <= length && (length <= |minCounts| || length == 2)
      invariant value == WinBase(minCounts, maxCounts) + Sum(2, length, weighted)
    {
      var minimizingCount := minCounts[length];
      value := value - minimizingCount * Pow10(length);
      var maximizingCount := maxCounts[length];
      value := value + maximizingCount * Pow10(length);
      SumPeelHigh(2, length + 1, weighted);
      length := length + 1;
    }
  }

  /** The count table `evaluate` would fill if it never stopped early:
      entry `i` is the pattern count of length `i` for `2 <= i <= top`. */
  function CountTable(b: State, p: Color, top: int): (t: seq<int>)
    requires b.Valid()
    ensures |t| == b.winningLength + 1
  {
    seq(b.winningLength + 1, i => if 2 <= i <= top then PatternCount(b, p, i) else 0)
  }

  /** The score of a board: the minimizing table runs up to the evaluator's
      winning length, the maximizing one up to the board's. */
  function Score(ev: Evaluator, b: State): int
    requires b.Valid()
  {
    BaseScore(CountTable(b, Min, ev.winningLength), CountTable(b, Max, b.winningLength))
  }

  /** `evaluate`: each table is filled until the first length with no
      pattern. Since no longer pattern can exist then, the early stop gives
      the score of the full tables. */
  method Evaluate(ev: Evaluator, b: State) returns (score: int)
    requires b.Valid()
    requires ev.winningLength <= b.winningLength
    requires 2 * b.winningLength <= b.Height() + 2
    ensures score == Score(ev, b)
  {
    var minCounts := FillTable(b, Min, ev.winningLength);
    var maxCounts := FillTable(b, Max, b.winningLength);
    score := ComputeBaseScore(minCounts, maxCounts);
  }

  /** One of the two loops of `evaluate`: lengths from 2 up to `top`, leaving
      at the first length with no pattern. */
  method FillTable(b: State, p: Color, top: int) returns (counts: seq<int>)
    requires b.Valid()
    requires top <= b.winningLength
    requires 2 * b.winningLength <= b.Height() + 2
    ensures counts == CountTable(b, p, top)
  {
    var n := b.winningLength;
    counts := seq(n + 1, _ => 0);
    var length := 2;
    while length <= top
      invariant 2 <= length && (length <= top + 1 || length == 2)
      invariant |counts| == n + 1
      invariant forall i :: 0 <= i <= n ==> counts[i] == (if 2 <= i < length then PatternCount(b, p, i) else 0)
    {
      var count := FindPatternCount(b, p, length);
      if count == 0 {
        PatternCountStaysZero(b, p, length);
        break;
      }
      counts := counts[length := count];
      length := length + 1;
    }
  }

  lemma AxisCountNonNegative(b: State, p: Color, n: int, a: Axis)
    ensures AxisCount(b, p, n, a) >= 0
  {
    SumNonNegative(OuterLo(b, a), OuterHi(b, a), LineCountsOf(b, p, n, a));
  }

  /** A window of length `n + 1` that is counted contains one of length `n`
      that is counted, and no scan tries more starts for the longer length. */
  lemma AxisCountMonotone(b: State, p: Color, n: int, a: Axis)
    requires 1 <= n
    ensures AxisCount(b, p, n + 1, a) <= AxisCount(b, p, n, a)
  {
    var longer := LineCountsOf(b, p, n + 1, a);
    var shorter := LineCountsOf(b, p, n, a);
    forall o | OuterLo(b, a) <= o < OuterHi(b, a)
      ensures longer(o) <= shorter(o)
    {
      var w1 := WindowsOf(b, p, n + 1, a, o);
      var w0 := WindowsOf(b, p, n, a, o);
      forall i | InnerLo(b, a) <= i < InnerHi(b, n + 1, a) && w1(i)
        ensures w0(i)
      {
      }
      CountMono(InnerLo(b, a), InnerHi(b, n + 1, a), w1, w0);
      CountRangeMono(InnerLo(b, a), InnerHi(b, n + 1, a), InnerHi(b, n, a), w0);
    }
    SumMono(OuterLo(b, a), OuterHi(b, a), longer, shorter);
  }

  /** Pattern counts never grow with the pattern length. */
  lemma PatternCountMonotone(b: State, p: Color, n: int)
    requires 1 <= n
    ensures 0 <= PatternCount(b, p, n + 1) <= PatternCount(b, p, n)
  {
    AxisCountMonotone(b, p, n, Horizontal);
    AxisCountMonotone(b, p, n, Vertical);
    AxisCountMonotone(b, p, n, Ascending);
    AxisCountMonotone(b, p, n, Descending);
    AxisCountNonNegative(b, p, n + 1, Horizontal);
    AxisCountNonNegative(b, p, n + 1, Vertical);
    AxisCountNonNegative(b, p, n + 1, Ascending);
    AxisCountNonNegative(b, p, n + 1, Descending);
  }

  /** Once no pattern of some length exists, no longer one does: the
      reasoning behind the early `break` in `evaluate`. */
  lemma PatternCountStaysZero(b: State, p: Color, n: int)
    requires 1 <= n && PatternCount(b, p, n) == 0
    ensures forall m :: n <= m ==> PatternCount(b, p, m) == 0
  {
    forall m | n <= m
      ensures PatternCount(b, p, m) == 0
    {
      PatternCountZeroUpTo(b, p, n, m);
    }
  }

  lemma PatternCountZeroUpTo(b: State, p: Color, n: int, m: int)
    requires 1 <= n <= m && PatternCount(b, p, n) == 0
    ensures PatternCount(b, p, m) == 0
  {
    AxisCountNonNegative(b, p, n, Horizontal);
    AxisCountNonNegative(b, p, n, Vertical);
    AxisCountNonNegative(b, p, n, Ascending);
    AxisCountNonNegative(b, p, n, Descending);
    AxisCountZeroUpTo(b, p, n, m, Horizontal);
    AxisCountZeroUpTo(b, p, n, m, Vertical);
    AxisCountZeroUpTo(b, p, n, m, Ascending);
    AxisCountZeroUpTo(b, p, n, m, Descending);
  }

  /** The same for one axis. */
  lemma {:induction false} AxisCountZeroUpTo(b: State, p: Color, n: int, m: int, a: Axis)
    requires 1 <= n <= m && AxisCount(b, p, n, a) == 0
    ensures AxisCount(b, p, m, a) == 0
    decreases m - n
  {
    if n < m {
      AxisCountMonotone(b, p, n, a);
      AxisCountNonNegative(b, p, n + 1, a);
      AxisCountZeroUpTo(b, p, n + 1, m, a);
    }
  }



  /** An empty board has no pattern of any positive length. */
  lemma EmptyBoardHasNoPattern(b: State, p: Color, n: int)
    requires b.Valid() && b.IsEmpty() && 1 <= n
    ensures PatternCount(b, p, n) == 0
  {
    forall a: Axis
      ensures AxisCount(b, p, n, a) == 0
    {
      var lines := LineCountsOf(b, p, n, a);
      forall o | OuterLo(b, a) <= o < OuterHi(b, a)
        ensures lines(o) == 0
      {
        var windows := WindowsOf(b, p, n, a, o);
        forall i | InnerLo(b, a) <= i < InnerHi(b, n, a)
          ensures !windows(i)
        {
          var d := match a
                   case Horizontal => Right
                   case Vertical => Up
                   case Ascending => UpRight
                   case Descending => DownRight;
          var x := if a == Vertical then o else i;
          var y := if a == Vertical then i else o;
          if Run(b, p, d, n, x, y) {
            RunStartsOnBoard(b, p, d, n, x, y);
          }
        }
        CountNone(InnerLo(b, a), InnerHi(b, n, a), windows);
      }
      SumZero(OuterLo(b, a), OuterHi(b, a), lines);
    }
  }

  /** The score of an empty board is zero, whatever the evaluator. */
  lemma EmptyBoardScoresZero(ev: Evaluator, b: State)
    requires b.Valid() && b.IsEmpty()
    ensures Score(ev, b) == 0
  {
    EmptyBoardTable(b, Min, ev.winningLength);
    EmptyBoardTable(b, Max, b.winningLength);
    ZeroTablesScoreZero(CountTable(b, Min, ev.winningLength), CountTable(b, Max, b.winningLength));
  }

  /** Every entry of an empty board's count table is zero. */
  lemma EmptyBoardTable(b: State, p: Color, top: int)
    requires b.Valid() && b.IsEmpty()
    ensures forall i :: 0 <= i < |CountTable(b, p, top)| ==> CountTable(b, p, top)[i] == 0
  {
    var t := CountTable(b, p, top);
    forall i | 0 <= i < |t|
      ensures t[i] == 0
    {
      if 2 <= i {
        EmptyBoardHasNoPattern(b, p, i);
      }
    }
  }

  /** Two tables of zeros score zero. */
  lemma ZeroTablesScoreZero(minCounts: seq<int>, maxCounts: seq<int>)
    requires 1 <= |minCounts| <= |maxCounts|
    requires forall i :: 0 <= i < |minCounts| ==> minCounts[i] == 0
    requires forall i :: 0 <= i < |maxCounts| ==> maxCounts[i] == 0
    ensures BaseScore(minCounts, maxCounts) == 0
  {
    var weighted := Weighted(minCounts, maxCounts);
    forall length | 2 <= length < |minCounts|
      ensures weighted(length) == 0
    {
    }
    SumZero(2, |minCounts|, weighted);
  }

  /** Swapping the colours of every token swaps the windows the scans count. */
  lemma SwapWindow(b: State, p: Color, n: int, a: Axis, o: int, i: int)
    requires b.Valid()
    ensures Window(Swap(b), p, n, a, o, i) == Window(b, Opposite(p), n, a, o, i)
  {
    var s := Swap(b);
    SwapRuns(b, p);
    match a
    case Horizontal =>
      assert Along(s, Right, i, o, 0) == SwapCell(Along(b, Right, i, o, 0));
    case Vertical =>
      assert FilledBelow(s, o, i) == FilledBelow(b, o, i) by {
        if 0 <= o < b.Width() && 0 <= i {
          forall y' | i <= y' < b.Height()
            ensures s.grid[y'][o] != None <==> b.grid[y'][o] != None
          {
          }
        }
      }
    case Ascending =>
    case Descending =>
  }

  /** Swapping the colours swaps the two players' pattern counts. */
  lemma SwapPatternCount(b: State, p: Color, n: int)
    requires b.Valid()
    ensures PatternCount(Swap(b), p, n) == PatternCount(b, Opposite(p), n)
  {
    SwapAxisCount(b, p, n, Horizontal);
    SwapAxisCount(b, p, n, Vertical);
    SwapAxisCount(b, p, n, Ascending);
    SwapAxisCount(b, p, n, Descending);
  }

  /** One scan after the swap counts what it counted for the other colour. */
  lemma SwapAxisCount(b: State, p: Color, n: int, a: Axis)
    requires b.Valid()
    ensures AxisCount(Swap(b), p, n, a) == AxisCount(b, Opposite(p), n, a)
  {
    var swapped := LineCountsOf(Swap(b), p, n, a);
    var original := LineCountsOf(b, Opposite(p), n, a);
    forall o | OuterLo(b, a) <= o < OuterHi(b, a)
      ensures swapped(o) == original(o)
    {
      SwapLineCount(b, p, n, a, o);
    }
    SumSame(OuterLo(b, a), OuterHi(b, a), swapped, original);
  }

  /** One line of `SwapAxisCount`, split out to keep its proof small. */
  lemma SwapLineCount(b: State, p: Color, n: int, a: Axis, o: int)
    requires b.Valid()
    ensures LineCount(Swap(b), p, n, a, o) == LineCount(b, Opposite(p), n, a, o)
  {
    var ws := WindowsOf(Swap(b), p, n, a, o);
    var wb := WindowsOf(b, Opposite(p), n, a, o);
    forall i | InnerLo(b, a) <= i < InnerHi(b, n, a)
      ensures ws(i) == wb(i)
    {
      SwapWindow(b, p, n, a, o, i);
    }
    CountSame(InnerLo(b, a), InnerHi(b, n, a), ws, wb);
  }


  /** Exchanging the two tables negates the score, except that a full-length
      pattern on both sides gives the positive win value both ways. */
  lemma BaseScoreAntisymmetric(minCounts: seq<int>, maxCounts: seq<int>)
    requires 1 <= |minCounts| == |maxCounts|
    ensures var top := |minCounts| - 1;
            BaseScore(maxCounts, minCounts) + BaseScore(minCounts, maxCounts)
            == (if minCounts[top] != 0 && maxCounts[top] != 0 then 2 * PositiveWinValue else 0)
  {
    var forward := Weighted(minCounts, maxCounts);
    var backward := Weighted(maxCounts, minCounts);
    forall length | 2 <= length < |minCounts|
      ensures backward(length) == -forward(length)
    {
      var d := maxCounts[length] - minCounts[length];
      assert (-d) * Pow10(length) == -(d * Pow10(length));
    }
    SumNegate(2, |minCounts|, forward, backward);
  }

  /** Swapping the colours exchanges the two players' count tables. */
  lemma SwapCountTable(b: State, p: Color, top: int)
    requires b.Valid()
    ensures CountTable(Swap(b), p, top) == CountTable(b, Opposite(p), top)
  {
    var s := Swap(b);
    var t := CountTable(s, p, top);
    var u := CountTable(b, Opposite(p), top);
    forall i | 0 <= i < |t|
      ensures t[i] == u[i]
    {
      SwapPatternCount(b, p, i);
    }
  }

  /** A window reads the cells only, never the player to move. */
  lemma MoverWindow(b: State, c: Color, p: Color, n: int, a: Axis, o: int, i: int)
    requires b.Valid()
    ensures Window(b.(mover := c), p, n, a, o, i) == Window(b, p, n, a, o, i)
  {
    var m := b.(mover := c);
    forall d: Direction, x, y, k
      ensures Along(m, d, x, y, k) == Along(b, d, x, y, k)
    {
    }
  }

  /** No scan reads the player to move. */
  lemma MoverAxisCount(b: State, c: Color, p: Color, n: int, a: Axis)
    requires b.Valid()
    ensures AxisCount(b.(mover := c), p, n, a) == AxisCount(b, p, n, a)
  {
    var m := b.(mover := c);
    assert m.Valid() && OuterLo(m, a) == OuterLo(b, a) && OuterHi(m, a) == OuterHi(b, a);
    assert InnerLo(m, a) == InnerLo(b, a) && InnerHi(m, n, a) == InnerHi(b, n, a);
    var moved := LineCountsOf(m, p, n, a);
    var original := LineCountsOf(b, p, n, a);
    forall o | OuterLo(b, a) <= o < OuterHi(b, a)
      ensures moved(o) == original(o)
    {
      var wm := WindowsOf(m, p, n, a, o);
      var wb := WindowsOf(b, p, n, a, o);
      forall i | InnerLo(b, a) <= i < InnerHi(b, n, a)
        ensures wm(i) == wb(i)
      {
        MoverWindow(b, c, p, n, a, o, i);
      }
      CountSame(InnerLo(b, a), InnerHi(b, n, a), wm, wb);
    }
    SumSame(OuterLo(b, a), OuterHi(b, a), moved, original);
  }

  /** The pattern counts read only the cells and the winning length. */
  lemma MoverPatternCount(b: State, c: Color, p: Color, n: int)
    requires b.Valid()
    ensures PatternCount(b.(mover := c), p, n) == PatternCount(b, p, n)
  {
    MoverAxisCount(b, c, p, n, Horizontal);
    MoverAxisCount(b, c, p, n, Vertical);
    MoverAxisCount(b, c, p, n, Ascending);
    MoverAxisCount(b, c, p, n, Descending);
  }

  /** The score depends on the cells and the two winning lengths only: the
      player to move does not change it. */
  lemma ScoreIgnoresMover(ev: Evaluator, b: State, c: Color)
    requires b.Valid()
    ensures Score(ev, b.(mover := c)) == Score(ev, b)
  {
    var m := b.(mover := c);
    forall p: Color, i | 0 <= i <= b.winningLength
      ensures PatternCount(m, p, i) == PatternCount(b, p, i)
    {
      MoverPatternCount(b, c, p, i);
    }
    assert CountTable(m, Min, ev.winningLength) == CountTable(b, Min, ev.winningLength);
    assert CountTable(m, Max, b.winningLength) == CountTable(b, Max, b.winningLength);
  }

  /** With the evaluator's winning length equal to the board's, swapping the
      colours negates the score, unless both colours have a full-length
      pattern. */
  lemma SwapNegatesScore(ev: Evaluator, b: State)
    requires b.Valid() && ev.winningLength == b.winningLength
    ensures var n := b.winningLength;
            Score(ev, Swap(b)) + Score(ev, b)
            == (if PatternCount(b, Min, n) != 0 && PatternCount(b, Max, n) != 0 then 2 * PositiveWinValue else 0)
  {
    var n := b.winningLength;
    SwapNegatesTables(ev, b);
    CountTableTop(b, Min);
    CountTableTop(b, Max);
  }

  /** `SwapNegatesScore` in terms of the last entries of the count tables.
      This lemma and `AddOppositeScores` split one proof into steps, each
      small enough for the solver to check reliably. */
  lemma SwapNegatesTables(ev: Evaluator, b: State)
    requires b.Valid() && ev.winningLength == b.winningLength
    ensures var n := b.winningLength;
            Score(ev, Swap(b)) + Score(ev, b)
            == (if CountTable(b, Min, n)[n] != 0 && CountTable(b, Max, n)[n] != 0 then 2 * PositiveWinValue else 0)
  {
    var n := b.winningLength;
    var minTable := CountTable(b, Min, n);
    var maxTable := CountTable(b, Max, n);
    SwapScore(ev, b);
    AddOppositeScores(Score(ev, Swap(b)), Score(ev, b), minTable, maxTable, n);
  }

  /** `BaseScoreAntisymmetric` for two scores already known to be the base
      scores of a pair of tables in both orders. */
  lemma AddOppositeScores(swapped: int, original: int, minCounts: seq<int>, maxCounts: seq<int>, top: nat)
    requires top + 1 == |minCounts| == |maxCounts|
    requires swapped == BaseScore(maxCounts, minCounts) && original == BaseScore(minCounts, maxCounts)
    ensures swapped + original == (if minCounts[top] != 0 && maxCounts[top] != 0 then 2 * PositiveWinValue else 0)
  {
    BaseScoreAntisymmetric(minCounts, maxCounts);
  }

  /** The score of the colour-swapped board is the base score of the
      original tables taken in the other order. */
  lemma SwapScore(ev: Evaluator, b: State)
    requires b.Valid() && ev.winningLength == b.winningLength
    ensures var n := b.winningLength;
            Score(ev, Swap(b)) == BaseScore(CountTable(b, Max, n), CountTable(b, Min, n))
  {
    var n := b.winningLength;
    SwapCountTable(b, Min, n);
    SwapCountTable(b, Max, n);
  }

  /** The last entry of a full count table is the full-length pattern count. */
  lemma CountTableTop(b: State, p: Color)
    requires b.Valid()
    ensures CountTable(b, p, b.winningLength)[b.winningLength] == PatternCount(b, p, b.winningLength)
  {
  }

  /** A counted window of full length is a winning line. */
  lemma FullPatternIsLine(b: State, p: Color)
    requires b.Valid() && PatternCount(b, p, b.winningLength) > 0
    ensures HasLine(b, p)
  {
    var n := b.winningLength;
    var a: Axis :| AxisCount(b, p, n, a) > 0;
    var o := SumWitness(OuterLo(b, a), OuterHi(b, a), LineCountsOf(b, p, n, a));
    var i := CountWitness(InnerLo(b, a), InnerHi(b, n, a), WindowsOf(b, p, n, a, o));
    WindowIsLine(b, p, a, o, i);
  }

  /** A window of the full winning length that a scan counts is a line. */
  lemma WindowIsLine(b: State, p: Color, a: Axis, o: int, i: int)
    requires b.Valid() && Window(b, p, b.winningLength, a, o, i)
    ensures HasLine(b, p)
  {
    var n := b.winningLength;
    match a
    case Horizontal =>
      RunStartsOnBoard(b, p, Right, n, i, o);
      assert RunRight(b, p, n, i, o);
    case Vertical =>
      RunStartsOnBoard(b, p, Up, n, o, i);
      assert RunUp(b, p, n, o, i);
    case Ascending =>
      RunStartsOnBoard(b, p, UpRight, n, i, o);
      assert RunUpRight(b, p, n, i, o);
    case Descending =>
      DownRightIsUpLeft(b, p, n, i, o);
      RunStartsOnBoard(b, p, UpLeft, n, i + n - 1, o + n - 1);
      assert RunUpLeft(b, p, n, i + n - 1, o + n - 1);
  }


  /** A window the scan of axis `a` tries and counts makes that axis count positive. */
  lemma CountedWindow(b: State, p: Color, n: int, a: Axis, o: int, i: int)
    requires OuterLo(b, a) <= o < OuterHi(b, a) && InnerLo(b, a) <= i < InnerHi(b, n, a)
    requires Window(b, p, n, a, o, i)
    ensures PatternCount(b, p, n) > 0
  {
    CountPositive(InnerLo(b, a), InnerHi(b, n, a), WindowsOf(b, p, n, a, o), i);
    SumPositive(OuterLo(b, a), OuterHi(b, a), LineCountsOf(b, p, n, a), o);
    AxisCountNonNegative(b, p, n, Horizontal);
    AxisCountNonNegative(b, p, n, Vertical);
    AxisCountNonNegative(b, p, n, Ascending);
    AxisCountNonNegative(b, p, n, Descending);
  }

  /** On a board of height `2 * winningLength - 2` (the standard 7-by-6 board
      with runs of 4 among them) that obeys gravity, the scans try every
      place a winning line can lie, so a full-length pattern exists exactly
      when the colour has a line. On other heights the vertical and diagonal
      scans only look at a band of rows. */
  lemma FullPatternIffLine(b: State, p: Color)
    requires b.Valid() && b.Gravity()
    requires b.Height() == 2 * b.winningLength - 2
    ensures PatternCount(b, p, b.winningLength) > 0 <==> HasLine(b, p)
  {
    if PatternCount(b, p, b.winningLength) > 0 {
      FullPatternIsLine(b, p);
    }
    if HasHorizontal(b, p) {
      HorizontalLineCounted(b, p);
    } else if HasVertical(b, p) {
      VerticalLineCounted(b, p);
    } else if HasUpRight(b, p) {
      AscendingLineCounted(b, p);
    } else if HasUpLeft(b, p) {
      DescendingLineCounted(b, p);
    }
  }

  lemma HorizontalLineCounted(b: State, p: Color)
    requires b.Valid() && HasHorizontal(b, p)
    ensures PatternCount(b, p, b.winningLength) > 0
  {
    var n := b.winningLength;
    var x, y :| 0 <= x < b.Width() && 0 <= y < b.Height() && RunRight(b, p, n, x, y);
    RunEnds(b, p, Right, n, x, y);
    CountedWindow(b, p, n, Horizontal, y, x);
  }

  lemma VerticalLineCounted(b: State, p: Color)
    requires b.Valid() && b.Gravity() && HasVertical(b, p)
    requires b.Height() == 2 * b.winningLength - 2
    ensures PatternCount(b, p, b.winningLength) > 0
  {
    var n := b.winningLength;
    var x, y :| 0 <= x < b.Width() && 0 <= y < b.Height() && RunUp(b, p, n, x, y);
    RunEnds(b, p, Up, n, x, y);
    RunStartsOnBoard(b, p, Up, n, x, y);
    assert FilledBelow(b, x, y);
    CountedWindow(b, p, n, Vertical, x, y);
  }

  lemma AscendingLineCounted(b: State, p: Color)
    requires b.Valid() && HasUpRight(b, p)
    requires b.Height() == 2 * b.winningLength - 2
    ensures PatternCount(b, p, b.winningLength) > 0
  {
    var n := b.winningLength;
    var x, y :| 0 <= x < b.Width() && 0 <= y < b.Height() && RunUpRight(b, p, n, x, y);
    RunEnds(b, p, UpRight, n, x, y);
    CountedWindow(b, p, n, Ascending, y, x);
  }

  lemma DescendingLineCounted(b: State, p: Color)
    requires b.Valid() && HasUpLeft(b, p)
    requires b.Height() == 2 * b.winningLength - 2
    ensures PatternCount(b, p, b.winningLength) > 0
  {
    var n := b.winningLength;
    var x, y :| 0 <= x < b.Width() && 0 <= y < b.Height() && RunUpLeft(b, p, n, x, y);
    RunEnds(b, p, UpLeft, n, x, y);
    DownRightIsUpLeft(b, p, n, x - n + 1, y - n + 1);
    CountedWindow(b, p, n, Descending, y - n + 1, x - n + 1);
  }
}
