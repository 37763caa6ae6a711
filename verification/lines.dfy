/** Runs of same-coloured cells and the winning-line predicate that the
    victory scans of `ConnectFourState` decide. Every run predicate includes
    its own bounds, so a run never leaves the board. */
module Lines {
  import opened Wrappers
  import opened PlayerColors
  import opened Board

  /** The directions in which the scans walk a run. */
  datatype Direction = Right | Up | UpRight | UpLeft | DownRight

  /** Column of the `k`-th cell from column `x` along `d`. */
  function StepX(d: Direction, x: int, k: int): int
  {
    match d
    case Right => x + k
    case Up => x
    case UpRight => x + k
    case UpLeft => x - k
    case DownRight => x + k
  }

  /** Row of the `k`-th cell from row `y` along `d` (row 0 is the top). */
  function StepY(d: Direction, y: int, k: int): int
  {
    match d
    case Right => y
    case Up => y - k
    case UpRight => y - k
    case UpLeft => y - k
    case DownRight => y + k
  }

  predicate OnBoard(b: State, x: int, y: int)
  {
    0 <= x < b.Width() && 0 <= y < b.Height()
  }

  /** The `k`-th cell from `(x, y)` along `d`; off the board it reads as empty. */
  function Along(b: State, d: Direction, x: int, y: int, k: int): Cell
    requires b.Valid()
  {
    if OnBoard(b, StepX(d, x, k), StepY(d, y, k)) then b.grid[StepY(d, y, k)][StepX(d, x, k)] else None
  }

  /** The `n` cells from `(x, y)` along `d` lie on the board and all hold `p`. */
  predicate Run(b: State, p: Color, d: Direction, n: int, x: int, y: int)
    requires b.Valid()
  {
    forall k :: 0 <= k < n ==> Along(b, d, x, y, k) == Some(p)
  }

  predicate RunRight(b: State, p: Color, n: int, x: int, y: int)
    requires b.Valid()
  {
    Run(b, p, Right, n, x, y)
  }

  predicate RunUp(b: State, p: Color, n: int, x: int, y: int)
    requires b.Valid()
  {
    Run(b, p, Up, n, x, y)
  }

  predicate RunUpRight(b: State, p: Color, n: int, x: int, y: int)
    requires b.Valid()
  {
    Run(b, p, UpRight, n, x, y)
  }

  predicate RunUpLeft(b: State, p: Color, n: int, x: int, y: int)
    requires b.Valid()
  {
    Run(b, p, UpLeft, n, x, y)
  }

  predicate HasHorizontal(b: State, p: Color)
    requires b.Valid()
  {
    exists x, y | 0 <= x < b.Width() && 0 <= y < b.Height() :: RunRight(b, p, b.winningLength, x, y)
  }

  predicate HasVertical(b: State, p: Color)
    requires b.Valid()
  {
    exists x, y | 0 <= x < b.Width() && 0 <= y < b.Height() :: RunUp(b, p, b.winningLength, x, y)
  }

  predicate HasUpRight(b: State, p: Color)
    requires b.Valid()
  {
    exists x, y | 0 <= x < b.Width() && 0 <= y < b.Height() :: RunUpRight(b, p, b.winningLength, x, y)
  }

  predicate HasUpLeft(b: State, p: Color)
    requires b.Valid()
  {
    exists x, y | 0 <= x < b.Width() && 0 <= y < b.Height() :: RunUpLeft(b, p, b.winningLength, x, y)
  }

  /** Some run of `winningLength` cells along one of the four axes holds `p`. */
  predicate HasLine(b: State, p: Color)
    requires b.Valid()
  {
    HasHorizontal(b, p) || HasVertical(b, p) || HasUpRight(b, p) || HasUpLeft(b, p)
  }

  /** The colour `checkVictory()` reports: MAX takes precedence over MIN. */
  function Winner(b: State): Option<Color>
    requires b.Valid()
  {
    if HasLine(b, Max) then Some(Max)
    else if HasLine(b, Min) then Some(Min)
    else None
  }

  /** The number of consecutive cells holding `p` that end just before index `i`. */
  function TrailingRun(s: seq<Cell>, p: Color, i: int): (r: nat)
    requires 0 <= i <= |s|
    ensures r <= i
  {
    if i == 0 || s[i - 1] != Some(p) then 0 else 1 + TrailingRun(s, p, i - 1)
  }

  /** The cells counted by `TrailingRun` all hold `p`. */
  lemma {:induction false} TrailingRunHolds(s: seq<Cell>, p: Color, i: int)
    requires 0 <= i <= |s|
    ensures forall k :: i - TrailingRun(s, p, i) <= k < i ==> s[k] == Some(p)
  {
    if i > 0 && s[i - 1] == Some(p) {
      TrailingRunHolds(s, p, i - 1);
    }
  }

  /** A block of `p` cells ending at `hi` is covered by the trailing run. */
  lemma {:induction false} TrailingRunCovers(s: seq<Cell>, p: Color, lo: int, hi: int)
    requires 0 <= lo <= hi <= |s|
    requires forall k :: lo <= k < hi ==> s[k] == Some(p)
    ensures TrailingRun(s, p, hi) >= hi - lo
  {
    if lo < hi {
      TrailingRunCovers(s, p, lo, hi - 1);
    }
  }

  /** Column `x` read bottom-up, the order the vertical scan walks it. */
  function ColumnUp(b: State, x: int): (col: seq<Cell>)
    requires b.Valid()
    requires 0 <= x < b.Width()
    ensures |col| == b.Height()
    ensures forall i :: 0 <= i < b.Height() ==> col[i] == b.grid[b.Height() - 1 - i][x]
  {
    seq(b.Height(), i requires 0 <= i < b.Height() => b.grid[b.Height() - 1 - i][x])
  }

  /** A run of positive length starts with the cell `(x, y)` itself. */
  lemma RunStartsOnBoard(b: State, p: Color, d: Direction, n: int, x: int, y: int)
    requires b.Valid() && 1 <= n
    requires Run(b, p, d, n, x, y)
    ensures OnBoard(b, x, y) && b.grid[y][x] == Some(p)
  {
    assert Along(b, d, x, y, 0) == Some(p);
  }

  /** A run of positive length lies between its two end cells. */
  lemma RunEnds(b: State, p: Color, d: Direction, n: int, x: int, y: int)
    requires b.Valid() && 1 <= n
    requires Run(b, p, d, n, x, y)
    ensures OnBoard(b, x, y)
    ensures OnBoard(b, StepX(d, x, n - 1), StepY(d, y, n - 1))
  {
    assert Along(b, d, x, y, 0) == Some(p);
    assert Along(b, d, x, y, n - 1) == Some(p);
  }

  /** A run read down and to the right is the same cells as the run read
      up and to the left from its far end. */
  lemma DownRightIsUpLeft(b: State, p: Color, n: int, x: int, y: int)
    requires b.Valid()
    ensures Run(b, p, DownRight, n, x, y) <==> RunUpLeft(b, p, n, x + n - 1, y + n - 1)
  {
    var x' := x + n - 1;
    var y' := y + n - 1;
    if Run(b, p, DownRight, n, x, y) {
      forall k | 0 <= k < n
        ensures Along(b, UpLeft, x', y', k) == Some(p)
      {
        assert Along(b, DownRight, x, y, n - 1 - k) == Some(p);
      }
    }
    if RunUpLeft(b, p, n, x', y') {
      forall k | 0 <= k < n
        ensures Along(b, DownRight, x, y, k) == Some(p)
      {
        assert Along(b, UpLeft, x', y', n - 1 - k) == Some(p);
      }
    }
  }

  /** A freshly constructed board has no line for either colour. */
  lemma EmptyBoardHasNoLine(b: State, p: Color)
    requires b.Valid() && b.IsEmpty()
    ensures !HasLine(b, p)
  {
    forall d, x, y | Run(b, p, d, b.winningLength, x, y)
      ensures false
    {
      RunStartsOnBoard(b, p, d, b.winningLength, x, y);
    }
  }

  /** `checkVictory()` on the result of the constructor reports no winner. */
  lemma CreateHasNoWinner(width: int, height: int, winningLength: int, owner: Option<Color>)
    requires Create(width, height, winningLength, owner).Success?
    ensures Winner(Create(width, height, winningLength, owner).value) == None
  {
    var b := Create(width, height, winningLength, owner).value;
    EmptyBoardHasNoLine(b, Max);
    EmptyBoardHasNoLine(b, Min);
  }

  function SwapCell(c: Cell): Cell
  {
    match c
    case None => None
    case Some(q) => Some(Opposite(q))
  }

  /** Every token replaced by one of the other colour. */
  function Swap(b: State): (r: State)
    requires b.Valid()
    ensures r.Valid()
    ensures r.Width() == b.Width() && r.Height() == b.Height() && r.winningLength == b.winningLength
    ensures forall y, x :: 0 <= y < b.Height() && 0 <= x < b.Width() ==> r.grid[y][x] == SwapCell(b.grid[y][x])
  {
    var w := b.Width();
    State(seq(b.Height(), y requires 0 <= y < b.Height() =>
                seq(w, x requires 0 <= x < w => SwapCell(b.grid[y][x]))),
          b.winningLength, b.mover)
  }

  /** Columns reversed left to right. */
  function Mirror(b: State): (r: State)
    requires b.Valid()
    ensures r.Valid()
    ensures r.Width() == b.Width() && r.Height() == b.Height() && r.winningLength == b.winningLength
    ensures forall y, x :: 0 <= y < b.Height() && 0 <= x < b.Width() ==> r.grid[y][x] == b.grid[y][b.Width() - 1 - x]
  {
    var w := b.Width();
    State(seq(b.Height(), y requires 0 <= y < b.Height() =>
                seq(w, x requires 0 <= x < w => b.grid[y][w - 1 - x])),
          b.winningLength, b.mover)
  }

  /** Swapping the colours swaps the owner of every run. */
  lemma SwapRuns(b: State, p: Color)
    requires b.Valid()
    ensures forall d, n, x, y :: Run(Swap(b), p, d, n, x, y) <==> Run(b, Opposite(p), d, n, x, y)
  {
    var s := Swap(b);
    forall d, x, y, k
      ensures Along(s, d, x, y, k) == Some(p) <==> Along(b, d, x, y, k) == Some(Opposite(p))
    {
    }
  }

  /** Swapping the colours swaps the owners of every line. */
  lemma SwapLines(b: State, p: Color)
    requires b.Valid()
    ensures HasLine(Swap(b), p) <==> HasLine(b, Opposite(p))
  {
    var s := Swap(b);
    var q := Opposite(p);
    SwapRuns(b, p);
    assert forall x, y :: RunRight(s, p, s.winningLength, x, y) <==> RunRight(b, q, b.winningLength, x, y);
    assert forall x, y :: RunUp(s, p, s.winningLength, x, y) <==> RunUp(b, q, b.winningLength, x, y);
    assert forall x, y :: RunUpRight(s, p, s.winningLength, x, y) <==> RunUpRight(b, q, b.winningLength, x, y);
    assert forall x, y :: RunUpLeft(s, p, s.winningLength, x, y) <==> RunUpLeft(b, q, b.winningLength, x, y);
  }

  /** Mirroring the columns maps every line onto a line of the same colour. */
  lemma MirrorLinesOneWay(b: State, p: Color)
    requires b.Valid()
    ensures HasLine(b, p) ==> HasLine(Mirror(b), p)
  {
    var m := Mirror(b);
    var n := b.winningLength;
    var w := b.Width();
    if HasHorizontal(b, p) {
      var x, y :| 0 <= x < w && 0 <= y < b.Height() && RunRight(b, p, n, x, y);
      var x' := w - x - n;
      forall k | 0 <= k < n
        ensures Along(m, Right, x', y, k) == Some(p)
      {
        assert Along(b, Right, x, y, n - 1 - k) == Some(p);
      }
      assert RunRight(m, p, n, x', y);
      RunStartsOnBoard(m, p, Right, n, x', y);
    } else if HasVertical(b, p) {
      var x, y :| 0 <= x < w && 0 <= y < b.Height() && RunUp(b, p, n, x, y);
      var x' := w - 1 - x;
      forall k | 0 <= k < n
        ensures Along(m, Up, x', y, k) == Some(p)
      {
        assert Along(b, Up, x, y, k) == Some(p);
      }
      assert RunUp(m, p, n, x', y);
    } else if HasUpRight(b, p) {
      var x, y :| 0 <= x < w && 0 <= y < b.Height() && RunUpRight(b, p, n, x, y);
      var x' := w - 1 - x;
      forall k | 0 <= k < n
        ensures Along(m, UpLeft, x', y, k) == Some(p)
      {
        assert Along(b, UpRight, x, y, k) == Some(p);
      }
      assert RunUpLeft(m, p, n, x', y);
    } else if HasUpLeft(b, p) {
      var x, y :| 0 <= x < w && 0 <= y < b.Height() && RunUpLeft(b, p, n, x, y);
      var x' := w - 1 - x;
      forall k | 0 <= k < n
        ensures Along(m, UpRight, x', y, k) == Some(p)
      {
        assert Along(b, UpLeft, x, y, k) == Some(p);
      }
      assert RunUpRight(m, p, n, x', y);
    }
  }

  /** Mirroring twice gives the board back. */
  lemma MirrorInvolution(b: State)
    requires b.Valid()
    ensures Mirror(Mirror(b)) == b
  {
    var mm := Mirror(Mirror(b));
    assert |mm.grid| == |b.grid|;
    forall y | 0 <= y < b.Height()
      ensures mm.grid[y] == b.grid[y]
    {
      assert |mm.grid[y]| == |b.grid[y]|;
    }
    assert mm.grid == b.grid;
  }

  /** Mirroring the columns keeps the lines of each colour. */
  lemma MirrorLines(b: State, p: Color)
    requires b.Valid()
    ensures HasLine(Mirror(b), p) <==> HasLine(b, p)
  {
    MirrorLinesOneWay(b, p);
    MirrorLinesOneWay(Mirror(b), p);
    MirrorInvolution(b);
  }
}
