/** The victory scans of `ConnectFourState`: four sliding-counter loops, each
    proved to decide one axis of `HasLine`, and `checkVictory`/`isTerminal`
    built from them. */
module Victory {
  import opened Wrappers
  import opened PlayerColors
  import opened Board
  import opened Lines

  /** The `n` cells ending just before index `e` all hold `p` exactly when
      the trailing run at `e` reaches `n`. */
  lemma WindowIffTrailingRun(s: seq<Cell>, p: Color, n: int, e: int)
    requires 1 <= n <= e <= |s|
    ensures (forall i :: e - n <= i < e ==> s[i] == Some(p)) <==> TrailingRun(s, p, e) >= n
  {
    TrailingRunHolds(s, p, e);
    if forall i :: e - n <= i < e ==> s[i] == Some(p) {
      TrailingRunCovers(s, p, e - n, e);
    }
  }

  /** A horizontal run is a block of its row. */
  lemma RunRightInRow(b: State, p: Color, n: int, x: int, y: int)
    requires b.Valid() && 1 <= n
    requires 0 <= y < b.Height() && 0 <= x && x + n <= b.Width()
    ensures RunRight(b, p, n, x, y) <==> forall i :: x <= i < x + n ==> b.grid[y][i] == Some(p)
  {
    if forall i :: x <= i < x + n ==> b.grid[y][i] == Some(p) {
      forall k | 0 <= k < n
        ensures Along(b, Right, x, y, k) == Some(p)
      {
        assert b.grid[y][x + k] == Some(p);
      }
    }
    if RunRight(b, p, n, x, y) {
      forall i | x <= i < x + n
        ensures b.grid[y][i] == Some(p)
      {
        assert Along(b, Right, x, y, i - x) == Some(p);
      }
    }
  }

  /** A vertical run with top cell in row `top` is a block of the column read bottom-up. */
  lemma RunUpInColumn(b: State, p: Color, n: int, x: int, top: int)
    requires b.Valid() && 1 <= n
    requires 0 <= x < b.Width() && n - 1 <= top < b.Height()
    ensures var col := ColumnUp(b, x);
            var lo := b.Height() - 1 - top;
            RunUp(b, p, n, x, top) <==> forall i :: lo <= i < lo + n ==> col[i] == Some(p)
  {
    var col := ColumnUp(b, x);
    var h := b.Height();
    var lo := h - 1 - top;
    if forall i :: lo <= i < lo + n ==> col[i] == Some(p) {
      forall k | 0 <= k < n
        ensures Along(b, Up, x, top, k) == Some(p)
      {
        assert col[lo + k] == Some(p);
      }
    }
    if RunUp(b, p, n, x, top) {
      forall i | lo <= i < lo + n
        ensures col[i] == Some(p)
      {
        assert Along(b, Up, x, top, i - lo) == Some(p);
      }
    }
  }

  /** The horizontal run ending at `(x, y)` exists exactly when the row's
      trailing run through `x` reaches the winning length. */
  lemma RunRightIffTrailing(b: State, p: Color, x: int, y: int)
    requires b.Valid() && 0 <= x < b.Width() && 0 <= y < b.Height()
    ensures var n := b.winningLength;
            RunRight(b, p, n, x + 1 - n, y) <==> TrailingRun(b.grid[y], p, x + 1) >= n
  {
    var n := b.winningLength;
    if x + 1 - n >= 0 {
      WindowIffTrailingRun(b.grid[y], p, n, x + 1);
      RunRightInRow(b, p, n, x + 1 - n, y);
    } else if RunRight(b, p, n, x + 1 - n, y) {
      RunEnds(b, p, Right, n, x + 1 - n, y);
    }
  }

  /** The vertical run whose bottom cell is `(x, y)` exists exactly when the
      column's trailing run, read upwards, through row `y` reaches the
      winning length. */
  lemma RunUpIffTrailing(b: State, p: Color, x: int, y: int)
    requires b.Valid() && 0 <= x < b.Width() && 0 <= y < b.Height()
    ensures var n := b.winningLength;
            RunUp(b, p, n, x, y + n - 1) <==> TrailingRun(ColumnUp(b, x), p, b.Height() - y) >= n
  {
    var n := b.winningLength;
    var i := b.Height() - 1 - y;
    if i + 1 - n >= 0 {
      WindowIffTrailingRun(ColumnUp(b, x), p, n, i + 1);
      RunUpInColumn(b, p, n, x, y + n - 1);
    } else if RunUp(b, p, n, x, y + n - 1) {
      RunEnds(b, p, Up, n, x, y + n - 1);
    }
  }

  /** `checkVictoryHorizontal`: each row is scanned left to right with a
      counter of consecutive `p` cells, bottom row first. */
  method CheckVictoryHorizontal(b: State, p: Color) returns (won: bool)
    requires b.Valid()
    ensures won <==> HasHorizontal(b, p)
  {
    var y := b.Height() - 1;
    while y >= 0
      invariant -1 <= y < b.Height()
      invariant forall x', y' :: y < y' < b.Height() ==> !RunRight(b, p, b.winningLength, x', y')
    {
      won := RowHasLine(b, p, y);
      if won {
        return;
      }
      y := y - 1;
    }
    return false;
  }

  /** One row of `checkVictoryHorizontal`: the counter is reset at every
      cell that is not `p`, and the scan stops when it reaches the winning
      length. */
  method RowHasLine(b: State, p: Color, y: int) returns (won: bool)
    requires b.Valid() && 0 <= y < b.Height()
    ensures won ==> exists x | 0 <= x < b.Width() :: RunRight(b, p, b.winningLength, x, y)
    ensures !won ==> forall x :: !RunRight(b, p, b.winningLength, x, y)
  {
    var n := b.winningLength;
    var row := b.grid[y];
    var count := 0;
    var x := 0;
    while x < |b.grid[0]|
      invariant 0 <= x <= b.Width()
      invariant count == TrailingRun(row, p, x) && count < n
      invariant forall x' :: 0 <= x' && x' + n <= x ==> !RunRight(b, p, n, x', y)
    {
      if b.grid[y][x] != Some(p) {
        count := 0;
      } else {
        count := count + 1;
        if count == n {
          RunRightIffTrailing(b, p, x, y);
          return true;
        }
      }
      RunRightIffTrailing(b, p, x, y);
      x := x + 1;
    }
    forall x' | RunRight(b, p, n, x', y)
      ensures false
    {
      RunEnds(b, p, Right, n, x', y);
    }
    return false;
  }

  /** `checkVictoryVertical`: each column is scanned bottom to top with a
      counter of consecutive `p` cells, leftmost column first. */
  method CheckVictoryVertical(b: State, p: Color) returns (won: bool)
    requires b.Valid()
    ensures won <==> HasVertical(b, p)
  {
    var x := 0;
    while x < |b.grid[0]|
      invariant 0 <= x <= b.Width()
      invariant forall x', y' :: 0 <= x' < x ==> !RunUp(b, p, b.winningLength, x', y')
    {
      won := ColumnHasLine(b, p, x);
      if won {
        return;
      }
      x := x + 1;
    }
    forall x', y' | RunUp(b, p, b.winningLength, x', y')
      ensures false
    {
      RunEnds(b, p, Up, b.winningLength, x', y');
    }
    return false;
  }

  /** One column of `checkVictoryVertical`: the counter is reset at every
      cell that is not `p`, and the scan stops when it reaches the winning
      length. */
  method ColumnHasLine(b: State, p: Color, x: int) returns (won: bool)
    requires b.Valid() && 0 <= x < b.Width()
    ensures won ==> exists top | 0 <= top < b.Height() :: RunUp(b, p, b.winningLength, x, top)
    ensures !won ==> forall top :: !RunUp(b, p, b.winningLength, x, top)
  {
    var n := b.winningLength;
    var h := b.Height();
    var col := ColumnUp(b, x);
    var count := 0;
    var y := h - 1;
    while y >= 0
      invariant -1 <= y < h
      invariant count == TrailingRun(col, p, h - 1 - y) && count < n
      invariant forall top :: y + n <= top < h ==> !RunUp(b, p, n, x, top)
    {
      var i := h - 1 - y;
      assert col[i] == b.grid[y][x];
      if b.grid[y][x] != Some(p) {
        count := 0;
      } else {
        count := count + 1;
        if count == n {
          RunUpIffTrailing(b, p, x, y);
          return true;
        }
      }
      RunUpIffTrailing(b, p, x, y);
      y := y - 1;
    }
    forall top | RunUp(b, p, n, x, top)
      ensures false
    {
      RunEnds(b, p, Up, n, x, top);
    }
    return false;
  }

  /** `checkVictoryAscendingDiagonal`: every start that fits a full run going
      up and to the right is tested with a fresh counter. */
  method CheckVictoryAscendingDiagonal(b: State, p: Color) returns (won: bool)
    requires b.Valid()
    ensures won <==> HasUpRight(b, p)
  {
    var n := b.winningLength;
    var startY := |b.grid| - 1;
    while startY >= n - 1
      invariant startY < b.Height()
      invariant forall x', y' :: startY < y' < b.Height() ==> !RunUpRight(b, p, n, x', y')
    {
      var startX := 0;
      while startX <= |b.grid[0]| - n
        invariant 0 <= startX
        invariant forall x' :: 0 <= x' < startX ==> !RunUpRight(b, p, n, x', startY)
      {
        var count := 0;
        var i := 0;
        while i < n
          invariant 0 <= i <= n && 0 <= count <= i && count < n
          invariant count == i <==> forall j :: 0 <= j < i ==> Along(b, UpRight, startX, startY, j) == Some(p)
        {
          assert b.grid[startY - i][startX + i] == Along(b, UpRight, startX, startY, i);
          if b.grid[startY - i][startX + i] != Some(p) {
            count := 0;
          } else {
            count := count + 1;
            if count == n {
              assert RunUpRight(b, p, n, startX, startY);
              return true;
            }
          }
          i := i + 1;
        }
        assert !RunUpRight(b, p, n, startX, startY);
        startX := startX + 1;
      }
      forall x' | RunUpRight(b, p, n, x', startY)
        ensures false
      {
        RunEnds(b, p, UpRight, n, x', startY);
      }
      startY := startY - 1;
    }
    forall x', y' | RunUpRight(b, p, n, x', y')
      ensures false
    {
      RunEnds(b, p, UpRight, n, x', y');
    }
    return false;
  }

  /** `checkVictoryDescendingDiagonal`: every start that fits a full run going
      up and to the left is tested with a fresh counter. */
  method CheckVictoryDescendingDiagonal(b: State, p: Color) returns (won: bool)
    requires b.Valid()
    ensures won <==> HasUpLeft(b, p)
  {
    var n := b.winningLength;
    var startY := |b.grid| - 1;
    while startY >= n - 1
      invariant startY < b.Height()
      invariant forall x', y' :: startY < y' < b.Height() ==> !RunUpLeft(b, p, n, x', y')
    {
      var startX := n - 1;
      while startX < |b.grid[0]|
        invariant n - 1 <= startX
        invariant forall x' :: n - 1 <= x' < startX ==> !RunUpLeft(b, p, n, x', startY)
      {
        var count := 0;
        var i := 0;
        while i < n
          invariant 0 <= i <= n && 0 <= count <= i && count < n
          invariant count == i <==> forall j :: 0 <= j < i ==> Along(b, UpLeft, startX, startY, j) == Some(p)
        {
          assert b.grid[startY - i][startX - i] == Along(b, UpLeft, startX, startY, i);
          if b.grid[startY - i][startX - i] != Some(p) {
            count := 0;
          } else {
            count := count + 1;
            if count == n {
              assert RunUpLeft(b, p, n, startX, startY);
              return true;
            }
          }
          i := i + 1;
        }
        assert !RunUpLeft(b, p, n, startX, startY);
        startX := startX + 1;
      }
      forall x' | RunUpLeft(b, p, n, x', startY)
        ensures false
      {
        RunEnds(b, p, UpLeft, n, x', startY);
      }
      startY := startY - 1;
    }
    forall x', y' | RunUpLeft(b, p, n, x', y')
      ensures false
    {
      RunEnds(b, p, UpLeft, n, x', y');
    }
    return false;
  }

  /** The private `checkVictory(player)`: the four scans, short-circuited in
      the Java order. */
  method CheckVictoryFor(b: State, p: Color) returns (won: bool)
    requires b.Valid()
    ensures won <==> HasLine(b, p)
  {
    won := CheckVictoryHorizontal(b, p);
    if !won {
      won := CheckVictoryVertical(b, p);
    }
    if !won {
      won := CheckVictoryAscendingDiagonal(b, p);
    }
    if !won {
      won := CheckVictoryDescendingDiagonal(b, p);
    }
  }

  /** `checkVictory()`: MAX if MAX has a line (whatever MIN has), else MIN if
      MIN has one, else nobody. */
  method CheckVictory(b: State) returns (winner: Option<Color>)
    requires b.Valid()
    ensures HasLine(b, Max) ==> winner == Some(Max)
    ensures !HasLine(b, Max) && HasLine(b, Min) ==> winner == Some(Min)
    ensures !HasLine(b, Max) && !HasLine(b, Min) ==> winner == None
    ensures winner == Winner(b)
  {
    var maxWon := CheckVictoryFor(b, Max);
    if maxWon {
      return Some(Max);
    }
    var minWon := CheckVictoryFor(b, Min);
    if minWon {
      return Some(Min);
    }
    return None;
  }

  /** `isTerminal()`: some colour has a line. A full board without a line is
      not terminal. */
  method IsTerminal(b: State) returns (terminal: bool)
    requires b.Valid()
    ensures terminal <==> HasLine(b, Max) || HasLine(b, Min)
  {
    var winner := CheckVictory(b);
    terminal := winner != None;
  }
}
