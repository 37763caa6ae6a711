/** The Connect-Four board (`ConnectFourState`): construction, the gravity
    drop, the successor list and the occupancy queries. */
module Board {
  import opened Wrappers
  import opened PlayerColors

  /** A cell holds a token of one colour or nothing (Java `null`). */
  type Cell = Option<Color>

  const DefaultWidth := 7
  const DefaultHeight := 6
  const DefaultWinningLength := 4

  /** The `IllegalArgumentException`/`NullPointerException` causes of the
      public constructor, in the order the constructor checks them. */
  datatype ConfigError = BadHeight | BadWidth | BadWinningLength | NullOwner | BoardTooSmall

  /** The `IllegalStateException` of `move`. */
  datatype MoveError = ColumnFull

  function MaxInt(a: int, b: int): int
  {
    if a < b then b else a
  }

  function MinInt(a: int, b: int): int
  {
    if a < b then a else b
  }

  /** A board snapshot: `grid[y][x]` with row 0 at the top, the winning run
      length, and `mover`, the colour that produced this state. */
  datatype State = State(grid: seq<seq<Cell>>, winningLength: int, mover: Color) {

    function Height(): int
    {
      |grid|
    }

    function Width(): int
    {
      if |grid| == 0 then 0 else |grid[0]|
    }

    /** What the public constructor establishes and every operation keeps. */
    predicate Valid()
    {
      && 1 <= |grid|
      && 1 <= |grid[0]|
      && (forall y :: 0 <= y < |grid| ==> |grid[y]| == |grid[0]|)
      && 3 <= winningLength <= MaxInt(|grid[0]|, |grid|)
    }

    /** `readCell(x, y)`. */
    function ReadCell(x: int, y: int): Cell
      requires Valid()
      requires 0 <= x < Width() && 0 <= y < Height()
    {
      grid[y][x]
    }

    /** `columnIsFull(x)`: only the top cell is inspected. */
    predicate ColumnIsFull(x: int)
      requires Valid()
      requires 0 <= x < Width()
    {
      grid[0][x] != None
    }

    predicate IsEmpty()
      requires Valid()
    {
      forall y, x :: 0 <= y < Height() && 0 <= x < Width() ==> grid[y][x] == None
    }

    /** No empty cell lies below an occupied one in the same column. */
    predicate Gravity()
      requires Valid()
    {
      forall y, below, x :: 0 <= y <= below < Height() && 0 <= x < Width() && grid[y][x] != None ==>
        grid[below][x] != None
    }
  }

  /** `height` rows of `width` empty cells. */
  function EmptyGrid(width: nat, height: nat): (g: seq<seq<Cell>>)
    ensures |g| == height
    ensures forall y :: 0 <= y < height ==> |g[y]| == width
    ensures forall y, x :: 0 <= y < height && 0 <= x < width ==> g[y][x] == None
  {
    seq(height, _ => seq(width, _ => None))
  }

  /** The public constructor: `owner` is `None` for a null argument. */
  function Create(width: int, height: int, winningLength: int, owner: Option<Color>): (r: Result<State, ConfigError>)
    ensures r.Success? <==>
              && 1 <= height && 1 <= width && 3 <= winningLength && owner.Some?
              && winningLength <= MaxInt(width, height)
    ensures height < 1 ==> r == Failure(BadHeight)
    ensures 1 <= height && width < 1 ==> r == Failure(BadWidth)
    ensures 1 <= height && 1 <= width && winningLength < 3 ==> r == Failure(BadWinningLength)
    ensures 1 <= height && 1 <= width && 3 <= winningLength && owner.None? ==> r == Failure(NullOwner)
    ensures (1 <= height && 1 <= width && 3 <= winningLength && owner.Some?
             && winningLength > MaxInt(width, height)) ==> r == Failure(BoardTooSmall)
    ensures r.Success? ==>
              && r.value.Valid()
              && r.value.Width() == width && r.value.Height() == height
              && r.value.winningLength == winningLength && r.value.mover == owner.value
              && r.value.IsEmpty()
  {
    if height < 1 then Failure(BadHeight)
    else if width < 1 then Failure(BadWidth)
    else if winningLength < 3 then Failure(BadWinningLength)
    else if owner.None? then Failure(NullOwner)
    else if winningLength > MaxInt(width, height) then Failure(BoardTooSmall)
    else Success(State(EmptyGrid(width, height), winningLength, owner.value))
  }

  /** The one-argument constructor: a 7-wide, 6-high board, runs of 4. */
  function CreateDefault(owner: Option<Color>): (r: Result<State, ConfigError>)
    ensures r.Success? <==> owner.Some?
    ensures r.Success? ==>
              && r.value.Valid() && r.value.IsEmpty()
              && r.value.Width() == 7 && r.value.Height() == 6 && r.value.winningLength == 4
              && r.value.mover == owner.value
  {
    Create(DefaultWidth, DefaultHeight, DefaultWinningLength, owner)
  }

  /** The bottom-up scan of `move`: the lowest empty row of column `x` among
      rows `0..y`, or `None` when all of them are occupied. */
  function LowestEmptyRow(b: State, x: int, y: int): (r: Option<int>)
    requires b.Valid()
    requires 0 <= x < b.Width() && -1 <= y < b.Height()
    ensures r.Some? ==>
              && 0 <= r.value <= y && b.grid[r.value][x] == None
              && forall y' :: r.value < y' <= y ==> b.grid[y'][x] != None
    ensures r.None? ==> forall y' :: 0 <= y' <= y ==> b.grid[y'][x] != None
    decreases y + 1
  {
    if y < 0 then None
    else if b.grid[y][x] == None then Some(y)
    else LowestEmptyRow(b, x, y - 1)
  }

  /** `move(x)`: drops a token of the next mover's colour into column `x`.
      The grid is a value, so the receiver is never changed. */
  function Move(b: State, x: int): (r: Result<State, MoveError>)
    requires b.Valid()
    requires 0 <= x < b.Width()
    ensures r.Failure? <==> b.ColumnIsFull(x)
    ensures r.Success? ==>
              && r.value.Valid()
              && r.value.Width() == b.Width() && r.value.Height() == b.Height()
              && r.value.winningLength == b.winningLength
              && r.value.mover == Opposite(b.mover)
    ensures r.Success? ==>
              exists y :: && 0 <= y < b.Height() && b.grid[y][x] == None
                          && (forall y' :: y < y' < b.Height() ==> b.grid[y'][x] != None)
                          && r.value.grid == b.grid[y := b.grid[y][x := Some(Opposite(b.mover))]]
  {
    if b.ColumnIsFull(x) then Failure(ColumnFull)
    else
      var next := Opposite(b.mover);
      match LowestEmptyRow(b, x, b.Height() - 1)
      case Some(y) => Success(State(b.grid[y := b.grid[y][x := Some(next)]], b.winningLength, next))
      // the second throw of `move`; unreachable because the top cell is empty
      case None => Failure(ColumnFull)
  }

  /** `write(x, y, c)` as a functional update, used to build fixtures. */
  function Write(b: State, x: int, y: int, c: Cell): (r: State)
    requires b.Valid()
    requires 0 <= x < b.Width() && 0 <= y < b.Height()
    ensures r.Valid()
    ensures r.Width() == b.Width() && r.Height() == b.Height()
    ensures r.winningLength == b.winningLength && r.mover == b.mover
    ensures r.ReadCell(x, y) == c
    ensures forall y', x' :: 0 <= y' < b.Height() && 0 <= x' < b.Width() && (y', x') != (y, x) ==>
              r.grid[y'][x'] == b.grid[y'][x']
  {
    b.(grid := b.grid[y := b.grid[y][x := c]])
  }

  /** `isFull()`: every column reports full. */
  method IsFull(b: State) returns (full: bool)
    requires b.Valid()
    ensures full <==> forall x :: 0 <= x < b.Width() ==> b.ColumnIsFull(x)
  {
    var x := 0;
    while x < |b.grid[0]|
      invariant 0 <= x <= b.Width()
      invariant forall x' :: 0 <= x' < x ==> b.ColumnIsFull(x')
    {
      if !b.ColumnIsFull(x) {
        return false;
      }
      x := x + 1;
    }
    return true;
  }

  /** The columns in `[x, width)` that are not full, in increasing order. */
  function OpenColumns(b: State, x: int): (cols: seq<int>)
    requires b.Valid()
    requires 0 <= x <= b.Width()
    ensures forall i :: 0 <= i < |cols| ==> x <= cols[i] < b.Width() && !b.ColumnIsFull(cols[i])
    ensures forall i, j :: 0 <= i < j < |cols| ==> cols[i] < cols[j]
    ensures forall c :: x <= c < b.Width() && !b.ColumnIsFull(c) ==> c in cols
    decreases b.Width() - x
  {
    if x == b.Width() then []
    else if b.ColumnIsFull(x) then OpenColumns(b, x + 1)
    else [x] + OpenColumns(b, x + 1)
  }

  /** The successors built by the loop of `children()` from column `x` on. */
  function ChildrenFrom(b: State, x: int): (kids: seq<State>)
    requires b.Valid()
    requires 0 <= x <= b.Width()
    ensures |kids| == |OpenColumns(b, x)|
    ensures forall i :: 0 <= i < |kids| ==> Move(b, OpenColumns(b, x)[i]) == Success(kids[i])
    decreases b.Width() - x
  {
    if x == b.Width() then []
    else if b.ColumnIsFull(x) then ChildrenFrom(b, x + 1)
    else [Move(b, x).value] + ChildrenFrom(b, x + 1)
  }

  /** `children()`: one successor per open column, left to right. The Java
      method caches the list; a function returns the same list every time. */
  function Children(b: State): (kids: seq<State>)
    requires b.Valid()
    ensures |kids| == |OpenColumns(b, 0)|
    ensures forall i :: 0 <= i < |kids| ==> Move(b, OpenColumns(b, 0)[i]) == Success(kids[i])
    ensures forall k :: k in kids ==> exists x :: 0 <= x < b.Width() && !b.ColumnIsFull(x) && Move(b, x) == Success(k)
  {
    var kids := ChildrenFrom(b, 0);
    assert forall i :: 0 <= i < |kids| ==> Move(b, OpenColumns(b, 0)[i]) == Success(kids[i]);
    kids
  }

  /** On a gravity board a column is full exactly when all its cells are
      occupied, so the top-cell test of `columnIsFull` is sound. */
  lemma ColumnFullMeansColumnOccupied(b: State, x: int)
    requires b.Valid() && b.Gravity()
    requires 0 <= x < b.Width()
    ensures b.ColumnIsFull(x) <==> forall y :: 0 <= y < b.Height() ==> b.grid[y][x] != None
  {
  }

  /** A move keeps the gravity invariant. */
  lemma MovePreservesGravity(b: State, x: int)
    requires b.Valid() && b.Gravity()
    requires 0 <= x < b.Width()
    requires Move(b, x).Success?
    ensures Move(b, x).value.Gravity()
  {
    var r := Move(b, x).value;
    var y :| && 0 <= y < b.Height() && b.grid[y][x] == None
             && (forall y' :: y < y' < b.Height() ==> b.grid[y'][x] != None)
             && r.grid == b.grid[y := b.grid[y][x := Some(Opposite(b.mover))]];
    forall y', below, x' | 0 <= y' <= below < r.Height() && 0 <= x' < r.Width() && r.grid[y'][x'] != None
      ensures r.grid[below][x'] != None
    {
      if x' == x && y' != y && below != y {
        assert b.grid[y'][x] != None;
      }
    }
  }

  /** `n` moves into column `x`. */
  function MoveN(b: State, x: int, n: nat): Result<State, MoveError>
    requires b.Valid()
    requires 0 <= x < b.Width()
  {
    if n == 0 then Success(b)
    else match MoveN(b, x, n - 1)
      case Failure(e) => Failure(e)
      case Success(s) =>
        if s.Valid() && s.Width() == b.Width() then Move(s, x) else Failure(ColumnFull)
  }

  /** After `k <= height` moves into an initially empty column, the bottom `k`
      cells of that column are occupied and the others are empty. */
  lemma {:induction false} MoveNStacks(b: State, x: int, k: nat)
    requires b.Valid()
    requires 0 <= x < b.Width()
    requires forall y :: 0 <= y < b.Height() ==> b.grid[y][x] == None
    requires k <= b.Height()
    ensures MoveN(b, x, k).Success?
    ensures var s := MoveN(b, x, k).value;
            && s.Valid() && s.Width() == b.Width() && s.Height() == b.Height()
            && s.winningLength == b.winningLength
            && (forall y :: 0 <= y < b.Height() ==> (s.grid[y][x] != None <==> y >= b.Height() - k))
  {
    if k > 0 {
      MoveNStacks(b, x, k - 1);
      var s := MoveN(b, x, k - 1).value;
      var h := b.Height();
      assert !s.ColumnIsFull(x);
      var r := Move(s, x).value;
      var y :| && 0 <= y < h && s.grid[y][x] == None
               && (forall y' :: y < y' < h ==> s.grid[y'][x] != None)
               && r.grid == s.grid[y := s.grid[y][x := Some(Opposite(s.mover))]];
      assert s.grid[h - k][x] == None;
      assert y == h - k;
    }
  }

  /** Exactly `height` successful moves fill an empty column: the column is
      full after `height` of them, not before, and one more move fails. */
  lemma FillColumn(b: State, x: int)
    requires b.Valid()
    requires 0 <= x < b.Width()
    requires forall y :: 0 <= y < b.Height() ==> b.grid[y][x] == None
    ensures forall k: nat :: k < b.Height() ==>
              MoveN(b, x, k).Success? && !MoveN(b, x, k).value.ColumnIsFull(x)
    ensures MoveN(b, x, b.Height()).Success? && MoveN(b, x, b.Height()).value.ColumnIsFull(x)
    ensures MoveN(b, x, b.Height() + 1).Failure?
  {
    forall k: nat | k < b.Height()
      ensures MoveN(b, x, k).Success? && !MoveN(b, x, k).value.ColumnIsFull(x)
    {
      MoveNStacks(b, x, k);
    }
    MoveNStacks(b, x, b.Height());
  }
}
