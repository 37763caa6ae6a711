/** `ConnectFourState.toString`: one text line per row, top row first, each
    cell drawn between vertical bars, then the lower bar `+-+-+...+`.
    The partner of the renderer is `Parse`, which reads the grid back. */
module Rendering {
  import opened Wrappers
  import opened PlayerColors
  import opened Board

  /** `playerToString`: an empty cell is a blank, MIN is `X`, MAX is `O` --
      the opposite letters from `PlayerColor.getChar`. */
  function Glyph(c: Cell): (r: char)
    ensures DecodeGlyph(r) == Some(c)
    ensures c.Some? ==> r != GetChar(c.value)
    ensures r != '|' && r != '\n' && r != '+' && r != '-'
  {
    match c
    case None => ' '
    case Some(Min) => 'X'
    case Some(Max) => 'O'
  }

  /** A token is drawn with the letter `getChar` gives the other colour, and
      only an empty cell is drawn as a blank. */
  lemma GlyphIsOtherColourChar(c: Cell)
    ensures c.Some? ==> Glyph(c) == GetChar(Opposite(c.value))
    ensures c.None? <==> Glyph(c) == ' '
  {
  }

  /** The cell a glyph stands for; `None` for a character no cell is drawn as. */
  function DecodeGlyph(ch: char): Option<Cell>
  {
    if ch == ' ' then Some(None)
    else if ch == 'X' then Some(Some(Min))
    else if ch == 'O' then Some(Some(Max))
    else None
  }

  /** Each cell of a row followed by its right-hand bar. */
  function Cells(row: seq<Cell>): (r: string)
    ensures |r| == 2 * |row|
    ensures forall i :: 0 <= i < |row| ==> r[2 * i] == Glyph(row[i]) && r[2 * i + 1] == '|'
  {
    if row == [] then []
    else
      var tail := Cells(row[1..]);
      CellsStep(row, tail);
      [Glyph(row[0]), '|'] + tail
  }

  /** The first cell and its bar, then the later cells two characters on. */
  lemma CellsStep(row: seq<Cell>, tail: string)
    requires row != [] && |tail| == 2 * (|row| - 1)
    requires forall i :: 0 <= i < |row| - 1 ==> tail[2 * i] == Glyph(row[1..][i]) && tail[2 * i + 1] == '|'
    ensures forall i :: 0 <= i < |row| ==>
              ([Glyph(row[0]), '|'] + tail)[2 * i] == Glyph(row[i]) && ([Glyph(row[0]), '|'] + tail)[2 * i + 1] == '|'
  {
    var r := [Glyph(row[0]), '|'] + tail;
    forall i | 0 <= i < |row|
      ensures r[2 * i] == Glyph(row[i]) && r[2 * i + 1] == '|'
    {
      if i > 0 {
        assert row[1..][i - 1] == row[i];
        assert r[2 * i] == tail[2 * (i - 1)];
        assert r[2 * i + 1] == tail[2 * (i - 1) + 1];
      }
    }
  }

  /** One text line: a leading bar, the cells, a newline. */
  function RenderRow(row: seq<Cell>): (r: string)
    ensures |r| == 2 * |row| + 2
    ensures r[0] == '|' && r[|r| - 1] == '\n'
    ensures forall i :: 0 <= i < |row| ==> r[2 * i + 1] == Glyph(row[i]) && r[2 * i + 2] == '|'
  {
    ['|'] + Cells(row) + ['\n']
  }

  /** `createLowerBar`: `+` followed by `-+` once per column. */
  function LowerBar(w: nat): (r: string)
    ensures |r| == 2 * w + 1
    ensures forall i :: 0 <= i < |r| ==> r[i] == (if i % 2 == 0 then '+' else '-')
  {
    if w == 0 then ['+'] else LowerBar(w - 1) + ['-', '+']
  }

  /** Index of the first character of row `y` when rows are `w` cells wide:
      every row before it takes `2 * w + 2` characters. */
  function LineStart(w: nat, y: nat): nat
  {
    if y == 0 then 0 else LineStart(w, y - 1) + 2 * w + 2
  }

  /** Index of the newline that ends row `y`. */
  function LineEnd(w: nat, y: nat): nat
  {
    LineStart(w, y) + 2 * w + 1
  }

  /** Index of the bar to the left of cell `(x, y)`; `x == w` is the row's last bar. */
  function BarAt(w: nat, x: nat, y: nat): nat
  {
    LineStart(w, y) + 2 * x
  }

  /** Index of the glyph of cell `(x, y)`. */
  function GlyphAt(w: nat, x: nat, y: nat): nat
  {
    LineStart(w, y) + 2 * x + 1
  }

  lemma {:induction false} LineStartInjective(w: nat, y: nat, y': nat)
    requires LineStart(w, y) == LineStart(w, y')
    ensures y == y'
    decreases y
  {
    if y != 0 && y' != 0 {
      LineStartInjective(w, y - 1, y' - 1);
    }
  }

  predicate Rectangular(g: seq<seq<Cell>>, w: nat)
  {
    forall y :: 0 <= y < |g| ==> |g[y]| == w
  }

  /** The text lines of all rows, top row first. */
  function Rows(g: seq<seq<Cell>>, w: nat): (r: string)
    requires Rectangular(g, w)
    ensures |r| == LineStart(w, |g|)
    ensures forall y, x :: 0 <= y < |g| && 0 <= x < w ==>
              GlyphAt(w, x, y) < |r| && r[GlyphAt(w, x, y)] == Glyph(g[y][x])
    ensures forall y, x :: 0 <= y < |g| && 0 <= x <= w ==> BarAt(w, x, y) < |r| && r[BarAt(w, x, y)] == '|'
    ensures forall y :: 0 <= y < |g| ==> LineEnd(w, y) < |r| && r[LineEnd(w, y)] == '\n'
  {
    if g == [] then []
    else
      var head := RenderRow(g[0]);
      var tail := Rows(g[1..], w);
      LineStartShift(w, |g| - 1);
      RowsGlyphs(g, w, head, tail);
      RowsBars(g, w, head, tail);
      RowsNewlines(g, w, head, tail);
      head + tail
  }

  /** Character `k` of row `y`: the first row is `head`, and every later row
      is the row before it in `tail`. */
  lemma RowChar(w: nat, head: string, tail: string, k: nat, y: nat, c: char)
    requires |head| == 2 * w + 2 && k < 2 * w + 2
    requires y == 0 ==> head[k] == c
    requires y > 0 ==> LineStart(w, y - 1) + k < |tail| && tail[LineStart(w, y - 1) + k] == c
    ensures LineStart(w, y) + k < |head + tail| && (head + tail)[LineStart(w, y) + k] == c
  {
    if y > 0 {
      LineStartShift(w, y - 1);
      ShiftedIndex(head, tail, LineStart(w, y - 1) + k, c);
    }
  }

  /** A character of the second part of a concatenation, seen through the whole. */
  lemma ShiftedIndex(head: string, tail: string, i: nat, c: char)
    requires i < |tail| && tail[i] == c
    ensures |head| + i < |head + tail| && (head + tail)[|head| + i] == c
  {
  }

  /** The three steps of `Rows`, one per kind of character. They take the
      first row and the rest as plain strings, so that each proof stays small
      enough for the solver to check reliably. */
  lemma RowsGlyphs(g: seq<seq<Cell>>, w: nat, head: string, tail: string)
    requires Rectangular(g, w) && g != []
    requires |head| == 2 * w + 2
    requires forall i :: 0 <= i < w ==> head[2 * i + 1] == Glyph(g[0][i])
    requires forall y, x :: 0 <= y < |g| - 1 && 0 <= x < w ==>
               GlyphAt(w, x, y) < |tail| && tail[GlyphAt(w, x, y)] == Glyph(g[1..][y][x])
    ensures forall y, x :: 0 <= y < |g| && 0 <= x < w ==>
              GlyphAt(w, x, y) < |head + tail| && (head + tail)[GlyphAt(w, x, y)] == Glyph(g[y][x])
  {
    forall y, x | 0 <= y < |g| && 0 <= x < w
      ensures GlyphAt(w, x, y) < |head + tail| && (head + tail)[GlyphAt(w, x, y)] == Glyph(g[y][x])
    {
      if y > 0 {
        assert g[1..][y - 1] == g[y];
        assert GlyphAt(w, x, y - 1) == LineStart(w, y - 1) + 2 * x + 1;
      }
      RowChar(w, head, tail, 2 * x + 1, y, Glyph(g[y][x]));
    }
  }

  lemma RowsBars(g: seq<seq<Cell>>, w: nat, head: string, tail: string)
    requires g != []
    requires |head| == 2 * w + 2 && head[0] == '|'
    requires forall i :: 0 <= i < w ==> head[2 * i + 2] == '|'
    requires forall y, x :: 0 <= y < |g| - 1 && 0 <= x <= w ==> BarAt(w, x, y) < |tail| && tail[BarAt(w, x, y)] == '|'
    ensures forall y, x :: 0 <= y < |g| && 0 <= x <= w ==>
              BarAt(w, x, y) < |head + tail| && (head + tail)[BarAt(w, x, y)] == '|'
  {
    forall y, x | 0 <= y < |g| && 0 <= x <= w
      ensures BarAt(w, x, y) < |head + tail| && (head + tail)[BarAt(w, x, y)] == '|'
    {
      if y > 0 {
        assert BarAt(w, x, y - 1) == LineStart(w, y - 1) + 2 * x;
      } else if x > 0 {
        assert head[2 * (x - 1) + 2] == '|';
      }
      RowChar(w, head, tail, 2 * x, y, '|');
    }
  }

  lemma RowsNewlines(g: seq<seq<Cell>>, w: nat, head: string, tail: string)
    requires g != []
    requires |head| == 2 * w + 2 && head[|head| - 1] == '\n'
    requires forall y :: 0 <= y < |g| - 1 ==> LineEnd(w, y) < |tail| && tail[LineEnd(w, y)] == '\n'
    ensures forall y :: 0 <= y < |g| ==> LineEnd(w, y) < |head + tail| && (head + tail)[LineEnd(w, y)] == '\n'
  {
    forall y | 0 <= y < |g|
      ensures LineEnd(w, y) < |head + tail| && (head + tail)[LineEnd(w, y)] == '\n'
    {
      if y > 0 {
        assert LineEnd(w, y - 1) == LineStart(w, y - 1) + 2 * w + 1;
      }
      RowChar(w, head, tail, 2 * w + 1, y, '\n');
    }
  }

  /** Dropping the first row moves every later row `2 * w + 2` characters to the left. */
  lemma {:induction false} LineStartShift(w: nat, y: nat)
    ensures LineStart(w, y + 1) == LineStart(w, 1) + LineStart(w, y)
    decreases y
  {
    if y > 0 {
      LineStartShift(w, y - 1);
    }
  }

  /** `toString`: the rows, then the lower bar. */
  function Render(b: State): (r: string)
    requires b.Valid()
    ensures |r| == LineStart(b.Width(), b.Height()) + 2 * b.Width() + 1
    ensures forall y, x :: 0 <= y < b.Height() && 0 <= x < b.Width() ==>
              GlyphAt(b.Width(), x, y) < |r| && r[GlyphAt(b.Width(), x, y)] == Glyph(b.grid[y][x])
    ensures forall y, x :: 0 <= y < b.Height() && 0 <= x <= b.Width() ==>
              BarAt(b.Width(), x, y) < |r| && r[BarAt(b.Width(), x, y)] == '|'
    ensures forall y :: 0 <= y < b.Height() ==>
              LineEnd(b.Width(), y) < |r| && r[LineEnd(b.Width(), y)] == '\n'
    ensures r[LineStart(b.Width(), b.Height())..] == LowerBar(b.Width())
  {
    Rows(b.grid, b.Width()) + LowerBar(b.Width())
  }

  /** Reads a `w`-by-`h` grid back from rendered text, or `None` when the
      text is too short or a glyph position holds no glyph. */
  function Parse(s: string, w: nat, h: nat): (r: Option<seq<seq<Cell>>>)
    ensures r.Some? ==> |r.value| == h && Rectangular(r.value, w)
    ensures r.Some? ==> forall y, x :: 0 <= y < h && 0 <= x < w ==>
              GlyphAt(w, x, y) < |s| && Glyph(r.value[y][x]) == s[GlyphAt(w, x, y)]
  {
    if forall y, x :: 0 <= y < h && 0 <= x < w ==>
         GlyphAt(w, x, y) < |s| && DecodeGlyph(s[GlyphAt(w, x, y)]).Some?
    then Some(seq(h, y requires 0 <= y < h =>
                seq(w, x requires 0 <= x < w => DecodeGlyph(s[GlyphAt(w, x, y)]).value)))
    else None
  }

  /** Parsing the rendering of a board gives back its grid. */
  lemma ParseRender(b: State)
    requires b.Valid()
    ensures Parse(Render(b), b.Width(), b.Height()) == Some(b.grid)
  {
    var s := Render(b);
    var w := b.Width();
    var h := b.Height();
    assert Rectangular(b.grid, w);
    ParseGlyphs(s, w, h, b.grid);
  }

  /** Text that shows the glyph of every cell of `g` at the cell's position
      parses back to `g`. */
  lemma ParseGlyphs(s: string, w: nat, h: nat, g: seq<seq<Cell>>)
    requires |g| == h && Rectangular(g, w)
    requires forall y, x :: 0 <= y < h && 0 <= x < w ==>
               GlyphAt(w, x, y) < |s| && s[GlyphAt(w, x, y)] == Glyph(g[y][x])
    ensures Parse(s, w, h) == Some(g)
  {
    forall y, x | 0 <= y < h && 0 <= x < w
      ensures GlyphAt(w, x, y) < |s| && DecodeGlyph(s[GlyphAt(w, x, y)]) == Some(g[y][x])
    {
    }
    assert Parse(s, w, h).Some?;
    var parsed := Parse(s, w, h).value;
    forall y | 0 <= y < h
      ensures parsed[y] == g[y]
    {
      assert |parsed[y]| == w == |g[y]|;
      forall x | 0 <= x < w
        ensures parsed[y][x] == g[y][x]
      {
        assert Glyph(parsed[y][x]) == s[GlyphAt(w, x, y)];
      }
    }
    assert parsed == g;
  }

  /** Index of the first newline of `s`, or `|s|` when there is none. */
  function FirstNewline(s: string): (r: nat)
    ensures r <= |s|
    ensures forall i :: 0 <= i < r ==> s[i] != '\n'
    ensures r < |s| ==> s[r] == '\n'
  {
    if s == [] then 0
    else if s[0] == '\n' then 0
    else 1 + FirstNewline(s[1..])
  }

  lemma {:induction false} FirstNewlineAt(s: string, k: nat)
    requires k < |s| && s[k] == '\n'
    requires forall i :: 0 <= i < k ==> s[i] != '\n'
    ensures FirstNewline(s) == k
    decreases k
  {
    if k > 0 {
      FirstNewlineAt(s[1..], k - 1);
    }
  }

  /** The first line of a rendering is the top row, so the first newline
      gives away the width. */
  lemma RenderFirstNewline(b: State)
    requires b.Valid()
    ensures FirstNewline(Render(b)) == 2 * b.Width() + 1
  {
    var s := Render(b);
    var w := b.Width();
    forall i | 0 <= i < 2 * w + 1
      ensures s[i] != '\n'
    {
      if i % 2 == 1 {
        assert i == GlyphAt(w, i / 2, 0);
      } else {
        assert i == BarAt(w, i / 2, 0);
      }
    }
    assert s[LineEnd(w, 0)] == '\n';
    FirstNewlineAt(s, 2 * w + 1);
  }

  /** Two boards with the same rendering have the same dimensions and grid. */
  lemma RenderInjective(a: State, b: State)
    requires a.Valid() && b.Valid()
    ensures Render(a) == Render(b) ==> a.Width() == b.Width() && a.Height() == b.Height() && a.grid == b.grid
  {
    if Render(a) == Render(b) {
      SameRenderSameWidth(a, b);
      SameRenderSameHeight(a, b);
      ParseRender(a);
      ParseRender(b);
    }
  }

  /** The first newline of a rendering fixes the width. */
  lemma SameRenderSameWidth(a: State, b: State)
    requires a.Valid() && b.Valid()
    ensures Render(a) == Render(b) ==> a.Width() == b.Width()
  {
    RenderFirstNewline(a);
    RenderFirstNewline(b);
  }

  /** At a given width, the length of a rendering fixes the height. */
  lemma SameRenderSameHeight(a: State, b: State)
    requires a.Valid() && b.Valid()
    ensures Render(a) == Render(b) && a.Width() == b.Width() ==> a.Height() == b.Height()
  {
    if Render(a) == Render(b) && a.Width() == b.Width() {
      LineStartInjective(a.Width(), a.Height(), b.Height());
    }
  }
}
