/** The terminal that the renderer writes to: rows with scrollback, a cursor and a pen.

    Rows are numbered from the oldest scrollback row; the screen is the last `height` rows,
    starting at row `top`. A row holds the cells painted on it; cells beyond its end are blank. */
module Terminal {
  import opened Basics

  /** One piece of a rendered line. A grapheme cluster occupies a given number of columns;
      the other pieces are escape sequences and occupy none. */
  datatype Piece =
    | Glyph(text: string, columns: nat)
    | Style(code: string)
    | Reset
    | Marker

  type Line = seq<Piece>

  type Pen = seq<string>

  datatype Cell = Blank | Painted(text: string, part: nat, pen: Pen)

  type Row = seq<Cell>

  datatype Op =
    | CarriageReturn
    | LineFeed
    | Up(n: nat)
    | Down(n: nat)
    | Column(n: nat)
    | Home
    | EraseLine
    | EraseScreen
    | EraseScrollback
    | Print(line: Line)

  datatype Screen = Screen(width: nat, height: nat, rows: seq<Row>, top: nat, row: nat, column: nat, pen: Pen) {
    predicate Ok() {
      && 1 <= width && 1 <= height
      && |rows| == top + height
      && top <= row < top + height
      && column <= width
    }
  }

  function VisibleWidth(line: Line): nat {
    if line == [] then 0
    else (if line[0].Glyph? then line[0].columns else 0) + VisibleWidth(line[1..])
  }

  /** The cells a line paints when its first column is blank ground and the pen is `pen`. */
  function Cells(line: Line, pen: Pen): Row {
    if line == [] then []
    else
      match line[0]
      case Glyph(text, columns) => GlyphCells(text, columns, pen) + Cells(line[1..], pen)
      case Style(code) => Cells(line[1..], pen + [code])
      case Reset => Cells(line[1..], [])
      case Marker => Cells(line[1..], pen)
  }

  function GlyphCells(text: string, columns: nat, pen: Pen): Row {
    seq(columns, k requires 0 <= k < columns => Painted(text, k, pen))
  }

  /** The row a line shows when it is painted from the left edge with the default pen. */
  function RowOf(line: Line): Row { Cells(line, []) }

  /** A line closes its own styling when it ends in a reset. */
  predicate Closed(line: Line) { line != [] && line[|line| - 1] == Reset }

  function BlankRows(n: nat): (r: seq<Row>)
    ensures |r| == n && forall k :: 0 <= k < n ==> r[k] == []
  {
    seq(n, k => [])
  }

  function BlankScreen(width: nat, height: nat): Screen {
    Screen(width, height, BlankRows(height), 0, 0, 0, [])
  }

  // Replaces the columns starting at `column` by `cells`, padding with blanks when the row is shorter.
  function Overwrite(row: Row, column: nat, cells: Row): Row {
    (if column <= |row| then row[..column] else row + seq(column - |row|, k => Blank))
    + cells
    + (if column + |cells| <= |row| then row[column + |cells|..] else [])
  }

  function Feed(s: Screen): (r: Screen)
    requires s.Ok()
    ensures r.Ok()
  {
    if s.row == s.top + s.height - 1
    then s.(rows := s.rows + [[]], top := s.top + 1, row := s.row + 1)
    else s.(row := s.row + 1)
  }

  function PutGlyph(s: Screen, text: string, columns: nat): (r: Screen)
    requires s.Ok()
    ensures r.Ok()
  {
    var at := if s.column + columns > s.width then Feed(s.(column := 0)) else s;
    at.(rows := at.rows[at.row := Overwrite(at.rows[at.row], at.column, GlyphCells(text, columns, at.pen))],
        column := Min(at.width, at.column + columns))
  }

  function PutLine(s: Screen, line: Line): (r: Screen)
    requires s.Ok()
    ensures r.Ok()
    decreases |line|
  {
    if line == [] then s
    else
      PutLine(
        match line[0]
        case Glyph(text, columns) => PutGlyph(s, text, columns)
        case Style(code) => s.(pen := s.pen + [code])
        case Reset => s.(pen := [])
        case Marker => s,
        line[1..])
  }

  /** Relative vertical moves stop at the screen's edges; a line feed at the bottom row scrolls. */
  function Apply(op: Op, s: Screen): (r: Screen)
    requires s.Ok()
    ensures r.Ok() && r.width == s.width && r.height == s.height
  {
    match op
    case CarriageReturn => s.(column := 0)
    case LineFeed => Feed(s)
    case Up(n) => s.(row := Max(s.top, s.row - n), column := Min(s.column, s.width - 1))
    case Down(n) => s.(row := Min(s.top + s.height - 1, s.row + n), column := Min(s.column, s.width - 1))
    case Column(n) => s.(column := Min(s.width - 1, n))
    case Home => s.(row := s.top, column := 0)
    case EraseLine => s.(rows := s.rows[s.row := []])
    case EraseScreen => s.(rows := s.rows[..s.top] + BlankRows(s.height))
    case EraseScrollback => s.(rows := s.rows[s.top..], top := 0, row := s.row - s.top)
    case Print(line) => PutLineKeepsSize(s, line); PutLine(s, line)
  }

  lemma {:induction false} PutLineKeepsSize(s: Screen, line: Line)
    requires s.Ok()
    ensures PutLine(s, line).width == s.width && PutLine(s, line).height == s.height
    decreases |line|
  {
    if line != [] {
      match line[0]
      case Glyph(text, columns) => PutLineKeepsSize(PutGlyph(s, text, columns), line[1..]);
      case Style(code) => PutLineKeepsSize(s.(pen := s.pen + [code]), line[1..]);
      case Reset => PutLineKeepsSize(s.(pen := []), line[1..]);
      case Marker => PutLineKeepsSize(s, line[1..]);
    }
  }

  /** What the terminal shows after receiving a whole buffer. */
  function Run(ops: seq<Op>, s: Screen): (r: Screen)
    requires s.Ok()
    ensures r.Ok() && r.width == s.width && r.height == s.height
  {
    if ops == [] then s else Apply(ops[|ops| - 1], Run(ops[..|ops| - 1], s))
  }

  lemma RunEmpty(s: Screen)
    requires s.Ok()
    ensures Run([], s) == s
  {
  }

  lemma Snoc(ops: seq<Op>, op: Op, s: Screen)
    requires s.Ok()
    ensures Run(ops + [op], s) == Apply(op, Run(ops, s))
  {
    assert (ops + [op])[..|ops|] == ops;
  }

  lemma {:induction false} CellsWidth(line: Line, pen: Pen)
    ensures |Cells(line, pen)| == VisibleWidth(line)
    decreases |line|
  {
    if line != [] {
      match line[0]
      case Glyph(_, _) => CellsWidth(line[1..], pen);
      case Style(code) => CellsWidth(line[1..], pen + [code]);
      case Reset => CellsWidth(line[1..], []);
      case Marker => CellsWidth(line[1..], pen);
    }
  }

  /** The general painting step: a line that fits to the right of the cursor extends the row by
      exactly its cells and moves nothing else. */
  lemma {:induction false} PutLineExtendsRow(s: Screen, line: Line)
    requires s.Ok() && |s.rows[s.row]| == s.column && s.column + VisibleWidth(line) <= s.width
    ensures var r := PutLine(s, line);
            && r.rows == s.rows[s.row := s.rows[s.row] + Cells(line, s.pen)]
            && r.row == s.row && r.top == s.top && r.column == s.column + VisibleWidth(line)
            && (Closed(line) ==> r.pen == [])
    decreases |line|
  {
    if line == [] {
      assert s.rows[s.row] + Cells(line, s.pen) == s.rows[s.row];
    } else {
      var rest := line[1..];
      var next :=
        match line[0]
        case Glyph(text, columns) => PutGlyph(s, text, columns)
        case Style(code) => s.(pen := s.pen + [code])
        case Reset => s.(pen := [])
        case Marker => s;
      if line[0].Glyph? {
        var cells := GlyphCells(line[0].text, line[0].columns, s.pen);
        assert Overwrite(s.rows[s.row], s.column, cells) == s.rows[s.row] + cells;
        assert s.rows[s.row] + (cells + Cells(rest, s.pen)) == (s.rows[s.row] + cells) + Cells(rest, s.pen);
      }
      PutLineExtendsRow(next, rest);
      if Closed(line) && rest == [] {
        assert line[0] == Reset;
      }
    }
  }

  /** However a closed line wraps, it leaves the pen at its default. */
  lemma {:induction false} ClosedLineLeavesNoPen(s: Screen, line: Line)
    requires s.Ok() && Closed(line)
    ensures PutLine(s, line).pen == []
    decreases |line|
  {
    var rest := line[1..];
    if rest == [] {
      assert line[0] == Reset;
    } else {
      match line[0]
      case Glyph(text, columns) => ClosedLineLeavesNoPen(PutGlyph(s, text, columns), rest);
      case Style(code) => ClosedLineLeavesNoPen(s.(pen := s.pen + [code]), rest);
      case Reset => ClosedLineLeavesNoPen(s.(pen := []), rest);
      case Marker => ClosedLineLeavesNoPen(s, rest);
    }
  }

  /** On a blank row, with the cursor at the left edge and the default pen, a closed line that fits
      leaves exactly its own row behind and the pen back at its default. */
  lemma PrintOnBlankRow(s: Screen, line: Line)
    requires s.Ok() && s.rows[s.row] == [] && s.column == 0 && s.pen == []
    requires Closed(line) && VisibleWidth(line) <= s.width
    ensures Apply(Print(line), s)
            == s.(rows := s.rows[s.row := RowOf(line)], column := VisibleWidth(line))
  {
    PutLineKeepsSize(s, line);
    PutLineExtendsRow(s, line);
    assert s.rows[s.row] + Cells(line, s.pen) == RowOf(line);
  }
}
