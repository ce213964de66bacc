/** What the differential renderer computes and emits: the cursor marker, the changed rows, and the
    buffers of cursor moves, erasures and lines, each proved by what the terminal shows afterwards. */
module FrameDiff {
  import opened Basics
  import opened Options
  import opened Terminal

  datatype Position = Position(row: nat, column: nat)

  ghost predicate AllFit(lines: seq<Line>, width: nat) {
    forall i :: 0 <= i < |lines| ==> VisibleWidth(lines[i]) <= width
  }

  ghost predicate AllClosed(lines: seq<Line>) {
    forall i :: 0 <= i < |lines| ==> Closed(lines[i])
  }

  /** The rows, scrollback included, are exactly the given lines followed by blanks. */
  ghost predicate Shows(rows: seq<Row>, lines: seq<Line>) {
    && |lines| <= |rows|
    && (forall i :: 0 <= i < |lines| ==> rows[i] == RowOf(lines[i]))
    && (forall i :: |lines| <= i < |rows| ==> rows[i] == [])
  }

  function LineAt(lines: seq<Line>, i: nat): Line { if i < |lines| then lines[i] else [] }

  // ---------- The cursor marker ----------

  ghost predicate IsMarkerRow(lines: seq<Line>, height: nat, row: int) {
    && Max(0, |lines| - height) <= row < |lines|
    && Marker in lines[row]
    && forall k :: row < k < |lines| ==> Marker !in lines[k]
  }

  ghost predicate HasMarker(lines: seq<Line>, height: nat) {
    exists row :: IsMarkerRow(lines, height, row)
  }

  function FirstMarker(line: Line): (k: nat)
    ensures k <= |line| && Marker !in line[..k]
    ensures if Marker in line then k < |line| && line[k] == Marker else k == |line|
  {
    if line == [] || line[0] == Marker then 0
    else
      var k := FirstMarker(line[1..]);
      assert line[..k + 1] == [line[0]] + line[1..][..k];
      k + 1
  }

  function WithoutMarker(line: Line): Line
    requires Marker in line
  {
    line[..FirstMarker(line)] + line[FirstMarker(line) + 1..]
  }

  /** Where the lowest marker on the screen stands. */
  ghost function CursorOf(rendered: seq<Line>, height: nat): Option<Position> {
    if HasMarker(rendered, height) then
      var row :| IsMarkerRow(rendered, height, row);
      Some(Position(row, VisibleWidth(rendered[row][..FirstMarker(rendered[row])])))
    else None
  }

  /** The frame as it is compared and painted: that marker is stripped and every line is closed. */
  ghost function FrameOf(rendered: seq<Line>, height: nat): (lines: seq<Line>)
    ensures |lines| == |rendered| && AllClosed(lines)
  {
    seq(|rendered|, i requires 0 <= i < |rendered| =>
      (if IsMarkerRow(rendered, height, i) then WithoutMarker(rendered[i]) else rendered[i]) + [Reset])
  }

  lemma {:induction false} VisibleWidthConcat(a: Line, b: Line)
    ensures VisibleWidth(a + b) == VisibleWidth(a) + VisibleWidth(b)
    decreases |a|
  {
    if a == [] {
      assert a + b == b;
    } else {
      assert (a + b)[1..] == a[1..] + b;
      VisibleWidthConcat(a[1..], b);
    }
  }

  // Stripping the marker and closing the lines changes no width.
  lemma FrameWidth(rendered: seq<Line>, height: nat, i: nat)
    requires i < |rendered|
    ensures VisibleWidth(FrameOf(rendered, height)[i]) == VisibleWidth(rendered[i])
  {
    var line := rendered[i];
    VisibleWidthConcat(line, [Reset]);
    if IsMarkerRow(rendered, height, i) {
      var k := FirstMarker(line);
      VisibleWidthConcat(WithoutMarker(line), [Reset]);
      VisibleWidthConcat(line[..k], line[k + 1..]);
      VisibleWidthConcat(line[..k], [Marker] + line[k + 1..]);
      assert line == line[..k] + ([Marker] + line[k + 1..]);
      assert ([Marker] + line[k + 1..])[1..] == line[k + 1..];
    }
  }

  lemma FrameFits(rendered: seq<Line>, height: nat, width: nat)
    ensures AllFit(FrameOf(rendered, height), width) <==> AllFit(rendered, width)
  {
    forall i | 0 <= i < |rendered|
      ensures VisibleWidth(FrameOf(rendered, height)[i]) == VisibleWidth(rendered[i])
    {
      FrameWidth(rendered, height, i);
    }
  }

  // ---------- What a frame shows ----------

  lemma {:induction false} CellsOfPrefix(line: Line, k: nat, pen: Pen)
    requires k <= |line|
    ensures Cells(line[..k], pen) <= Cells(line, pen)
    decreases |line|
  {
    if k > 0 {
      var rest, front := line[1..], line[..k];
      assert front[1..] == rest[..k - 1];
      match line[0]
      case Glyph(_, _) => CellsOfPrefix(rest, k - 1, pen);
      case Style(code) => CellsOfPrefix(rest, k - 1, pen + [code]);
      case Reset => CellsOfPrefix(rest, k - 1, []);
      case Marker => CellsOfPrefix(rest, k - 1, pen);
    }
  }

  lemma {:induction false} MarkerShowsNothing(line: Line, k: nat, pen: Pen)
    requires k < |line| && line[k] == Marker
    ensures Cells(line[..k] + line[k + 1..], pen) == Cells(line, pen)
    decreases |line|
  {
    var rest, stripped := line[1..], line[..k] + line[k + 1..];
    if k == 0 {
      assert stripped == rest;
    } else {
      assert stripped[0] == line[0] && stripped[1..] == rest[..k - 1] + rest[k..];
      match line[0]
      case Glyph(_, _) => MarkerShowsNothing(rest, k - 1, pen);
      case Style(code) => MarkerShowsNothing(rest, k - 1, pen + [code]);
      case Reset => MarkerShowsNothing(rest, k - 1, []);
      case Marker => MarkerShowsNothing(rest, k - 1, pen);
    }
  }

  lemma {:induction false} ResetShowsNothing(line: Line, pen: Pen)
    ensures Cells(line + [Reset], pen) == Cells(line, pen)
    decreases |line|
  {
    if line == [] {
      assert [Reset][1..] == [];
    } else {
      var rest := line[1..];
      assert (line + [Reset])[0] == line[0] && (line + [Reset])[1..] == rest + [Reset];
      match line[0]
      case Glyph(_, _) => ResetShowsNothing(rest, pen);
      case Style(code) => ResetShowsNothing(rest, pen + [code]);
      case Reset => ResetShowsNothing(rest, []);
      case Marker => ResetShowsNothing(rest, pen);
    }
  }

  lemma RowIsCells(line: Line)
    ensures RowOf(line) == Cells(line, [])
  {
  }

  /** Stripping the marker and closing the lines changes nothing of what is shown. */
  lemma FrameShowsLines(rendered: seq<Line>, height: nat, rows: seq<Row>)
    ensures Shows(rows, FrameOf(rendered, height)) <==> Shows(rows, rendered)
  {
    hide Cells;
    forall i | 0 <= i < |rendered| ensures RowOf(FrameOf(rendered, height)[i]) == RowOf(rendered[i]) {
      var line := rendered[i];
      ResetShowsNothing(line, []);
      if IsMarkerRow(rendered, height, i) {
        ResetShowsNothing(WithoutMarker(line), []);
        MarkerShowsNothing(line, FirstMarker(line), []);
      }
    }
  }

  /** The lowest marker of the last `height` lines is piece `k` of line `row`, the first marker there. */
  ghost predicate LowestMarker(rendered: seq<Line>, height: nat, row: int, k: int) {
    && 0 <= row < |rendered| && |rendered| - height <= row
    && 0 <= k < |rendered[row]| && rendered[row][k] == Marker
    && (forall j :: 0 <= j < k ==> rendered[row][j] != Marker)
    && (forall r, j :: row < r < |rendered| && 0 <= j < |rendered[r]| ==> rendered[r][j] != Marker)
  }

  /** The cursor belongs behind what is painted before that marker. */
  lemma CursorIsMarker(rendered: seq<Line>, height: nat, row: int, k: int)
    requires LowestMarker(rendered, height, row, k)
    ensures CursorOf(rendered, height) == Some(Position(row, |Cells(rendered[row][..k], [])|))
  {
    hide VisibleWidth, Cells;
    assert Marker in rendered[row];
    assert IsMarkerRow(rendered, height, row);
    assert FirstMarker(rendered[row]) == k;
    CellsWidth(rendered[row][..k], []);
  }

  lemma CursorHasMarker(rendered: seq<Line>, height: nat)
    requires CursorOf(rendered, height).Some?
    ensures exists row, k :: LowestMarker(rendered, height, row, k)
  {
    hide VisibleWidth;
    var row :| IsMarkerRow(rendered, height, row);
    assert LowestMarker(rendered, height, row, FirstMarker(rendered[row]));
  }

  method ExtractCursorPosition(rendered: seq<Line>, height: nat) returns (cursor: Option<Position>, lines: seq<Line>)
    ensures cursor == CursorOf(rendered, height)
    ensures lines == if cursor.None? then rendered
                     else rendered[cursor.value.row := WithoutMarker(rendered[cursor.value.row])]
  {
    lines := rendered;
    var viewportTop := Max(0, |lines| - height);
    var row := |lines| - 1;
    while row >= viewportTop
      invariant viewportTop - 1 <= row < |lines|
      invariant forall k :: row < k < |lines| ==> Marker !in lines[k]
    {
      var line := lines[row];
      var markerIndex := FirstMarker(line);
      if markerIndex < |line| {
        var beforeMarker := line[..markerIndex];
        lines := lines[row := beforeMarker + line[markerIndex + 1..]];
        assert IsMarkerRow(rendered, height, row);
        return Some(Position(row, VisibleWidth(beforeMarker))), lines;
      }
      row := row - 1;
    }
    cursor := None;
  }

  method ApplyLineResets(lines: seq<Line>) returns (closed: seq<Line>)
    ensures closed == seq(|lines|, i requires 0 <= i < |lines| => lines[i] + [Reset])
  {
    closed := lines;
    for i := 0 to |lines|
      invariant |closed| == |lines|
      invariant forall k :: 0 <= k < i ==> closed[k] == lines[k] + [Reset]
      invariant forall k :: i <= k < |lines| ==> closed[k] == lines[k]
    {
      closed := closed[i := closed[i] + [Reset]];
    }
  }

  // The two passes over the rendered lines produce the frame.
  lemma PassesMakeFrame(rendered: seq<Line>, height: nat, stripped: seq<Line>)
    requires stripped == if CursorOf(rendered, height).None? then rendered
                         else var row := CursorOf(rendered, height).value.row;
                              rendered[row := WithoutMarker(rendered[row])]
    ensures FrameOf(rendered, height) == seq(|stripped|, i requires 0 <= i < |stripped| => stripped[i] + [Reset])
  {
    assert forall i :: IsMarkerRow(rendered, height, i) <==>
                       CursorOf(rendered, height).Some? && i == CursorOf(rendered, height).value.row;
  }

  // ---------- Which rows changed ----------

  ghost predicate IsChangedRange(old': seq<Line>, new': seq<Line>, first: int, last: int) {
    if first == -1 then old' == new'
    else
      && 0 <= first <= last < Max(|old'|, |new'|)
      && LineAt(old', first) != LineAt(new', first)
      && (forall k :: 0 <= k < first ==> LineAt(old', k) == LineAt(new', k))
      && (forall k :: last < k < Max(|old'|, |new'|) ==> LineAt(old', k) == LineAt(new', k))
      && (|old'| != |new'| ==> last == Max(|old'|, |new'|) - 1)
  }

  /** The first line that differs, where a missing line counts as an empty one. */
  ghost predicate IsFirstChange(old': seq<Line>, new': seq<Line>, first: nat) {
    LineAt(old', first) != LineAt(new', first) && forall k :: 0 <= k < first ==> LineAt(old', k) == LineAt(new', k)
  }

  lemma FirstChangeIsUnique(old': seq<Line>, new': seq<Line>, first: nat, last: int)
    requires IsChangedRange(old', new', first, last)
    ensures forall k: nat :: IsFirstChange(old', new', k) <==> k == first
  {
  }

  method ChangedRange(previousLines: seq<Line>, newLines: seq<Line>) returns (firstChanged: int, lastChanged: int)
    requires AllClosed(previousLines) && AllClosed(newLines)
    ensures IsChangedRange(previousLines, newLines, firstChanged, lastChanged)
  {
    firstChanged, lastChanged := -1, -1;
    var maxLines := Max(|newLines|, |previousLines|);
    for i := 0 to maxLines
      invariant firstChanged == -1 ==> lastChanged == -1
      invariant firstChanged == -1 ==> forall k :: 0 <= k < i ==> LineAt(previousLines, k) == LineAt(newLines, k)
      invariant firstChanged != -1 ==>
                  && 0 <= firstChanged <= lastChanged < i
                  && LineAt(previousLines, firstChanged) != LineAt(newLines, firstChanged)
                  && (forall k :: 0 <= k < firstChanged ==> LineAt(previousLines, k) == LineAt(newLines, k))
                  && (forall k :: lastChanged < k < i ==> LineAt(previousLines, k) == LineAt(newLines, k))
      invariant i > Min(|newLines|, |previousLines|) ==> firstChanged != -1 && lastChanged == i - 1
    {
      var oldLine := LineAt(previousLines, i);
      var newLine := LineAt(newLines, i);
      if oldLine != newLine {
        if firstChanged == -1 {
          firstChanged := i;
        }
        lastChanged := i;
      }
    }
    if firstChanged == -1 {
      forall k | 0 <= k < |newLines| ensures newLines[k] == previousLines[k] {
        assert LineAt(previousLines, k) == LineAt(newLines, k);
      }
    }
    if |newLines| > |previousLines| {
      // Every line is closed, so the loop has already found the appended lines.
      assert firstChanged != -1;
      lastChanged := |newLines| - 1;
    }
  }

  // ---------- Emitted moves ----------

  function RowMove(delta: int): seq<Op> {
    if delta > 0 then [Down(delta)] else if delta < 0 then [Up(-delta)] else []
  }

  /** A relative move stays on the screen. */
  predicate OnScreen(op: Op, s: Screen) {
    match op
    case Up(n) => s.top <= s.row - n
    case Down(n) => s.row + n < s.top + s.height
    case _ => true
  }

  /** No relative move of a buffer is clamped at an edge of the screen. */
  ghost predicate Unclamped(buffer: seq<Op>, start: Screen)
    requires start.Ok()
  {
    buffer == []
    || (Unclamped(buffer[..|buffer| - 1], start) && OnScreen(buffer[|buffer| - 1], Run(buffer[..|buffer| - 1], start)))
  }

  lemma UnclampedMore(buffer: seq<Op>, op: Op, start: Screen)
    requires start.Ok()
    ensures Unclamped(buffer, start) && OnScreen(op, Run(buffer, start)) ==> Unclamped(buffer + [op], start)
    ensures Unclamped([], start)
  {
    assert (buffer + [op])[..|buffer|] == buffer;
  }

  // Only the cursor's place differs.
  ghost predicate SameRows(s: Screen, t: Screen) {
    && s.rows == t.rows && s.top == t.top && s.pen == t.pen
    && s.width == t.width && s.height == t.height
  }

  /** Where a relative move to `row` ends: at the edges of the screen it stops. */
  function Landing(s: Screen, row: int): (r: nat)
    requires s.Ok()
    ensures s.top <= r < s.top + s.height
    ensures s.top <= row < s.top + s.height ==> r == row
  {
    Clamp(row, s.top, s.top + s.height - 1)
  }

  function Clamp(row: int, top: nat, bottom: nat): (r: nat)
    requires top <= bottom
    ensures top <= r <= bottom && (top <= row <= bottom ==> r == row)
  {
    Max(top, Min(bottom, row))
  }

  lemma DownLands(buffer: seq<Op>, start: Screen, n: nat)
    requires start.Ok()
    ensures var t, r := Run(buffer, start), Run(buffer + [Down(n)], start);
            SameRows(r, t) && r.row == Landing(t, t.row + n) && r.column <= t.column
    ensures var t := Run(buffer, start);
            Unclamped(buffer, start) && Landing(t, t.row + n) == t.row + n ==> Unclamped(buffer + [Down(n)], start)
  {
    hide Unclamped;
    UnclampedMore(buffer, Down(n), start);
    Snoc(buffer, Down(n), start);
  }

  lemma UpLands(buffer: seq<Op>, start: Screen, n: nat)
    requires start.Ok()
    ensures var t, r := Run(buffer, start), Run(buffer + [Up(n)], start);
            SameRows(r, t) && r.row == Landing(t, t.row - n) && r.column <= t.column
    ensures var t := Run(buffer, start);
            Unclamped(buffer, start) && Landing(t, t.row - n) == t.row - n ==> Unclamped(buffer + [Up(n)], start)
  {
    hide Unclamped;
    UnclampedMore(buffer, Up(n), start);
    Snoc(buffer, Up(n), start);
  }

  lemma ReturnIsExact(buffer: seq<Op>, start: Screen)
    requires start.Ok()
    ensures var t, r := Run(buffer, start), Run(buffer + [CarriageReturn], start);
            SameRows(r, t) && r.row == t.row && r.column == 0
    ensures Unclamped(buffer, start) ==> Unclamped(buffer + [CarriageReturn], start)
  {
    hide Unclamped;
    UnclampedMore(buffer, CarriageReturn, start);
    Snoc(buffer, CarriageReturn, start);
  }

  lemma EraseIsExact(buffer: seq<Op>, start: Screen)
    requires start.Ok()
    ensures var t, r := Run(buffer, start), Run(buffer + [EraseLine], start);
            r == t.(rows := t.rows[t.row := []])
    ensures Unclamped(buffer, start) ==> Unclamped(buffer + [EraseLine], start)
  {
    hide Unclamped;
    UnclampedMore(buffer, EraseLine, start);
    Snoc(buffer, EraseLine, start);
  }

  lemma NewLineIsExact(buffer: seq<Op>, start: Screen)
    requires start.Ok()
    ensures var t, r := Run(buffer, start), Run(buffer + [CarriageReturn] + [LineFeed], start);
            && r.row == t.row + 1 && r.column == 0 && r.pen == t.pen
            && r.top == Max(t.top, r.row - r.height + 1)
            && r.rows == (if r.top == t.top then t.rows else t.rows + [[]])
    ensures Unclamped(buffer, start) ==> Unclamped(buffer + [CarriageReturn] + [LineFeed], start)
  {
    hide Unclamped;
    UnclampedMore(buffer, CarriageReturn, start);
    UnclampedMore(buffer + [CarriageReturn], LineFeed, start);
    Snoc(buffer, CarriageReturn, start);
    Snoc(buffer + [CarriageReturn], LineFeed, start);
  }

  lemma PrintIsExact(buffer: seq<Op>, start: Screen, line: Line)
    requires start.Ok()
    requires var t := Run(buffer, start); t.rows[t.row] == [] && t.column == 0 && t.pen == []
    requires Closed(line) && VisibleWidth(line) <= start.width
    ensures var t, r := Run(buffer, start), Run(buffer + [Print(line)], start);
            r == t.(rows := t.rows[t.row := RowOf(line)], column := VisibleWidth(line))
    ensures Unclamped(buffer, start) ==> Unclamped(buffer + [Print(line)], start)
  {
    hide Unclamped;
    UnclampedMore(buffer, Print(line), start);
    Snoc(buffer, Print(line), start);
    PrintOnBlankRow(Run(buffer, start), line);
  }

  lemma RowMoveLands(start: Screen, delta: int)
    requires start.Ok()
    ensures var r := Run(RowMove(delta), start);
            SameRows(r, start) && r.row == Landing(start, start.row + delta) && (delta == 0 ==> r == start)
    ensures Landing(start, start.row + delta) == start.row + delta ==> Unclamped(RowMove(delta), start)
  {
    hide Unclamped;
    RunEmpty(start);
    UnclampedMore([], CarriageReturn, start);
    assert [] + RowMove(delta) == RowMove(delta);
    if delta > 0 {
      DownLands([], start, delta);
    } else if delta < 0 {
      UpLands([], start, -delta);
    }
  }

  // ---------- Buffers ----------

  /** A whole frame: optionally clear everything, then print the lines separated by line feeds. */
  method FullFrame(newLines: seq<Line>, clear: bool, ghost start: Screen) returns (buffer: seq<Op>)
    requires start.Ok() && start.pen == [] && AllClosed(newLines)
    ensures Run(buffer, start).pen == []
    ensures AllFit(newLines, start.width) && (clear || Printed(start, [])) ==>
              var s := Run(buffer, start);
              && Mirrors(s, newLines, Max(0, |newLines| - s.height))
              && s.row == Max(0, |newLines| - 1) && (newLines == [] ==> s.column == 0)
  {
    hide Run, RowOf, Unclamped, Closed, VisibleWidth;
    RunEmpty(start);
    buffer := [];
    if clear {
      Snoc(buffer, EraseScreen, start);
      Snoc(buffer + [EraseScreen], Home, start);
      Snoc(buffer + [EraseScreen] + [Home], EraseScrollback, start);
      buffer := buffer + [EraseScreen] + [Home] + [EraseScrollback];
      ClearingEmpties(start);
    }
    ghost var fits := AllFit(newLines, start.width) && (clear || Printed(start, []));
    for i := 0 to |newLines|
      invariant Run(buffer, start).pen == []
      invariant fits ==> Printed(Run(buffer, start), newLines[..i])
    {
      ghost var lines, s := newLines[..i], Run(buffer, start);
      if i > 0 {
        NewLineIsExact(buffer, start);
        buffer := buffer + [CarriageReturn] + [LineFeed];
      }
      if fits {
        PrintedGoesOn(buffer, start, s, lines, newLines[i]);
        assert newLines[..i + 1] == lines + [newLines[i]];
      } else {
        PrintLeavesNoPen(buffer, start, newLines[i]);
      }
      buffer := buffer + [Print(newLines[i])];
    }
    assert newLines[..|newLines|] == newLines;
  }

  lemma PrintLeavesNoPen(buffer: seq<Op>, start: Screen, line: Line)
    requires start.Ok() && Closed(line)
    ensures Run(buffer + [Print(line)], start).pen == []
  {
    hide Run, PutLine, Closed;
    Snoc(buffer, Print(line), start);
    ClosedLineLeavesNoPen(Run(buffer, start), line);
  }

  // Clearing leaves a blank screen without scrollback, whatever was shown.
  lemma ClearingEmpties(start: Screen)
    requires start.Ok() && start.pen == []
    ensures Printed(Apply(EraseScrollback, Apply(Home, Apply(EraseScreen, start))), [])
  {
  }

  // The state of a full redraw after some lines.
  ghost predicate Printed(s: Screen, lines: seq<Line>)
    requires s.Ok()
  {
    && s.pen == [] && Shows(s.rows, lines)
    && s.row == Max(0, |lines| - 1) && s.top == Max(0, |lines| - s.height)
    && (lines == [] ==> s.column == 0)
  }

  // Going to the next row (unless nothing is printed yet) finds a blank row below the printed lines.
  lemma NextRowIsBlank(s: Screen, t: Screen, lines: seq<Line>)
    requires s.Ok() && Printed(s, lines)
    requires if lines == [] then t == s else IsNextRow(s, t)
    ensures t.row == |lines| && t.top == Max(0, |lines| + 1 - t.height)
    ensures t.pen == [] && t.column == 0 && t.rows[t.row] == [] && Shows(t.rows, lines)
  {
    hide RowOf;
  }

  lemma PrintedGoesOn(buffer: seq<Op>, start: Screen, s: Screen, lines: seq<Line>, line: Line)
    requires start.Ok() && s.Ok() && Printed(s, lines) && Closed(line) && VisibleWidth(line) <= start.width
    requires if lines == [] then Run(buffer, start) == s else IsNextRow(s, Run(buffer, start))
    ensures Printed(Run(buffer + [Print(line)], start), lines + [line])
  {
    hide Run, RowOf, Closed, VisibleWidth;
    NextRowIsBlank(s, Run(buffer, start), lines);
    PrintIsExact(buffer, start, line);
  }

  ghost predicate IsNextRow(s: Screen, t: Screen) {
    && s.Ok() && t.Ok() && t.height == s.height && t.width == s.width
    && t.row == s.row + 1 && t.column == 0 && t.pen == s.pen
    && t.top == Max(s.top, t.row - t.height + 1)
    && t.rows == (if t.top == s.top then s.rows else s.rows + [[]])
  }

  // ---------- The renderer's memory of the terminal ----------

  /** The terminal shows exactly `lines`, which end inside its screen and below its top row, and
      `top` is its top row. */
  ghost predicate Mirrors(s: Screen, lines: seq<Line>, top: int) {
    && s.Ok() && s.pen == []
    && AllClosed(lines) && AllFit(lines, s.width)
    && Shows(s.rows, lines)
    && top == s.top
    && (if lines == [] then top == 0 else top < |lines| <= top + s.height)
  }

  // Where the cursor stands is no part of what is mirrored.
  lemma MirrorsWithCursorMoved(s: Screen, lines: seq<Line>, top: int, row: nat, column: nat)
    requires Mirrors(s, lines, top) && s.top <= row < s.top + s.height && column <= s.width
    ensures Mirrors(s.(row := row, column := column), lines, top)
  {
  }

  // Rows at and after `from` are blank up to `to`; all other rows are unchanged.
  ghost predicate Cleared(before: seq<Row>, after: seq<Row>, from: nat, to: nat) {
    && |after| == |before|
    && forall i :: 0 <= i < |after| ==> after[i] == if from <= i < to then [] else before[i]
  }

  /** Blanks `extraLines` rows from the cursor's row down; the moves stop at the bottom of the screen. */
  method BlankInPlace(buffer0: seq<Op>, extraLines: nat, ghost from: nat, ghost start: Screen, ghost reached: bool)
    returns (buffer: seq<Op>)
    requires start.Ok() && from == Landing(start, from) && extraLines > 0
    requires var s := Run(buffer0, start); SameRows(s, start) && s.row == from && s.column == 0
    requires reached ==> from + extraLines <= start.top + start.height && Unclamped(buffer0, start)
    ensures var s := Run(buffer, start);
            && s.row == Landing(start, from + extraLines - 1)
            && s.column == 0 && SameSides(s, start) && s.pen == start.pen
            && Cleared(start.rows, s.rows, from, from + extraLines)
    ensures reached ==> Unclamped(buffer, start)
  {
    hide Run, Apply, RowOf, Unclamped, Clearing, Clamp;
    buffer := buffer0;
    ClearingStarts(start, Run(buffer, start), from);
    for i := 0 to extraLines
      invariant Clearing(start, Run(buffer, start), from, i, extraLines - 1)
      invariant reached ==> Unclamped(buffer, start)
    {
      ghost var s := Run(buffer, start);
      ReturnIsExact(buffer, start);
      EraseIsExact(buffer + [CarriageReturn], start);
      buffer := buffer + [CarriageReturn] + [EraseLine];
      if i < extraLines - 1 {
        DownLands(buffer, start, 1);
        ClearingRow(start, s, from, i, extraLines - 1);
        buffer := buffer + [Down(1)];
      }
      ClearingGoesOn(start, s, Run(buffer, start), from, i, extraLines - 1);
    }
    ClearingEnds(start, Run(buffer, start), from, extraLines);
  }

  /** Moves to the last new line, and on to the row below it unless there is none. */
  method ReachFirstDeleted(lineDiff: int, extraLines: nat, clearStartOffset: nat, ghost start: Screen)
    returns (buffer: seq<Op>)
    requires start.Ok() && extraLines > 0
    ensures var s, target := Run(buffer, start), Landing(start, start.row + lineDiff);
            SameRows(s, start) && s.row == Landing(start, target + clearStartOffset) && s.column == 0
    ensures start.top <= start.row + lineDiff && start.row + lineDiff + clearStartOffset < start.top + start.height ==>
              Unclamped(buffer, start)
  {
    hide Run, Apply, RowOf, Unclamped, Clamp;
    RowMoveLands(start, lineDiff);
    buffer := RowMove(lineDiff);
    ReturnIsExact(buffer, start);
    buffer := buffer + [CarriageReturn];
    if extraLines > 0 && clearStartOffset > 0 {
      DownLands(buffer, start, clearStartOffset);
      buffer := buffer + [Down(clearStartOffset)];
    }
  }

  /** The buffer for dropped lines: `extraLines` rows are blanked in place, from the row below the last
      new line on, as far as the moves reach it. */
  method ClearDeletedRows(previousLines: seq<Line>, newLines: seq<Line>, lineDiff: int, ghost start: Screen)
    returns (buffer: seq<Op>)
    requires start.Ok() && |newLines| < |previousLines|
    ensures var s, from, extra := Run(buffer, start), FirstCleared(start, lineDiff,
                                                                   newLines), |previousLines| - |newLines|;
            && SameSides(s, start) && s.pen == start.pen && s.column == 0
            && s.row == Landing(start, Landing(start, from + extra - 1) - extra + if newLines == [] then 1 else 0)
            && Cleared(start.rows, s.rows, from, from + extra)
    ensures (start.top <= start.row + lineDiff == Max(0, |newLines| - 1)
             && |previousLines| <= start.top + start.height) ==>
              Unclamped(buffer, start)
  {
    hide Run, Apply, RowOf, Unclamped, Cleared, Clamp;
    var extraLines := |previousLines| - |newLines|;
    var clearStartOffset := if |newLines| == 0 then 0 else 1;
    ghost var from := FirstCleared(start, lineDiff, newLines);
    ghost var reached := start.top <= start.row + lineDiff == Max(0, |newLines| - 1)
                         && |previousLines| <= start.top + start.height;
    buffer := ReachFirstDeleted(lineDiff, extraLines, clearStartOffset, start);
    buffer := BlankInPlace(buffer, extraLines, from, start, reached);
    var moveBack := Max(0, extraLines - 1 + clearStartOffset);
    if moveBack > 0 {
      UpLands(buffer, start, moveBack);
      buffer := buffer + [Up(moveBack)];
    }
  }

  // `i` rows are blanked from row `from` on, and the cursor is on the next one, if there is one.
  ghost predicate Clearing(start: Screen, s: Screen, from: nat, i: nat, last: nat)
    requires start.Ok()
  {
    && s.row == Landing(start, from + Min(i, last))
    && s.column == 0 && SameSides(s, start) && s.pen == start.pen
    && Cleared(start.rows, s.rows, from, from + i)
  }

  lemma ClearingStarts(start: Screen, s: Screen, from: nat)
    requires start.Ok() && SameRows(s, start) && s.Ok() && s.row == from == Landing(start, from) && s.column == 0
    ensures forall last: nat :: Clearing(start, s, from, 0, last)
  {
  }

  lemma ClearingRow(start: Screen, s: Screen, from: nat, i: nat, last: nat)
    requires start.Ok() && Clearing(start, s, from, i, last) && i < last
    ensures s.row == Landing(start, from + i) && SameSides(s, start)
  {
  }

  lemma ClearingGoesOn(start: Screen, s: Screen, r: Screen, from: nat, i: nat, last: nat)
    requires start.Ok() && from == Landing(start, from) && i <= last && Clearing(start, s, from, i, last)
    requires SameSides(r, s) && r.pen == s.pen && r.column == 0 && r.rows == s.rows[s.row := []]
    requires r.row == if i < last then Landing(s, s.row + 1) else s.row
    ensures Clearing(start, r, from, i + 1, last)
  {
  }

  lemma ClearingEnds(start: Screen, s: Screen, from: nat, extra: nat)
    requires start.Ok() && 0 < extra && Clearing(start, s, from, extra, extra - 1)
    ensures s.row == Landing(start, from + extra - 1)
    ensures s.column == 0 && SameSides(s, start) && s.pen == start.pen
    ensures Cleared(start.rows, s.rows, from, from + extra)
  {
  }

  ghost predicate SameSides(s: Screen, t: Screen) {
    s.Ok() && s.top == t.top && s.width == t.width && s.height == t.height
  }

  // The first row that is blanked for dropped lines.
  ghost function FirstCleared(start: Screen, lineDiff: int, newLines: seq<Line>): nat
    requires start.Ok()
  {
    Landing(start, Landing(start, start.row + lineDiff) + if newLines == [] then 0 else 1)
  }

  /** Dropped lines are gone if the first of their rows is the first one blanked. */
  lemma DeletionIsRight(start: Screen, s: Screen, oldLines: seq<Line>, newLines: seq<Line>, top: nat)
    requires Mirrors(start, oldLines, top)
    requires |newLines| < |oldLines| && newLines == oldLines[..|newLines|] && top <= Max(0, |newLines| - 1)
    requires SameSides(s, start) && s.pen == [] && Cleared(start.rows, s.rows, |newLines|, |oldLines|)
    ensures Mirrors(s, newLines, top)
  {
    hide RowOf, VisibleWidth;
  }

  /** If blanking starts further down, the first of their rows stays as it was. */
  lemma DeletionMissesFirst(start: Screen, s: Screen, oldLines: seq<Line>, newLines: seq<Line>, from: nat)
    requires Shows(start.rows, oldLines) && |newLines| < |oldLines| && |newLines| < from
    requires Cleared(start.rows, s.rows, from, from + |oldLines| - |newLines|)
    requires RowOf(oldLines[|newLines|]) != []
    ensures !Shows(s.rows, newLines)
  {
    hide RowOf;
  }

  lemma UnchangedAstray(start: Screen, remembered: int, lines: seq<Line>)
    requires Shows(start.rows, lines)
    ensures PaintedAstray(start, remembered, lines, lines, start.rows)
  {
    hide RowOf;
  }

  lemma ChangedAstray(start: Screen, remembered: int, oldLines: seq<Line>, newLines: seq<Line>, first: nat, last: int,
                      rows: seq<Row>)
    requires IsChangedRange(oldLines, newLines, first, last) && AllClosed(newLines)
    requires RowOf(LineAt(oldLines, first)) != RowOf(LineAt(newLines, first)) ==>
               (Shows(rows, newLines) <==> Reaches(start, remembered, |oldLines|, first))
    requires first == |oldLines| < |newLines| ==>
               WrittenBelow(start.rows, rows, AppendedAt(start, remembered, first), newLines[first..])
    ensures PaintedAstray(start, remembered, oldLines, newLines, rows)
  {
    hide RowOf, Reaches, Shows, WrittenBelow, AppendedAt;
    FirstChangeIsUnique(oldLines, newLines, first, last);
    if oldLines < newLines {
      assert forall k :: 0 <= k < |oldLines| ==> LineAt(oldLines, k) == LineAt(newLines, k);
      ChangeStartsInside(oldLines, newLines, first, last);
    }
  }

  lemma DroppedRange(oldLines: seq<Line>, newLines: seq<Line>)
    requires |newLines| < |oldLines| && newLines == oldLines[..|newLines|] && AllClosed(oldLines)
    ensures IsChangedRange(oldLines, newLines, |newLines|, |oldLines| - 1)
  {
  }

  lemma DeletionOutcome(start: Screen, s: Screen, oldLines: seq<Line>, newLines: seq<Line>, top: nat, remembered: int)
    requires start.Ok() && start.pen == [] && |newLines| < |oldLines| && newLines == oldLines[..|newLines|]
    requires top <= Max(0, |newLines| - 1) && |oldLines| <= top + start.height && s.pen == [] && SameSides(s, start)
    requires var lineDiff, extra := Max(0, |newLines| - 1) - remembered, |oldLines| - |newLines|;
             var from := FirstCleared(start, lineDiff, newLines);
             && s.row == Landing(start, Landing(start, from + extra - 1) - extra + if newLines == [] then 1 else 0)
             && Cleared(start.rows, s.rows, from, from + extra)
    ensures Mirrors(start, oldLines, top) && remembered <= start.row
            && Reaches(start, remembered, |oldLines|, |newLines|) ==>
              && Mirrors(s, newLines, top) && s.row == Max(0, |newLines| - 1)
              && s.top == Max(start.top, |newLines| - s.height)
    ensures Mirrors(start, oldLines, top) && remembered < start.row ==>
              PaintedAstray(start, remembered, oldLines, newLines, s.rows)
  {
    hide RowOf, VisibleWidth, Cleared, PaintedAstray;
    if Mirrors(start, oldLines, top) && remembered <= start.row {
      var from := FirstCleared(start, Max(0, |newLines| - 1) - remembered, newLines);
      if Reaches(start, remembered, |oldLines|, |newLines|) {
        DeletionIsRight(start, s, oldLines, newLines, top);
      } else if RowOf(oldLines[|newLines|]) != [] {
        DeletionMissesFirst(start, s, oldLines, newLines, from);
      }
      DroppedRange(oldLines, newLines);
      BlankLineIsBlank();
      ChangedAstray(start, remembered, oldLines, newLines, |newLines|, |oldLines| - 1, s.rows);
    }
  }

  // ---------- Repainting ----------

  /** The cursor move to the first row to repaint ends on that row: the cursor is where it is
      remembered, or it is further down and the move is stopped by the bottom of the screen. */
  predicate Reaches(s: Screen, remembered: int, count: nat, first: nat) {
    remembered == s.row || Min(first, count - 1) == s.top + s.height - 1
  }

  /** Lines were appended from row `at` on, and no row beyond them. */
  ghost predicate WrittenBelow(before: seq<Row>, after: seq<Row>, at: int, lines: seq<Line>) {
    0 <= at && Written(before, after, at, lines) && |after| == Max(|before|, at + |lines|)
  }

  /** There is something to repaint, and the first move reaches it. */
  ghost predicate ReachesFirst(s: Screen, remembered: int, oldLines: seq<Line>, newLines: seq<Line>) {
    exists first: nat :: IsFirstChange(oldLines, newLines, first) && Reaches(s, remembered, |oldLines|, first)
  }

  lemma FirstMoveReaches(s: Screen, remembered: int, oldLines: seq<Line>, newLines: seq<Line>, first: nat, last: int)
    requires IsChangedRange(oldLines, newLines, first, last)
    ensures ReachesFirst(s, remembered, oldLines, newLines) <==> Reaches(s, remembered, |oldLines|, first)
  {
    hide Reaches;
    FirstChangeIsUnique(oldLines, newLines, first, last);
    assert IsFirstChange(oldLines, newLines, first);
  }

  lemma NothingToReach(s: Screen, remembered: int, lines: seq<Line>)
    ensures !ReachesFirst(s, remembered, lines, lines)
  {
    hide Reaches;
  }

  /** Where lines are appended to `count` lines: as far down as the cursor is off, but no further than
      the first row below the screen. */
  function AppendedAt(s: Screen, remembered: int, count: nat): int {
    Min(s.top + s.height, count + s.row - remembered)
  }

  /** A partial frame from a cursor below its remembered row: it comes out right exactly if the first
      row to repaint is the bottom row of the screen, where the cursor move is stopped. Otherwise the
      first changed row keeps its old content; appended lines land too far down. */
  ghost predicate PaintedAstray(start: Screen, remembered: int, oldLines: seq<Line>, newLines: seq<Line>,
                                rows: seq<Row>) {
    && (oldLines == newLines ==> Shows(rows, newLines))
    && (forall first: nat | IsFirstChange(oldLines, newLines, first) ::
          RowOf(LineAt(oldLines, first)) != RowOf(LineAt(newLines, first)) ==>
            (Shows(rows, newLines) <==> Reaches(start, remembered, |oldLines|, first)))
    && (oldLines < newLines ==>
          WrittenBelow(start.rows, rows, AppendedAt(start, remembered, |oldLines|), newLines[|oldLines|..]))
  }

  /** `lines` were written over the rows from `at` on; rows beyond the old ones were blank before. */
  ghost predicate Written(before: seq<Row>, after: seq<Row>, at: nat, lines: seq<Line>) {
    && |before| <= |after| && at + |lines| <= |after|
    && forall j :: 0 <= j < |after| ==>
         after[j] == if at <= j < at + |lines| then RowOf(lines[j - at]) else if j < |before| then before[j] else []
  }

  /** `lines` are written from row `at` on, and the screen has scrolled no further than needed. The
      cursor is at the left edge of the next row to write (`here`), or still on the row above. */
  ghost predicate Writing(start: Screen, s: Screen, at: nat, lines: seq<Line>, here: bool) {
    && s.Ok() && s.pen == [] && s.width == start.width && s.height == start.height
    && s.row == at + |lines| - (if here then 0 else 1)
    && (here ==> s.column == 0)
    && s.top == Max(start.top, s.row - s.height + 1)
    && Written(start.rows, s.rows, at, lines)
  }

  lemma WritingReachesRow(start: Screen, s: Screen, t: Screen, at: nat, lines: seq<Line>)
    requires Writing(start, s, at, lines, false) && IsNextRow(s, t)
    ensures Writing(start, t, at, lines, true)
  {
    hide RowOf;
  }

  lemma WritingGoesOn(start: Screen, s: Screen, r: Screen, at: nat, lines: seq<Line>, line: Line)
    requires Writing(start, s, at, lines, true)
    requires SameSides(r, s) && r.row == s.row && r.pen == s.pen
    requires r.rows == s.rows[s.row := RowOf(line)]
    ensures Writing(start, r, at, lines + [line], false)
  {
    hide RowOf;
  }

  /** Moves to the first row to paint; for appended lines, to the last old row and then on. */
  method ReachFirstRow(appendStart: bool, lineDiff: int, ghost start: Screen)
    returns (buffer: seq<Op>, ghost at: nat)
    requires start.Ok() && start.pen == []
    ensures at == Landing(start, start.row + lineDiff) + if appendStart then 1 else 0
    ensures Writing(start, Run(buffer, start), at, [], true)
    ensures Landing(start, start.row + lineDiff) == start.row + lineDiff ==> Unclamped(buffer, start)
  {
    hide Run, Apply, RowOf, Unclamped;
    buffer := RowMove(lineDiff);
    RowMoveLands(start, lineDiff);
    if appendStart {
      at := Landing(start, start.row + lineDiff) + 1;
      NewLineIsExact(buffer, start);
      WritingReachesRow(start, Run(buffer, start), Run(buffer + [CarriageReturn] + [LineFeed], start), at, []);
      buffer := buffer + [CarriageReturn] + [LineFeed];
    } else {
      at := Landing(start, start.row + lineDiff);
      ReturnIsExact(buffer, start);
      buffer := buffer + [CarriageReturn];
    }
  }

  /** Prints rows `firstChanged` to `renderEnd`, each on its own cleared row. A line that is too wide
      is reported instead, and the buffer is to be dropped. */
  method RepaintRows(buffer0: seq<Op>, newLines: seq<Line>, firstChanged: nat, renderEnd: nat, width: nat,
                     ghost at: nat, ghost start: Screen)
    returns (buffer: seq<Op>, tooWide: Option<nat>)
    requires start.Ok() && start.width == width && AllClosed(newLines)
    requires firstChanged <= renderEnd < |newLines|
    requires Writing(start, Run(buffer0, start), at, [], true)
    ensures if tooWide.None? then forall j :: firstChanged <= j <= renderEnd ==> VisibleWidth(newLines[j]) <= width
            else tooWide.value < |newLines| && VisibleWidth(newLines[tooWide.value]) > width
    ensures tooWide.None? ==> Writing(start, Run(buffer, start), at, newLines[firstChanged..renderEnd + 1], false)
    ensures Unclamped(buffer0, start) ==> Unclamped(buffer, start)
  {
    hide Run, Apply, RowOf, VisibleWidth, Unclamped, Written;
    buffer, tooWide := buffer0, None;
    for i := firstChanged to renderEnd + 1
      invariant Writing(start, Run(buffer, start), at, newLines[firstChanged..i], i == firstChanged)
      invariant Unclamped(buffer0, start) ==> Unclamped(buffer, start)
      invariant forall j :: firstChanged <= j < i ==> VisibleWidth(newLines[j]) <= width
    {
      ghost var lines := newLines[firstChanged..i];
      if i > firstChanged {
        NewLineIsExact(buffer, start);
        WritingReachesRow(start, Run(buffer, start), Run(buffer + [CarriageReturn] + [LineFeed], start), at, lines);
        buffer := buffer + [CarriageReturn] + [LineFeed];
      }
      ghost var s := Run(buffer, start);
      EraseIsExact(buffer, start);
      buffer := buffer + [EraseLine];
      if VisibleWidth(newLines[i]) > width {
        tooWide := Some(i);
        return;
      }
      PrintIsExact(buffer, start, newLines[i]);
      buffer := buffer + [Print(newLines[i])];
      WritingGoesOn(start, s, Run(buffer, start), at, lines, newLines[i]);
      assert newLines[firstChanged..i + 1] == lines + [newLines[i]];
    }
  }

  /** Blanks the rows below the painted ones that may still show dropped lines, then returns. */
  method BlankDeletedRows(buffer0: seq<Op>, extraLines: nat, ghost painted: seq<Line>, ghost at: nat,
                          ghost start: Screen)
    returns (buffer: seq<Op>)
    requires start.Ok() && Writing(start, Run(buffer0, start), at, painted, false)
    ensures var s, all := Run(buffer, start), painted + Blanks(extraLines);
            && s.pen == [] && Written(start.rows, s.rows, at, all)
            && s.top == Max(start.top, at + |all| - s.height)
            && s.row == Landing(s, at + |painted| - 1)
    ensures Unclamped(buffer0, start)
            && (extraLines > 0 ==>
                  start.top < at + |painted| && at + |painted| + extraLines <= start.top + start.height) ==>
              Unclamped(buffer, start)
  {
    hide Run, Apply, RowOf, Cells, Unclamped;
    buffer := buffer0;
    ghost var all := painted;
    for i := 0 to extraLines
      invariant all == painted + Blanks(i)
      invariant Writing(start, Run(buffer, start), at, all, false)
      invariant Unclamped(buffer0, start) ==> Unclamped(buffer, start)
    {
      NewLineIsExact(buffer, start);
      WritingReachesRow(start, Run(buffer, start), Run(buffer + [CarriageReturn] + [LineFeed], start), at, all);
      buffer := buffer + [CarriageReturn] + [LineFeed];
      EraseIsExact(buffer, start);
      BlankLineIsBlank();
      WritingGoesOn(start, Run(buffer, start), Run(buffer + [EraseLine], start), at, all, []);
      buffer := buffer + [EraseLine];
      all := all + [[]];
    }
    if extraLines > 0 {
      UpLands(buffer, start, extraLines);
      buffer := buffer + [Up(extraLines)];
    }
  }

  ghost function Blanks(n: nat): seq<Line> { seq(n, k => []) }

  lemma BlankLineIsBlank()
    ensures RowOf([]) == []
  {
  }

  /** What a repaint writes: the changed lines, then blanks over the dropped ones. */
  ghost function Repainted(oldLines: seq<Line>, newLines: seq<Line>, first: nat, last: nat): seq<Line>
    requires first <= last && first < |newLines|
  {
    newLines[first..Min(last, |newLines| - 1) + 1] + Blanks(Max(0, |oldLines| - |newLines|))
  }

  /** Repaints the changed rows, scrolling for appended lines, and blanks the rows of deleted lines.
      Everything is written relative to the row that the first move reaches. */
  method RepaintChangedRows(previousLines: seq<Line>, newLines: seq<Line>, firstChanged: nat, lastChanged: nat,
                            appendStart: bool, lineDiff: int, width: nat, ghost start: Screen)
    returns (buffer: seq<Op>, tooWide: Option<nat>, finalCursorRow: nat, ghost at: nat)
    requires start.Ok() && start.pen == [] && AllClosed(newLines) && width == start.width
    requires IsChangedRange(previousLines, newLines, firstChanged, lastChanged) && firstChanged < |newLines|
    ensures at == Landing(start, start.row + lineDiff) + if appendStart then 1 else 0
    ensures finalCursorRow == Min(lastChanged, |newLines| - 1)
    ensures if tooWide.None?
            then forall j :: firstChanged <= j <= finalCursorRow ==> VisibleWidth(newLines[j]) <= width
            else tooWide.value < |newLines| && VisibleWidth(newLines[tooWide.value]) > width && !AllFit(newLines, width)
    ensures tooWide.None? ==>
              var s, lines := Run(buffer, start), Repainted(previousLines, newLines, firstChanged, lastChanged);
              && s.pen == [] && Written(start.rows, s.rows, at, lines)
              && s.top == Max(start.top, at + |lines| - s.height)
              && s.row == Landing(s, at + finalCursorRow - firstChanged)
    ensures (Landing(start, start.row + lineDiff) == start.row + lineDiff && at == firstChanged
             && (|previousLines| > |newLines| ==> |previousLines| <= start.top + start.height)) ==>
              Unclamped(buffer, start)
  {
    hide Run, Apply, RowOf, Cells, VisibleWidth, Unclamped, Written, Writing, Clamp;
    buffer, at := ReachFirstRow(appendStart, lineDiff, start);
    var renderEnd := Min(lastChanged, |newLines| - 1);
    buffer, tooWide := RepaintRows(buffer, newLines, firstChanged, renderEnd, width, at, start);
    finalCursorRow := renderEnd;
    if tooWide.Some? {
      return;
    }
    if |previousLines| > |newLines| {
      // Deleted lines are changed lines, so the repainting has reached the last new line.
      assert renderEnd == |newLines| - 1;
    }
    buffer := BlankDeletedRows(buffer, Max(0, |previousLines| - |newLines|), newLines[firstChanged..renderEnd + 1], at,
                               start);
  }

  lemma ChangeStartsInside(oldLines: seq<Line>, newLines: seq<Line>, first: nat, last: nat)
    requires AllClosed(newLines) && IsChangedRange(oldLines, newLines, first, last) && first < |newLines|
    ensures first <= |oldLines|
  {
    assert |oldLines| < |newLines| ==> LineAt(oldLines, |oldLines|) != LineAt(newLines, |oldLines|);
  }

  lemma UnchangedLinesFit(oldLines: seq<Line>, newLines: seq<Line>, first: nat, last: nat, width: nat)
    requires AllClosed(newLines) && AllFit(oldLines, width)
    requires IsChangedRange(oldLines, newLines, first, last) && first < |newLines|
    requires forall j :: first <= j <= Min(last, |newLines| - 1) ==> VisibleWidth(newLines[j]) <= width
    ensures AllFit(newLines, width)
  {
    hide VisibleWidth;
    forall j | 0 <= j < |newLines| && !(first <= j <= last) ensures VisibleWidth(newLines[j]) <= width {
      assert LineAt(oldLines, j) == LineAt(newLines, j);
    }
  }

  /** Written at the first changed row, the repainted lines turn the old content into the new. */
  lemma RepaintIsRight(start: Screen, s: Screen, oldLines: seq<Line>, newLines: seq<Line>, first: nat, last: nat,
                       top: nat)
    requires Mirrors(start, oldLines, top) && AllClosed(newLines) && AllFit(newLines, start.width)
    requires IsChangedRange(oldLines, newLines, first, last) && top <= first < |newLines| && first <= |oldLines|
    requires s.Ok() && s.pen == [] && s.width == start.width && s.height == start.height
    requires Written(start.rows, s.rows, first, Repainted(oldLines, newLines, first, last))
    requires s.top == Max(top, first + |Repainted(oldLines, newLines, first, last)| - s.height)
    ensures Mirrors(s, newLines, Max(top, Min(last, |newLines| - 1) - s.height + 1))
  {
    hide RowOf, VisibleWidth;
    BlankLineIsBlank();
    forall j | 0 <= j < |newLines| ensures s.rows[j] == RowOf(newLines[j]) {
      assert LineAt(oldLines, j) == LineAt(newLines, j) || first <= j <= last;
    }
  }

  /** What a repaint makes of the rows, given where the cursor is and where it is remembered. */
  lemma RepaintOutcome(start: Screen, s: Screen, oldLines: seq<Line>, newLines: seq<Line>, first: nat, last: nat,
                       top: nat, remembered: int, at: nat)
    requires start.Ok() && oldLines != [] && AllClosed(newLines) && |oldLines| <= top + start.height
    requires IsChangedRange(oldLines, newLines, first, last) && top <= first < |newLines| && first <= |oldLines|
    requires at == if first == |oldLines| then Landing(start, start.row + first - 1 - remembered) + 1
                   else Landing(start, start.row + first - remembered)
    requires s.Ok() && s.pen == [] && s.width == start.width && s.height == start.height
    requires forall j :: first <= j <= Min(last, |newLines| - 1) ==> VisibleWidth(newLines[j]) <= start.width
    requires Written(start.rows, s.rows, at, Repainted(oldLines, newLines, first, last))
    requires s.top == Max(start.top, at + |Repainted(oldLines, newLines, first, last)| - s.height)
    requires s.row == Landing(s, at + Min(last, |newLines| - 1) - first)
    ensures var final := Min(last, |newLines| - 1);
            var newTop := Max(top, final - s.height + 1);
            && newTop < |newLines| <= newTop + s.height
            && (Mirrors(start, oldLines, top) && remembered <= start.row
                && Reaches(start, remembered, |oldLines|, first) ==>
                  Mirrors(s, newLines, newTop) && s.row == final && s.top == Max(top, |newLines| - s.height))
    ensures Mirrors(start, oldLines, top) ==> AllFit(newLines, start.width) && start.top == top
    ensures Mirrors(start, oldLines, top) && remembered < start.row ==>
              PaintedAstray(start, remembered, oldLines, newLines, s.rows)
  {
    hide RowOf, VisibleWidth, Written, PaintedAstray;
    if Mirrors(start, oldLines, top) && remembered <= start.row {
      UnchangedLinesFit(oldLines, newLines, first, last, start.width);
      if Reaches(start, remembered, |oldLines|, first) {
        RepaintIsRight(start, s, oldLines, newLines, first, last, top);
      } else if RowOf(LineAt(oldLines, first)) != RowOf(newLines[first]) {
        RepaintMissesFirst(start, s, oldLines, newLines, first, at, Repainted(oldLines, newLines, first, last));
      }
      if first == |oldLines| {
        assert Repainted(oldLines, newLines, first, last) == newLines[first..];
      }
      ChangedAstray(start, remembered, oldLines, newLines, first, last, s.rows);
    }
    if Mirrors(start, oldLines, top) {
      UnchangedLinesFit(oldLines, newLines, first, last, start.width);
    }
  }

  /** Written further down, they leave the first changed row as it was. */
  lemma RepaintMissesFirst(start: Screen, s: Screen, oldLines: seq<Line>, newLines: seq<Line>, first: nat, at: nat,
                           lines: seq<Line>)
    requires Shows(start.rows, oldLines) && first < at && Written(start.rows, s.rows, at, lines)
    requires first < |newLines| && RowOf(LineAt(oldLines, first)) != RowOf(LineAt(newLines, first))
    ensures !Shows(s.rows, newLines)
  {
    BlankLineIsBlank();
  }

  lemma MovesKeepPen(start: Screen, lineDiff: int)
    requires start.Ok() && start.pen == []
    ensures var s := Run(RowMove(lineDiff) + [CarriageReturn] + [LineFeed], start);
            s.pen == [] && s.width == start.width && s.height == start.height
  {
    hide Run, Unclamped;
    RowMoveLands(start, lineDiff);
    NewLineIsExact(RowMove(lineDiff), start);
  }

  // Moving down from inside the content stops at the last row of the screen at the latest; the line
  // feed then reaches a row below the content.
  lemma BelowContent(start: Screen, lines: seq<Line>, top: int)
    requires Mirrors(start, lines, top) && start.row < |lines|
    ensures var s := Run(RowMove(|lines| - start.row) + [CarriageReturn] + [LineFeed], start);
            && Shows(s.rows, lines) && s.row >= |lines| && s.column == 0 && s.rows[s.row] == []
  {
    hide Run, RowOf, Cells;
    var n := |lines| - start.row;
    RunEmpty(start);
    Snoc([], Down(n), start);
    assert RowMove(n) == [] + [Down(n)];
    NewLineIsExact(RowMove(n), start);
    var s := Apply(Down(n), start);
    assert s.rows == start.rows && s.row == Min(start.top + start.height - 1, |lines|);
    assert Shows(s.rows + [[]], lines);
  }

  // A first change beyond the new lines means that lines were only dropped from the end.
  lemma OnlyDeletions(oldLines: seq<Line>, newLines: seq<Line>, first: nat, last: nat)
    requires IsChangedRange(oldLines, newLines, first, last) && |newLines| <= first
    ensures |newLines| < |oldLines| && newLines == oldLines[..|newLines|]
    ensures AllClosed(oldLines) ==> first == |newLines|
  {
    assert |newLines| < first ==> LineAt(oldLines, |newLines|) == LineAt(newLines, |newLines|) == [];
    forall j | 0 <= j < |newLines| ensures newLines[j] == oldLines[j] {
      assert LineAt(oldLines, j) == LineAt(newLines, j);
    }
  }
}
