/** The differential renderer of the terminal UI: `TUI.doRender` and the code it calls. */
module Renderer {
  import opened Basics
  import opened Options
  import opened Terminal
  import opened FrameDiff

  /** What a call to DoRender did: nothing because the UI was stopped, painted the frame, or
      refused it because line `index` is wider than the terminal. */
  datatype Outcome = Ignored | Rendered | TooWide(index: nat)

  class TUI {
    var previousLines: seq<Line>
    var previousWidth: int
    var previousHeight: int
    var hardwareCursorRow: int
    var cursorRow: int
    var clearOnShrink: bool
    var maxLinesRendered: nat
    var previousViewportTop: int
    var fullRedrawCount: nat
    var stopped: bool
    /** The terminal on the other end of `terminal.write`. */
    var screen: Screen

    /** What the renderer remembers of the rows is true of the terminal. */
    ghost predicate Settled()
      reads this
    {
      Mirrors(screen, previousLines, previousViewportTop)
    }

    /** Settled, and the remembered cursor row is the real one. */
    ghost predicate Synced()
      reads this
    {
      && Settled()
      && hardwareCursorRow == screen.row
      && (if previousLines == [] then screen.row == 0 && screen.column == 0 else screen.row < |previousLines|)
    }

    /** The size is the one of the last frame, or there has been no frame. */
    ghost predicate SameSize()
      reads this
    {
      || (previousWidth == 0 && previousHeight == 0)
      || (previousWidth == screen.width && previousHeight == screen.height)
    }

    /** The bookkeeping of the remembered frame: what every operation keeps, whether or not the
        remembered rows and the remembered cursor row are those of the terminal. */
    ghost predicate Coherent()
      reads this
    {
      && screen.Ok() && screen.pen == []
      && AllClosed(previousLines) && |previousLines| <= maxLinesRendered
      && (previousWidth == 0 <==> previousHeight == 0)
      && (previousWidth == 0 ==> previousLines == [] && Synced())
      && (previousHeight > 0 ==>
            if previousLines == [] then previousViewportTop == 0
            else 0 <= previousViewportTop < |previousLines| <= previousViewportTop + previousHeight)
    }

    /** Moreover, the memory is right whenever the next frame is going to rely on it. */
    ghost predicate Valid()
      reads this
    {
      Coherent() && (SameSize() ==> Synced())
    }

    /** The rows are right, but the cursor is below the row it is remembered on. */
    ghost predicate Astray()
      reads this
    {
      && Settled() && previousLines != [] && previousWidth == screen.width && previousHeight == screen.height
      && hardwareCursorRow < screen.row
    }

    constructor (width: nat, height: nat, clearOnShrink: bool)
      requires 1 <= width && 1 <= height
      ensures Valid() && !stopped && SameSize()
      ensures previousLines == [] && screen == BlankScreen(width, height)
      ensures this.clearOnShrink == clearOnShrink
    {
      previousLines, previousWidth, previousHeight := [], 0, 0;
      hardwareCursorRow, cursorRow, maxLinesRendered, previousViewportTop := 0, 0, 0, 0;
      this.clearOnShrink := clearOnShrink;
      fullRedrawCount := 0;
      stopped := false;
      screen := BlankScreen(width, height);
    }

    /** The terminal changes size. It may rewrap, drop or blank any rows, except that before the first
        frame it is blank and stays so. A change back to the size of the last frame goes unnoticed. */
    method Resize(resized: Screen)
      requires Coherent() && resized.Ok() && resized.pen == []
      requires previousWidth == 0 ==> Printed(resized, [])
      modifies this`screen
      ensures Coherent() && screen == resized
      ensures previousWidth == 0 || (resized.width, resized.height) != (previousWidth, previousHeight) ==> Valid()
    {
      screen := resized;
    }

    /** requestRender(force): forget the last frame, so that the next one is painted from scratch. */
    method ForceRedraw()
      requires Coherent()
      modifies this
      ensures Valid() && screen == old(screen) && stopped == old(stopped) && clearOnShrink == old(clearOnShrink)
      ensures !SameSize()
    {
      previousLines := [];
      previousWidth, previousHeight := -1, -1;
      cursorRow, hardwareCursorRow, maxLinesRendered, previousViewportTop := 0, 0, 0, 0;
    }

    method PositionHardwareCursor(cursor: Option<Position>, totalLines: nat)
      requires screen.Ok()
      requires cursor.Some? ==> cursor.value.row < totalLines
      modifies this`screen, this`hardwareCursorRow
      ensures screen.Ok() && screen == old(screen).(row := screen.row, column := screen.column)
      ensures cursor.None? ==> screen == old(screen) && hardwareCursorRow == old(hardwareCursorRow)
      ensures cursor.Some? ==>
                && hardwareCursorRow == cursor.value.row
                && screen.row == Landing(old(screen), old(screen.row) + cursor.value.row - old(hardwareCursorRow))
                && screen.column == Min(screen.width - 1, cursor.value.column)
    {
      hide Run, Unclamped;
      if cursor.None? || totalLines <= 0 {
        return;
      }
      var targetRow := Max(0, Min(cursor.value.row, totalLines - 1));
      var targetCol := Max(0, cursor.value.column);
      var rowDelta := targetRow - hardwareCursorRow;
      var buffer := RowMove(rowDelta);
      RowMoveLands(screen, rowDelta);
      Snoc(buffer, Column(targetCol), screen);
      buffer := buffer + [Column(targetCol)];
      screen := Run(buffer, screen);
      hardwareCursorRow := targetRow;
    }

    /** The terminal already shows `newLines`, scrolled from `oldTop` no further than needed, and the
        two remembered rows are right. */
    ghost predicate InPlace(newLines: seq<Line>, oldTop: nat)
      reads this
    {
      && Mirrors(screen, newLines, previousViewportTop) && hardwareCursorRow == screen.row
      && screen.top == Max(oldTop, |newLines| - screen.height)
      && (if newLines == [] then screen.row == 0 && screen.column == 0 else screen.row < |newLines|)
    }

    /** The cursor is in its column, and its row is remembered. */
    ghost predicate Parked(cursor: Option<Position>)
      reads this
    {
      cursor.Some? ==>
        hardwareCursorRow == cursor.value.row && screen.column == Min(screen.width - 1, cursor.value.column)
    }

    /** The common end of every painted frame: place the cursor and remember the frame. */
    method FinishFrame(newLines: seq<Line>, cursor: Option<Position>, ghost oldTop: nat)
      requires screen.Ok() && (cursor.Some? ==> cursor.value.row < |newLines|)
      modifies this`screen, this`hardwareCursorRow, this`previousLines, this`previousWidth, this`previousHeight
      ensures screen.Ok() && screen == old(screen).(row := screen.row, column := screen.column)
      ensures previousLines == newLines && Parked(cursor)
      ensures previousWidth == screen.width && previousHeight == screen.height
      ensures old(InPlace(newLines, oldTop)) ==> Painted(cursor, oldTop)
    {
      PositionHardwareCursor(cursor, |newLines|);
      if old(InPlace(newLines, oldTop)) {
        MirrorsWithCursorMoved(old(screen), newLines, previousViewportTop, screen.row, screen.column);
      }
      previousLines := newLines;
      previousWidth, previousHeight := screen.width, screen.height;
    }

    /** Prints a whole frame, after clearing the screen and the scrollback if asked to. */
    method FullRender(newLines: seq<Line>, cursor: Option<Position>, clear: bool)
      requires screen.Ok() && screen.pen == [] && AllClosed(newLines)
      requires cursor.Some? ==> Max(0, |newLines| - screen.height) <= cursor.value.row < |newLines|
      modifies this
      ensures Coherent() && stopped == old(stopped) && clearOnShrink == old(clearOnShrink)
      ensures fullRedrawCount == old(fullRedrawCount) + 1
      ensures maxLinesRendered == if clear then |newLines| else Max(old(maxLinesRendered), |newLines|)
      ensures previousLines == newLines && Parked(cursor)
      ensures screen.width == old(screen.width) && screen.height == old(screen.height)
      ensures AllFit(newLines, screen.width) && (clear || old(Printed(screen, []))) ==> Painted(cursor, 0)
    {
      hide Run, RowOf;
      var height := screen.height;
      fullRedrawCount := fullRedrawCount + 1;
      var buffer := FullFrame(newLines, clear, screen);
      screen := Run(buffer, screen);
      cursorRow := Max(0, |newLines| - 1);
      hardwareCursorRow := cursorRow;
      maxLinesRendered := if clear then |newLines| else Max(maxLinesRendered, |newLines|);
      var bufferLength := Max(height, |newLines|);
      previousViewportTop := Max(0, bufferLength - height);
      FinishFrame(newLines, cursor, 0);
    }

    /** Leaves the cursor on a blank row below the content, so that what is printed next, or the
        shell's prompt, overwrites nothing. */
    method Stop()
      requires Coherent()
      modifies this`stopped, this`screen
      ensures stopped && Coherent() && screen.width == old(screen.width) && screen.height == old(screen.height)
      ensures previousLines == [] ==> screen == old(screen)
      ensures old(Synced()) ==>
                && Shows(screen.rows, previousLines)
                && (previousLines != [] ==>
                      screen.row >= |previousLines| && screen.column == 0 && screen.rows[screen.row] == [])
    {
      hide Run, Apply, RowOf;
      stopped := true;
      if |previousLines| > 0 {
        var targetRow := |previousLines|;
        var lineDiff := targetRow - hardwareCursorRow;
        var buffer := RowMove(lineDiff) + [CarriageReturn] + [LineFeed];
        MovesKeepPen(screen, lineDiff);
        if Synced() {
          BelowContent(screen, previousLines, previousViewportTop);
        }
        screen := Run(buffer, screen);
      }
    }

    /** A frame is painted from scratch when nothing was painted before, the size changed, the content
        shrank and that is configured to clear, or a row above the screen would have to change. */
    ghost predicate NeedsFullRedraw(newLines: seq<Line>, overlays: bool)
      reads this
    {
      || previousLines == []
      || !SameSize()
      || (clearOnShrink && |newLines| < maxLinesRendered && !overlays)
      || ChangesAboveScreen(newLines)
    }

    /** The state after a frame: the rows are right, the screen has scrolled from `oldTop` no further
        than the frame demands, and the cursor is on its marker unless that is above the screen. */
    ghost predicate Painted(cursor: Option<Position>, oldTop: nat)
      reads this
    {
      && Settled() && previousWidth == screen.width && previousHeight == screen.height
      && screen.top == Max(oldTop, |previousLines| - screen.height)
      && (cursor.Some? ==>
            && hardwareCursorRow == cursor.value.row
            && screen.row == Max(screen.top, hardwareCursorRow))
      && (Synced() <==> (cursor.Some? ==> cursor.value.row >= screen.top))
    }

    /** Lines were only dropped from the end: blank their rows. */
    method DeleteLines(newLines: seq<Line>, cursor: Option<Position>, targetRow: nat, prevViewportTop: nat)
      requires Coherent() && previousHeight == screen.height && prevViewportTop == previousViewportTop
      requires |newLines| < |previousLines| && newLines == previousLines[..|newLines|]
      requires prevViewportTop <= targetRow == Max(0, |newLines| - 1)
      requires cursor.Some? ==> Max(0, |newLines| - screen.height) <= cursor.value.row < |newLines|
      modifies this
      ensures Coherent() && previousLines == newLines && stopped == old(stopped)
              && fullRedrawCount == old(fullRedrawCount)
      ensures clearOnShrink == old(clearOnShrink) && maxLinesRendered == old(maxLinesRendered) && Parked(cursor)
      ensures screen.width == old(screen.width) && screen.height == old(screen.height)
      ensures old(Settled() && hardwareCursorRow <= screen.row)
              && old(Reaches(screen, hardwareCursorRow, |previousLines|, |newLines|)) ==>
                Painted(cursor, old(screen.top))
      ensures old(Settled() && hardwareCursorRow < screen.row) ==>
                PaintedAstray(old(screen), old(hardwareCursorRow), old(previousLines), newLines, screen.rows)
    {
      hide Run, Mirrors, Shows, AllFit, RowOf, Reaches, Landing, Cleared, VisibleWidth, PaintedAstray;
      var lineDiff := targetRow - hardwareCursorRow;
      var extraLines := |previousLines| - |newLines|;
      if extraLines > screen.height {
        // The deleted rows are all on the screen.
        assert false;
      }
      var buffer := ClearDeletedRows(previousLines, newLines, lineDiff, screen);
      DeletionOutcome(screen, Run(buffer, screen), previousLines, newLines, prevViewportTop, hardwareCursorRow);
      screen := Run(buffer, screen);
      cursorRow := targetRow;
      hardwareCursorRow := targetRow;
      previousViewportTop := prevViewportTop;
      FinishFrame(newLines, cursor, old(screen.top));
    }

    /** Repaints rows `firstChanged` to `lastChanged`, all of them on the screen or below it. */
    method Repaint(newLines: seq<Line>, cursor: Option<Position>, firstChanged: nat, lastChanged: nat,
                   appendStart: bool, prevViewportTop: nat) returns (outcome: Outcome)
      requires Coherent() && previousLines != [] && previousHeight == screen.height
      requires prevViewportTop == previousViewportTop && AllClosed(newLines)
      requires IsChangedRange(previousLines, newLines, firstChanged, lastChanged)
      requires prevViewportTop <= firstChanged < |newLines|
      requires appendStart == (firstChanged == |previousLines| && firstChanged > 0)
      requires cursor.Some? ==> Max(0, |newLines| - screen.height) <= cursor.value.row < |newLines|
      modifies this
      ensures Coherent() && screen.width == old(screen.width) && screen.height == old(screen.height)
      ensures fullRedrawCount == old(fullRedrawCount) && clearOnShrink == old(clearOnShrink)
      ensures outcome.Rendered? || outcome.TooWide?
      ensures AllFit(newLines, screen.width) ==> outcome.Rendered?
      ensures old(Settled()) && outcome.Rendered? ==> AllFit(newLines, screen.width)
      ensures outcome.Rendered? ==>
                && previousLines == newLines && stopped == old(stopped) && Parked(cursor)
                && maxLinesRendered == Max(old(maxLinesRendered), |newLines|)
      ensures outcome.Rendered? && old(Settled() && hardwareCursorRow <= screen.row)
              && old(Reaches(screen, hardwareCursorRow, |previousLines|, firstChanged)) ==>
                Painted(cursor, old(screen.top))
      ensures outcome.Rendered? && old(Settled() && hardwareCursorRow < screen.row) ==>
                PaintedAstray(old(screen), old(hardwareCursorRow), old(previousLines), newLines, screen.rows)
      ensures outcome.TooWide? ==>
                && stopped && (old(Synced()) ==> Shows(screen.rows, old(previousLines)))
                && outcome.index < |newLines| && VisibleWidth(newLines[outcome.index]) > screen.width
    {
      hide Run, Mirrors, Shows, AllFit, RowOf, Reaches, Landing, Written, Repainted, IsChangedRange, VisibleWidth,
        PaintedAstray;
      var height := screen.height;
      ChangeStartsInside(previousLines, newLines, firstChanged, lastChanged);
      var prevViewportBottom := prevViewportTop + height - 1;
      var moveTargetRow := if appendStart then firstChanged - 1 else firstChanged;
      if moveTargetRow > prevViewportBottom {
        // The pre-scroll branch: the first changed row is never below the screen.
        assert false;
      }
      var lineDiff := moveTargetRow - hardwareCursorRow;
      var buffer, tooWide, finalCursorRow, at :=
        RepaintChangedRows(previousLines, newLines, firstChanged, lastChanged, appendStart, lineDiff, screen.width,
                           screen);
      if tooWide.Some? {
        Stop();
        return TooWide(tooWide.value);
      }
      RepaintOutcome(screen, Run(buffer, screen), previousLines, newLines, firstChanged, lastChanged,
                     prevViewportTop, hardwareCursorRow, at);
      FinishRepaint(buffer, newLines, cursor, finalCursorRow, prevViewportTop);
      return Rendered;
    }

    /** Sends the buffer of a repaint and remembers where it left the cursor and the screen. */
    method FinishRepaint(buffer: seq<Op>, newLines: seq<Line>, cursor: Option<Position>, finalCursorRow: nat,
                         prevViewportTop: nat)
      requires screen.Ok() && Run(buffer, screen).pen == [] && AllClosed(newLines)
      requires var top := Max(prevViewportTop, finalCursorRow - screen.height + 1);
               top < |newLines| <= top + screen.height
      requires cursor.Some? ==> cursor.value.row < |newLines|
      modifies this
      ensures Coherent() && screen.rows == old(Run(buffer, screen).rows)
      ensures screen.width == old(screen.width) && screen.height == old(screen.height)
      ensures fullRedrawCount == old(fullRedrawCount) && clearOnShrink == old(clearOnShrink)
      ensures previousLines == newLines && stopped == old(stopped) && Parked(cursor)
      ensures maxLinesRendered == Max(old(maxLinesRendered), |newLines|)
      ensures var s, top := old(Run(buffer, screen)), Max(prevViewportTop, finalCursorRow - screen.height + 1);
              Mirrors(s, newLines, top) && s.row == finalCursorRow < |newLines|
              && s.top == Max(prevViewportTop, |newLines| - s.height) ==>
                Painted(cursor, prevViewportTop)
    {
      hide Run, Mirrors, RowOf, VisibleWidth;
      screen := Run(buffer, screen);
      cursorRow := Max(0, |newLines| - 1);
      hardwareCursorRow := finalCursorRow;
      maxLinesRendered := Max(maxLinesRendered, |newLines|);
      previousViewportTop := Max(prevViewportTop, finalCursorRow as int - screen.height + 1);
      FinishFrame(newLines, cursor, prevViewportTop);
    }

    /** The part of doRender after the reasons to start from scratch: find the changed rows and touch
        only those, falling back to a full redraw when one of them has scrolled off the screen. */
    method RenderChanges(newLines: seq<Line>, cursor: Option<Position>, prevViewportTop: nat) returns (outcome: Outcome)
      requires Coherent() && previousLines != [] && previousWidth == screen.width && previousHeight == screen.height
      requires !stopped && AllClosed(newLines) && prevViewportTop == previousViewportTop
      requires cursor.Some? ==> Max(0, |newLines| - screen.height) <= cursor.value.row < |newLines|
      modifies this
      ensures Coherent() && screen.width == old(screen.width) && screen.height == old(screen.height)
      ensures fullRedrawCount == old(fullRedrawCount) + if old(ChangesAboveScreen(newLines)) then 1 else 0
      ensures clearOnShrink == old(clearOnShrink)
      ensures outcome.Rendered? ==>
                maxLinesRendered == if fullRedrawCount > old(fullRedrawCount) then |newLines|
                                    else Max(old(maxLinesRendered), |newLines|)
      ensures outcome.Rendered? || outcome.TooWide?
      ensures outcome.Rendered? ==> previousLines == newLines && !stopped && Parked(cursor)
      ensures AllFit(newLines, screen.width) ==> outcome.Rendered?
      ensures AllFit(newLines, screen.width) && fullRedrawCount > old(fullRedrawCount) ==> Painted(cursor, 0)
      ensures AllFit(newLines, screen.width) && fullRedrawCount == old(fullRedrawCount) ==>
                && (old(Synced()) ==> Painted(cursor, old(screen.top)))
                && (old(Astray()) ==>
                      PaintedAstray(old(screen), old(hardwareCursorRow), old(previousLines), newLines, screen.rows))
      ensures AllFit(newLines, screen.width) && fullRedrawCount == old(fullRedrawCount) && old(Astray())
              && ReachesFirst(old(screen), old(hardwareCursorRow), old(previousLines), newLines) ==>
                Painted(cursor, old(screen.top))
      ensures outcome.TooWide? ==>
                && stopped && (old(Synced()) ==> Shows(screen.rows, old(previousLines)))
                && outcome.index < |newLines| && VisibleWidth(newLines[outcome.index]) > screen.width
                && fullRedrawCount == old(fullRedrawCount)
      ensures old(Settled()) && !AllFit(newLines, screen.width) && outcome.Rendered? ==>
                fullRedrawCount > old(fullRedrawCount)
    {
      hide Run, Apply, RowOf, Cells, VisibleWidth, PaintedAstray, ReachesFirst;
      var height := screen.height;
      var firstChanged, lastChanged := ChangedRange(previousLines, newLines);
      var appendStart := |newLines| > |previousLines| && firstChanged == |previousLines| && firstChanged > 0;

      if firstChanged == -1 {
        PositionHardwareCursor(cursor, |newLines|);
        if old(Synced()) {
          MirrorsWithCursorMoved(old(screen), newLines, prevViewportTop, screen.row, screen.column);
        }
        previousViewportTop := prevViewportTop;
        previousHeight := height;
        if old(Astray()) {
          UnchangedAstray(old(screen), old(hardwareCursorRow), newLines);
          NothingToReach(old(screen), old(hardwareCursorRow), newLines);
        }
        return Rendered;
      }

      FirstMoveReaches(screen, hardwareCursorRow, previousLines, newLines, firstChanged, lastChanged);
      if firstChanged >= |newLines| {
        // Nothing to render, just clear.
        OnlyDeletions(previousLines, newLines, firstChanged, lastChanged);
        var targetRow := Max(0, |newLines| - 1);
        if targetRow < prevViewportTop {
          assert LineAt(previousLines, |newLines|) != LineAt(newLines, |newLines|);
          assert ChangesAboveScreen(newLines);
          FullRender(newLines, cursor, true);
          return Rendered;
        }
        DeleteLines(newLines, cursor, targetRow, prevViewportTop);
        return Rendered;
      }

      if firstChanged < prevViewportTop {
        FullRender(newLines, cursor, true);
        return Rendered;
      }

      outcome := Repaint(newLines, cursor, firstChanged, lastChanged, appendStart, prevViewportTop);
    }

    ghost predicate ChangesAboveScreen(newLines: seq<Line>)
      reads this
    {
      || (exists k :: 0 <= k < previousViewportTop && LineAt(previousLines, k) != LineAt(newLines, k))
      || (0 < previousViewportTop == |newLines| && newLines < previousLines)
    }

    /** The next frame starts on a terminal that nothing was printed on. */
    ghost predicate StartsBlank()
      reads this
    {
      previousLines == [] && SameSize()
    }

    /** The cursor is remembered on the line of the lowest marker, and stands in the column behind what is
        painted before the marker. */
    ghost predicate CursorAtMarker(rendered: seq<Line>)
      reads this
    {
      forall row, k :: LowestMarker(rendered, screen.height, row, k) ==>
        hardwareCursorRow == row && screen.column == Min(screen.width - 1, |Cells(rendered[row][..k], [])|)
    }

    /** The rows show the rendered lines, and the cursor stands behind the cells before the marker, in its
        row, unless the marker is above the screen. */
    ghost predicate Displays(rendered: seq<Line>)
      reads this
    {
      && Shows(screen.rows, rendered) && CursorAtMarker(rendered)
      && forall row, k :: LowestMarker(rendered, screen.height, row, k) && row >= screen.top ==>
           && screen.row == row < |screen.rows|
           && Cells(rendered[row][..k], []) <= screen.rows[row]
    }

    lemma ParkedAtMarker(rendered: seq<Line>)
      requires Parked(CursorOf(rendered, screen.height))
      ensures CursorAtMarker(rendered)
    {
      hide Cells;
      forall row, k | LowestMarker(rendered, screen.height, row, k)
        ensures CursorOf(rendered, screen.height).Some?
                && CursorOf(rendered, screen.height).value == Position(row, |Cells(rendered[row][..k], [])|)
      {
        CursorIsMarker(rendered, screen.height, row, k);
      }
    }

    lemma PaintedDisplays(rendered: seq<Line>, oldTop: nat)
      requires screen.Ok() && previousLines == FrameOf(rendered, screen.height)
      requires Painted(CursorOf(rendered, screen.height), oldTop) && CursorAtMarker(rendered)
      ensures Displays(rendered)
    {
      hide Cells, RowOf, VisibleWidth;
      FrameShowsLines(rendered, screen.height, screen.rows);
      forall row, k | LowestMarker(rendered, screen.height, row, k) && row >= screen.top
        ensures screen.row == row < |screen.rows| && Cells(rendered[row][..k], []) <= screen.rows[row]
      {
        CursorIsMarker(rendered, screen.height, row, k);
        CellsOfPrefix(rendered[row], k, []);
        RowIsCells(rendered[row]);
      }
    }

    lemma ShowDisplays(rendered: seq<Line>, oldTop: nat)
      requires screen.Ok() && previousLines == FrameOf(rendered, screen.height)
      requires Parked(CursorOf(rendered, screen.height))
      ensures CursorAtMarker(rendered)
      ensures Painted(CursorOf(rendered, screen.height), oldTop) ==> Displays(rendered)
    {
      hide Painted, Displays, CursorAtMarker;
      ParkedAtMarker(rendered);
      if Painted(CursorOf(rendered, screen.height), oldTop) {
        PaintedDisplays(rendered, oldTop);
      }
    }

    method DoRender(rendered: seq<Line>, overlays: bool) returns (outcome: Outcome)
      requires Coherent()
      modifies this
      ensures Coherent() && screen.width == old(screen.width) && screen.height == old(screen.height)
      ensures old(stopped) ==> outcome.Ignored? && screen == old(screen)
      ensures !old(stopped) && outcome.Rendered? ==> previousLines == FrameOf(rendered, screen.height) && !stopped
      ensures clearOnShrink == old(clearOnShrink)
      // The high-water mark only drops when the screen is cleared.
      ensures !old(stopped) && outcome.Rendered? ==>
                maxLinesRendered == if fullRedrawCount > old(fullRedrawCount) && !old(StartsBlank())
                                    then |rendered| else Max(old(maxLinesRendered), |rendered|)
      ensures fullRedrawCount == old(fullRedrawCount)
              + if !old(stopped) && old(NeedsFullRedraw(FrameOf(rendered, screen.height), overlays)) then 1 else 0
      ensures !old(stopped) && AllFit(rendered, screen.width) ==> outcome.Rendered?
      // A frame that fits is painted exactly, and the remembered cursor row stays the real one
      // exactly when the marker is on the screen. Clearing the screen makes good for any earlier frame.
      ensures !old(stopped) && AllFit(rendered, screen.width)
              && (old(Valid()) || (fullRedrawCount > old(fullRedrawCount) && !old(StartsBlank()))) ==>
                && Painted(CursorOf(rendered, screen.height),
                           if fullRedrawCount > old(fullRedrawCount) then 0 else old(screen.top))
                && Displays(rendered)
      // In any case the cursor is put in its column.
      ensures !old(stopped) && outcome.Rendered? ==> CursorAtMarker(rendered)
      ensures !old(stopped) && AllFit(rendered, screen.width) && old(Astray())
              && fullRedrawCount == old(fullRedrawCount) ==>
                PaintedAstray(old(screen), old(hardwareCursorRow), old(previousLines), previousLines, screen.rows)
      // Where the cursor move is stopped on the row that it was meant for, the memory is right again.
      ensures !old(stopped) && AllFit(rendered, screen.width) && fullRedrawCount == old(fullRedrawCount)
              && old(Astray())
              && ReachesFirst(old(screen), old(hardwareCursorRow), old(previousLines), previousLines) ==>
                Painted(CursorOf(rendered, screen.height), old(screen.top))
      // A frame that does not fit is refused unless it was printed from scratch, unchecked.
      ensures outcome.TooWide? ==>
                && stopped && fullRedrawCount == old(fullRedrawCount)
                && outcome.index < |rendered| && VisibleWidth(rendered[outcome.index]) > screen.width
                && (old(Valid()) ==> Shows(screen.rows, old(previousLines)))
      ensures !old(stopped) && !AllFit(rendered, screen.width) && old(Valid()) ==>
                (outcome.TooWide? <==> fullRedrawCount == old(fullRedrawCount))
    {
      hide Run, Apply, RowOf, Cells, VisibleWidth, Displays, CursorAtMarker;
      if stopped {
        return Ignored;
      }
      var width, height := screen.width, screen.height;
      var widthChanged := previousWidth != 0 && previousWidth != width;
      var heightChanged := previousHeight != 0 && previousHeight != height;
      var prevViewportTop := previousViewportTop;
      var cursor, stripped := ExtractCursorPosition(rendered, height);
      var newLines := ApplyLineResets(stripped);
      PassesMakeFrame(rendered, height, stripped);
      FrameFits(rendered, height, width);

      if |previousLines| == 0 && !widthChanged && !heightChanged {
        FullRender(newLines, cursor, false);
        ShowDisplays(rendered, 0);
        return Rendered;
      }
      if widthChanged {
        FullRender(newLines, cursor, true);
        ShowDisplays(rendered, 0);
        return Rendered;
      }
      if heightChanged {
        FullRender(newLines, cursor, true);
        ShowDisplays(rendered, 0);
        return Rendered;
      }
      if clearOnShrink && |newLines| < maxLinesRendered && !overlays {
        FullRender(newLines, cursor, true);
        ShowDisplays(rendered, 0);
        return Rendered;
      }
      outcome := RenderChanges(newLines, cursor, prevViewportTop);
      if outcome.TooWide? {
        FrameWidth(rendered, height, outcome.index);
      } else {
        ShowDisplays(rendered, if fullRedrawCount > old(fullRedrawCount) then 0 else old(screen.top));
      }
    }
  }

  datatype Frame = Frame(lines: seq<Line>, overlays: bool, forced: bool)

  ghost predicate MarkerInReach(rendered: seq<Line>, height: nat, top: nat) {
    var cursor := CursorOf(rendered, height);
    cursor.Some? ==> cursor.value.row >= top
  }

  /** Two terminals agree on every row; where only one of them has a row, that row is blank. */
  ghost predicate AgreeOnRows(a: seq<Row>, b: seq<Row>) {
    && (forall i :: 0 <= i < |a| ==> a[i] == if i < |b| then b[i] else [])
    && (forall i :: |a| <= i < |b| ==> b[i] == [])
  }

  lemma ShowingTheSameAgrees(a: seq<Row>, b: seq<Row>, lines: seq<Line>)
    requires Shows(a, lines) && Shows(b, lines)
    ensures AgreeOnRows(a, b)
  {
    hide RowOf;
  }

  /** A terminal on which nothing but this frame was ever printed. */
  method PrintedAlone(lines: seq<Line>, width: nat, height: nat) returns (screen: Screen)
    requires 1 <= width && 1 <= height && AllFit(lines, width)
    ensures Shows(screen.rows, FrameOf(lines, height))
  {
    var tui := new TUI(width, height, false);
    var _ := tui.DoRender(lines, false);
    return tui.screen;
  }

  ghost predicate PaintedLikeRedraw(screen: Screen, redrawn: Screen, frame: Frame, height: nat) {
    && Shows(screen.rows, FrameOf(frame.lines, height))
    && AgreeOnRows(screen.rows, redrawn.rows)
  }

  /** Differential rendering refines full redraw over a whole session: after every frame the terminal
      shows what a terminal shows on which that frame alone was printed. The session ends early only
      after a frame whose cursor marker stands above the top of the screen, if no full redraw is
      forced next. */
  method Session(width: nat, height: nat, clearOnShrink: bool, frames: seq<Frame>)
    returns (screens: seq<Screen>, redrawn: seq<Screen>)
    requires 1 <= width && 1 <= height
    requires forall i :: 0 <= i < |frames| ==> AllFit(frames[i].lines, width)
    ensures |screens| == |redrawn| <= |frames|
    ensures forall i :: 0 <= i < |screens| ==> PaintedLikeRedraw(screens[i], redrawn[i], frames[i], height)
    ensures |screens| < |frames| ==>
              && |screens| > 0 && !frames[|screens|].forced
              && !MarkerInReach(frames[|screens| - 1].lines, height, screens[|screens| - 1].top)
  {
    hide Shows, AllFit, FrameOf, CursorOf;
    var tui := new TUI(width, height, clearOnShrink);
    screens, redrawn := [], [];
    for i := 0 to |frames|
      invariant tui.Coherent() && !tui.stopped && fresh(tui)
      invariant tui.screen.width == width && tui.screen.height == height
      invariant tui.SameSize() && |screens| == |redrawn| == i
      invariant forall k :: 0 <= k < i ==> PaintedLikeRedraw(screens[k], redrawn[k], frames[k], height)
      invariant tui.Valid()
                || (i > 0 && tui.hardwareCursorRow < tui.previousViewportTop
                    && !MarkerInReach(frames[i - 1].lines, height, screens[i - 1].top))
    {
      var frame := frames[i];
      if frame.forced {
        tui.ForceRedraw();
      } else if tui.hardwareCursorRow < tui.previousViewportTop {
        return;
      }
      var _ := tui.DoRender(frame.lines, frame.overlays);
      var other := PrintedAlone(frame.lines, width, height);
      ShowingTheSameAgrees(tui.screen.rows, other.rows, FrameOf(frame.lines, height));
      screens, redrawn := screens + [tui.screen], redrawn + [other];
    }
  }

  const A := Glyph("a", 1)
  const FOUR_LINES: seq<Line> := [[A], [A], [A], [A]]
  const MARKED_LINES: seq<Line> := [[A], [Marker, A], [A]]

  lemma MarkedLinesFrame()
    ensures AllFit(FOUR_LINES, 10) && AllFit(MARKED_LINES, 10)
    ensures CursorOf(MARKED_LINES, 2).Some? && CursorOf(MARKED_LINES, 2).value.row == 1
    ensures FrameOf(MARKED_LINES, 2) == FrameOf(FOUR_LINES, 2)[..3]
    ensures FrameOf(FOUR_LINES, 2)[3] == [A, Reset] && RowOf([A, Reset]) != []
  {
    CellsWidth([A, Reset], []);
    assert [A, Reset][1..] == [Reset];
    assert forall line :: line in FOUR_LINES + MARKED_LINES && line != [Marker, A] ==> line == [A];
    assert VisibleWidth([A]) == 1;
    assert [Marker, A][1..] == [A];
    assert IsMarkerRow(MARKED_LINES, 2, 1);
    assert FirstMarker([Marker, A]) == 0;
    assert WithoutMarker([Marker, A]) == [A];
  }

  /** Four lines on a two-row terminal, then the first three of them with the marker on the second. */
  method RunPastMarker() returns (tui: TUI)
    ensures fresh(tui) && tui.Coherent() && tui.Astray() && !tui.stopped && !tui.clearOnShrink
    ensures tui.screen.width == 10 && tui.screen.height == 2 && tui.screen.top == 2
    ensures tui.hardwareCursorRow == 1 && tui.screen.row == 2
    ensures tui.previousLines == FrameOf(MARKED_LINES, 2)
  {
    hide RowOf, VisibleWidth, FirstMarker;
    MarkedLinesFrame();
    tui := new TUI(10, 2, false);
    var _ := tui.DoRender(FOUR_LINES, false);
    ghost var frame := FrameOf(MARKED_LINES, 2);
    assert tui.screen.top == 2 && tui.previousLines[..3] == frame;
    assert forall k :: 0 <= k < 3 ==> LineAt(tui.previousLines, k) == LineAt(frame, k);
    assert !tui.ChangesAboveScreen(frame) && !tui.NeedsFullRedraw(frame, false);
    var _ := tui.DoRender(MARKED_LINES, false);
  }

  /** The marker scan can reach above the screen: the remembered cursor row is then one above the
      real one. */
  method MarkerAboveScreen() returns (remembered: int, actual: int)
    ensures remembered == 1 && actual == 2
  {
    var tui := RunPastMarker();
    return tui.hardwareCursorRow, tui.screen.row;
  }

  /** The next frame, the four lines again, leaves a blank row inside the content and its last line one
      row too low. Forcing a full redraw shows it as it should be. */
  method MispaintedFrame() returns (rows: seq<Row>, repaired: seq<Row>)
    ensures |rows| == 5 && rows[3] == [] && rows[4] == RowOf([A, Reset])
    ensures !Shows(rows, FrameOf(FOUR_LINES, 2)) && Shows(repaired, FrameOf(FOUR_LINES, 2))
  {
    hide RowOf, VisibleWidth, FirstMarker;
    MarkedLinesFrame();
    var tui := RunPastMarker();
    ghost var frame := FrameOf(FOUR_LINES, 2);
    assert tui.previousLines == frame[..3] && AppendedAt(tui.screen, tui.hardwareCursorRow, 3) == 4;
    assert forall k :: 0 <= k < 3 ==> LineAt(tui.previousLines, k) == LineAt(frame, k);
    assert !tui.ChangesAboveScreen(frame) && !tui.NeedsFullRedraw(frame, false);
    ghost var before := tui.screen.rows;
    var _ := tui.DoRender(FOUR_LINES, false);
    assert frame[3..] == [[A, Reset]];
    rows := tui.screen.rows;
    assert WrittenBelow(before, rows, 4, [[A, Reset]]);
    assert before[3] == [];
    tui.ForceRedraw();
    var _ := tui.DoRender(FOUR_LINES, false);
    repaired := tui.screen.rows;
  }
}
