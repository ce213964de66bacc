/** Overlays and the renderer together: the lines that compositing produces are the ones `doRender` paints. */
module OverlayFrames {
  import AnsiTracker
  import Text
  import Columns
  import Overlay
  import Terminal
  import FrameDiff
  import Renderer

  const CURSOR_MARKER: string := [Text.ESC] + "_agent:c" + [Text.BEL]

  /** A line of graphemes and codes as the renderer sees it: only the cursor marker is told apart. */
  function PieceOf(item: Columns.Item): Terminal.Piece {
    match item
    case Glyph(text, columns) => Terminal.Glyph(text, columns)
    case Code(code) => if code == CURSOR_MARKER then Terminal.Marker else Terminal.Style(code)
  }

  function PiecesOf(line: Columns.Line): (pieces: Terminal.Line)
    ensures |pieces| == |line|
  {
    seq(|line|, i requires 0 <= i < |line| => PieceOf(line[i]))
  }

  function Frame(lines: seq<Columns.Line>): seq<Terminal.Line> {
    seq(|lines|, i requires 0 <= i < |lines| => PiecesOf(lines[i]))
  }

  /** Both views of a line agree on its width. */
  lemma {:induction false} SameWidth(line: Columns.Line)
    ensures Terminal.VisibleWidth(PiecesOf(line)) == Columns.Width(line)
    decreases |line|
  {
    if line != [] {
      var front, last := line[..|line| - 1], line[|line| - 1];
      SameWidth(front);
      assert PiecesOf(line) == PiecesOf(front) + [PieceOf(last)];
      FrameDiff.VisibleWidthConcat(PiecesOf(front), [PieceOf(last)]);
      assert [PieceOf(last)][1..] == [];
    }
  }

  ghost predicate Fit(lines: seq<Columns.Line>, width: nat) {
    forall line :: line in lines ==> Columns.Width(line) <= width
  }

  lemma SameFit(lines: seq<Columns.Line>, width: nat)
    ensures FrameDiff.AllFit(Frame(lines), width) <==> Fit(lines, width)
  {
    forall i | 0 <= i < |lines| ensures Terminal.VisibleWidth(Frame(lines)[i]) == Columns.Width(lines[i]) {
      SameWidth(lines[i]);
    }
    if FrameDiff.AllFit(Frame(lines), width) {
      forall line | line in lines ensures Columns.Width(line) <= width {
        var i :| 0 <= i < |lines| && lines[i] == line;
        assert Terminal.VisibleWidth(Frame(lines)[i]) <= width;
      }
    }
  }

  /** One frame of a terminal interface with overlays: whatever the overlays are, content that fits is
      never refused. The terminal then shows the composed lines: those of the content wherever no overlay
      covers them, and in the columns of the topmost overlay that overlay. */
  method RenderWithOverlays(tui: Renderer.TUI, content: seq<Columns.Line>, stacked: nat, visible: seq<Overlay.Entry>,
                            pooled: AnsiTracker.AnsiCodeTracker)
    returns (outcome: Renderer.Outcome, composed: seq<Columns.Line>, ghost viewportStart: nat)
    requires tui.Coherent() && !tui.stopped && |visible| <= stacked
    requires Overlay.AllValid(content) && forall e :: e in visible ==> Overlay.RendersValid(e)
    modifies tui, pooled
    ensures tui.Coherent() && |content| <= |composed|
    ensures tui.screen.width == old(tui.screen.width) && tui.screen.height == old(tui.screen.height)
    ensures Fit(content, tui.screen.width) ==> Fit(composed, tui.screen.width) && outcome.Rendered? && !tui.stopped
    ensures Fit(content, tui.screen.width) && old(tui.Valid()) ==>
              FrameDiff.Shows(tui.screen.rows, FrameDiff.FrameOf(Frame(composed), tui.screen.height))
    ensures stacked > 0 ==> viewportStart + tui.screen.height == |composed|
    ensures Overlay.AllShown(composed, content, visible, tui.screen.width, tui.screen.height, viewportStart)
  {
    var width, height := tui.screen.width, tui.screen.height;
    composed, viewportStart := content, 0;
    Overlay.ShownAtFirst(composed, content, width, height, 0);
    if stacked > 0 {
      composed, viewportStart := Overlay.CompositeOverlays(content, visible, width, height, pooled);
    }
    SameFit(composed, width);
    outcome := tui.DoRender(Frame(composed), stacked > 0);
  }
}
