/** Overlays: where they go and how a line of one is spliced into a line of the screen. */
module Overlay {
  import opened Basics
  import opened Options
  import opened AnsiStyles
  import opened AnsiProofs
  import opened AnsiTracker
  import opened Columns
  import opened Slices

  // ---------- Layout ----------

  datatype Size = Absolute(n: int) | Percent(p: real) | Malformed

  datatype Placement = Start | Middle | End

  datatype Margin = Margin(top: int, right: int, bottom: int, left: int)

  /** `vertical` and `horizontal` are the two halves of the anchor. */
  datatype OverlayOptions = OverlayOptions(width: Option<Size>, minWidth: Option<int>, maxHeight: Option<Size>,
                                           vertical: Placement, horizontal: Placement, offsetX: int, offsetY: int,
                                           row: Option<Size>, col: Option<Size>, margin: Margin)

  datatype Layout = Layout(width: int, row: int, col: int, maxHeight: Option<int>)

  function ParseSizeValue(value: Option<Size>, reference: int): Option<int> {
    match value
    case None => None
    case Some(Absolute(n)) => Some(n)
    case Some(Percent(p)) => Some((reference as real * p / 100.0).Floor)
    case Some(Malformed) => None
  }

  /** Half of an amount, rounded down. */
  function ResolveAnchor(anchor: Placement, size: int, avail: int, margin: int): int {
    match anchor
    case Start => margin
    case End => margin + avail - size
    case Middle => margin + (avail - size) / 2
  }

  function ResolvePosition(value: Option<Size>, anchor: Placement, size: int, avail: int, margin: int): int {
    match value
    case None => ResolveAnchor(anchor, size, avail, margin)
    case Some(Absolute(n)) => n
    case Some(Percent(p)) => margin + (Max(0, avail - size) as real * (p / 100.0)).Floor
    case Some(Malformed) => ResolveAnchor(Middle, size, avail, margin)
  }

  function OverlayWidth(o: OverlayOptions, avail: int, termWidth: int): int {
    var asked := ParseSizeValue(o.width, termWidth);
    var width := if asked.Some? then asked.value else Min(80, avail);
    Max(1, Min(if o.minWidth.Some? then Max(width, o.minWidth.value) else width, avail))
  }

  function ResolveOverlayLayout(o: OverlayOptions, overlayHeight: nat, termWidth: int, termHeight: int): Layout {
    var top, right := Max(0, o.margin.top), Max(0, o.margin.right);
    var bottom, left := Max(0, o.margin.bottom), Max(0, o.margin.left);
    var availWidth, availHeight := Max(1, termWidth - left - right), Max(1, termHeight - top - bottom);
    var width := OverlayWidth(o, availWidth, termWidth);
    var asked := ParseSizeValue(o.maxHeight, termHeight);
    var maxHeight := if asked.Some? then Some(Max(1, Min(asked.value, availHeight))) else None;
    var height := if maxHeight.Some? then Min(overlayHeight, maxHeight.value) else overlayHeight;
    var row := ResolvePosition(o.row, o.vertical, height, availHeight, top) + o.offsetY;
    var col := ResolvePosition(o.col, o.horizontal, width, availWidth, left) + o.offsetX;
    Layout(width, Max(top, Min(row, termHeight - bottom - height)), Max(left, Min(col, termWidth - right - width)),
           maxHeight)
  }

  /** Whatever is asked for, an overlay lies within the terminal's columns exactly if its left margin does;
      and within the margins if they leave room. */
  lemma LayoutFits(o: OverlayOptions, height: nat, termWidth: int, termHeight: int)
    ensures var l := ResolveOverlayLayout(o, height, termWidth, termHeight);
            var left, right := Max(0, o.margin.left), Max(0, o.margin.right);
            && l.width >= 1 && l.col >= left
            && (l.col + l.width <= termWidth <==> left < termWidth)
            && (left + right < termWidth ==> l.col + l.width <= termWidth - right)
  {
    hide ResolvePosition, ParseSizeValue;
  }

  /** The same for the rows, for an overlay that is no taller than the room between the margins. */
  lemma LayoutRowsFit(o: OverlayOptions, height: nat, termWidth: int, termHeight: int)
    ensures var l := ResolveOverlayLayout(o, height, termWidth, termHeight);
            var top, bottom := Max(0, o.margin.top), Max(0, o.margin.bottom);
            var shown := if l.maxHeight.Some? then Min(height, l.maxHeight.value) else height;
            && l.row >= top
            && (l.row + shown <= termHeight - bottom <==> top + bottom + shown <= termHeight)
  {
    hide ResolvePosition, ParseSizeValue, OverlayWidth;
  }

  /** The width that was asked for, or 80, as far as the margins leave room and the least width allows; and
      likewise the greatest height. */
  lemma SizeMeans(o: OverlayOptions, height: nat, termWidth: int, termHeight: int, n: int)
    ensures var l := ResolveOverlayLayout(o, height, termWidth, termHeight);
            var availWidth := Max(1, termWidth - Max(0, o.margin.left) - Max(0, o.margin.right));
            var availHeight := Max(1, termHeight - Max(0, o.margin.top) - Max(0, o.margin.bottom));
            && 1 <= l.width <= availWidth
            && (o.minWidth.Some? ==> l.width >= Min(o.minWidth.value, availWidth))
            && (Asked(o.width, termWidth, n) && 1 <= n <= availWidth && (o.minWidth.Some? ==> o.minWidth.value <= n) ==>
                  l.width == n)
            && ((o.width.None? || o.width == Some(Malformed)) && o.minWidth.None? ==> l.width == Min(80, availWidth))
            && (l.maxHeight.None? <==> o.maxHeight.None? || o.maxHeight == Some(Malformed))
            && (l.maxHeight.Some? ==> 1 <= l.maxHeight.value <= availHeight)
            && (Asked(o.maxHeight, termHeight, n) && 1 <= n <= availHeight ==> l.maxHeight == Some(n))
  {
    hide ResolvePosition, ParseSizeValue, Asked;
    AskedIsParsed(o.width, termWidth, n);
    AskedIsParsed(o.maxHeight, termHeight, n);
  }

  lemma AskedIsParsed(size: Option<Size>, reference: int, n: int)
    ensures Asked(size, reference, n) <==> ParseSizeValue(size, reference) == Some(n)
    ensures ParseSizeValue(size, reference).None? <==> size.None? || size == Some(Malformed)
  {
    if size.Some? && size.value.Percent? {
      var exact := reference as real * size.value.p / 100.0;
      assert exact.Floor == n <==> n as real <= exact < (n + 1) as real;
    }
  }

  /** A size is a number of cells, or the whole cells in a part of the terminal. */
  predicate Asked(size: Option<Size>, reference: int, n: int) {
    match size
    case Some(Absolute(m)) => n == m
    case Some(Percent(p)) => n as real <= reference as real * p / 100.0 < (n + 1) as real
    case _ => false
  }

  /** Where an anchor puts something between two edges; in the middle, the odd row or column is behind it. */
  predicate Anchored(anchor: Placement, place: int, size: int, from: int, to: int) {
    match anchor
    case Start => place == from
    case End => place + size == to
    case Middle => 0 <= (to - (place + size)) - (place - from) <= 1
  }

  /** The nearest place between the edges. */
  predicate Nearest(place: int, asked: int, size: int, from: int, to: int) {
    if asked < from then place == from else if asked + size > to then place + size == to else place == asked
  }

  /** An overlay that fits goes where its anchor says, moved by its offset but not past the margins. */
  lemma AnchorMeans(o: OverlayOptions, height: nat, termWidth: int, termHeight: int) returns (row: int, col: int)
    ensures var l := ResolveOverlayLayout(o, height, termWidth, termHeight);
            var shown := if l.maxHeight.Some? then Min(height, l.maxHeight.value) else height;
            var top, bottom := Max(0, o.margin.top), termHeight - Max(0, o.margin.bottom);
            var left, right := Max(0, o.margin.left), termWidth - Max(0, o.margin.right);
            && (o.row.None? && top < bottom && shown <= bottom - top ==>
                  Anchored(o.vertical, row, shown, top, bottom) && Nearest(l.row, row + o.offsetY, shown, top, bottom))
            && (o.col.None? && left < right ==>
                  && Anchored(o.horizontal, col, l.width, left, right)
                  && Nearest(l.col, col + o.offsetX, l.width, left, right))
  {
    hide ParseSizeValue;
    var l := ResolveOverlayLayout(o, height, termWidth, termHeight);
    var shown := if l.maxHeight.Some? then Min(height, l.maxHeight.value) else height;
    var top, left := Max(0, o.margin.top), Max(0, o.margin.left);
    row := ResolveAnchor(o.vertical, shown, Max(1, termHeight - top - Max(0, o.margin.bottom)), top);
    col := ResolveAnchor(o.horizontal, l.width, Max(1, termWidth - left - Max(0, o.margin.right)), left);
  }

  // ---------- The parts of a line before and after an overlay ----------

  /** `before` shows the graphemes that end before a column; the codes met since then are kept back. */
  predicate Before(front: Line, end: int, before: Line, pending: Line) {
    && Cells(before, PLAIN) == Cells(front, PLAIN)[..Fit(front, end)]
    && OnlyCodes(pending) && (Width(front) < end ==> After(before + pending, PLAIN) == After(front, PLAIN))
  }

  /** `after` shows what lies between two columns, in the styles that it has in the line. */
  predicate Behind(front: Line, start: int, end: int, after: Line, started: bool) {
    && Cells(after, PLAIN) == Part(Cells(front, PLAIN), Reach(front, start), Fit(front, end))
    && (if started then Width(front) >= start && After(after, PLAIN) == After(front, PLAIN)
        else after == [] && Reach(front, start) == Width(front))
  }

  lemma {:induction false} CodesChangeNoCells(text: Line, codes: Line)
    requires OnlyCodes(codes)
    ensures Cells(text + codes, PLAIN) == Cells(text, PLAIN) && Width(text + codes) == Width(text)
    decreases |codes|
  {
    hide Process;
    if codes == [] {
      assert text + codes == text;
    } else {
      var k := |codes| - 1;
      assert codes[k] in codes && text + codes == (text + codes[..k]) + [codes[k]];
      CodesChangeNoCells(text, codes[..k]);
      OneMore(text + codes[..k], codes[k], PLAIN);
    }
  }

  // A grapheme that ends before the column.
  lemma BeforeGlyph(front: Line, g: Item, end: int, before: Line, pending: Line)
    requires Before(front, end, before, pending) && g.Glyph? && Width(front) < end && Width(front) + g.columns <= end
    ensures Before(front + [g], end, before + pending + [g], [])
            && Width(before + pending + [g]) == Width(before) + g.columns
  {
    hide Width, Fit, Cells, After, GlyphCells, Process;
    CodesChangeNoCells(before, pending);
    OneMore(front, g, PLAIN);
    OneMore(before + pending, g, PLAIN);
    OneMoreFits(front, g, end);
    FitsWhole(front, end);
    assert Cells(front, PLAIN)[..Width(front)] == Cells(front, PLAIN);
    assert before + pending + [g] + [] == before + pending + [g];
  }

  // A grapheme that does not.
  lemma BeforeOther(front: Line, g: Item, end: int, before: Line, pending: Line)
    requires Before(front, end, before, pending) && g.Glyph? && (Width(front) >= end || Width(front) + g.columns > end)
    ensures Before(front + [g], end, before, pending)
  {
    hide Width, Fit, Cells, After, GlyphCells, Process;
    OneMore(front, g, PLAIN);
    OneMoreFits(front, g, end);
    FitBound(front, end);
    assert (Cells(front, PLAIN) + GlyphCells(g, After(front, PLAIN)))[..Fit(front, end)]
           == Cells(front, PLAIN)[..Fit(front, end)];
  }

  lemma FitBound(line: Line, n: int)
    ensures Fit(line, n) <= Width(line) && (Fit(line, n) <= n || Fit(line, n) == 0)
  {
  }

  lemma BeforeCode(front: Line, code: Item, end: int, before: Line, pending: Line, kept: Line)
    requires Before(front, end, before, pending) && code.Code?
    requires if Width(front) < end then kept == pending + [code] else kept == pending
    ensures Before(front + [code], end, before, kept)
  {
    hide Width, Fit, Cells, After, GlyphCells, Process;
    OneMore(front, code, PLAIN);
    OneMore(before + pending, code, PLAIN);
    OneMoreFits(front, code, end);
    CodeShowsNothing(code, After(front, PLAIN));
    assert before + (pending + [code]) == before + pending + [code];
    assert Cells(front, PLAIN) + [] == Cells(front, PLAIN);
  }

  lemma CodeShowsNothing(code: Item, s: Style)
    requires code.Code?
    ensures GlyphCells(code, s) == []
  {
  }

  lemma BehindCode(front: Line, code: Item, start: int, end: int, after: Line, started: bool)
    requires Behind(front, start, end, after, started) && code.Code? && Width(front) < end
    ensures Behind(front + [code], start, end, if started then after + [code] else after, started)
  {
    hide Width, Fit, Reach, Cells, After, GlyphCells, Process;
    OneMore(front, code, PLAIN);
    OneMore(after, code, PLAIN);
    OneMoreFits(front, code, start);
    OneMoreFits(front, code, end);
    FitsWhole(front, end);
    ReachWithin(front, start);
    CodeShowsNothing(code, After(front, PLAIN));
    CodeShowsNothing(code, After(after, PLAIN));
    assert Cells(front, PLAIN) + [] == Cells(front, PLAIN) && Cells(after, PLAIN) + [] == Cells(after, PLAIN);
  }

  // A grapheme before the column at which the part after the overlay starts.
  lemma BehindEarly(front: Line, g: Item, start: int, end: int, after: Line)
    requires Behind(front, start, end, after, false) && g.Glyph? && Width(front) < start
    ensures Behind(front + [g], start, end, after, false)
  {
    hide Width, Fit, Reach, Cells, After, GlyphCells;
    OneMore(front, g, PLAIN);
    OneMoreFits(front, g, start);
    FitBound(front + [g], end);
    PartEmpty(Cells(front + [g], PLAIN), Fit(front + [g], end));
    NothingWide();
    assert Cells([], PLAIN) == [] by { NoCells(PLAIN); }
  }

  lemma NoCells(s: Style)
    ensures Cells([], s) == [] && After([], s) == s
  {
  }

  // A grapheme in the part after the overlay. The first one brings the style along.
  lemma BehindGlyph(front: Line, g: Item, start: int, end: int, after: Line, started: bool)
    requires Behind(front, start, end, after, started) && g.Glyph? && start <= Width(front)
             && Width(front) + g.columns <= end
    requires Reachable(After(front, PLAIN))
    ensures var longer := (if started then after else after + ActiveItems(After(front, PLAIN))) + [g];
            Behind(front + [g], start, end, longer, true) && Width(longer) == Width(after) + g.columns
  {
    hide Width, Fit, Reach, Cells, After, GlyphCells, Process, ActiveItems, Reachable;
    var s := After(front, PLAIN);
    var base := if started then after else after + ActiveItems(s);
    NoCells(PLAIN);
    if !started {
      ActiveItemsRestore(s);
      assert [] + ActiveItems(s) == ActiveItems(s);
      NothingWide();
      PartEmpty(Cells(front, PLAIN), Fit(front, end));
    }
    OneMore(front, g, PLAIN);
    OneMore(base, g, PLAIN);
    OneMoreFits(front, g, start);
    OneMoreFits(front, g, end);
    FitsWhole(front, end);
    ReachWithin(front, start);
    PartExtends(Cells(front, PLAIN), GlyphCells(g, s), Reach(front, start));
  }

  // A grapheme that extends past the end.
  lemma BehindCut(front: Line, g: Item, start: int, end: int, after: Line, started: bool)
    requires Behind(front, start, end, after, started) && g.Glyph?
             && start <= Width(front) < end < Width(front) + g.columns
    ensures Cells(after, PLAIN) == Part(Cells(front + [g], PLAIN), Reach(front + [g], start), Fit(front + [g], end))
  {
    hide Width, Fit, Reach, Cells, After, GlyphCells;
    OneMore(front, g, PLAIN);
    OneMoreFits(front, g, start);
    OneMoreFits(front, g, end);
    FitsWhole(front, end);
    ReachWithin(front, start);
    PartExtends(Cells(front, PLAIN), GlyphCells(g, After(front, PLAIN)), Reach(front, start));
  }

  lemma SegmentsDone(line: Line, i: nat, beforeEnd: int, start: int, end: int, before: Line, after: Line)
    requires i <= |line| && Cells(before, PLAIN) == Cells(line[..i], PLAIN)[..Fit(line[..i], beforeEnd)]
    requires i == |line| || Width(line[..i]) >= beforeEnd
    ensures Cells(before, PLAIN) == Cells(line, PLAIN)[..Fit(line, beforeEnd)]
    ensures start <= end && (i == |line| || Width(line[..i]) >= end)
            && Cells(after, PLAIN) == Part(Cells(line[..i], PLAIN), Reach(line[..i], start), Fit(line[..i], end)) ==>
              Cells(after, PLAIN) == Part(Cells(line, PLAIN), Reach(line, start), Fit(line, end))
  {
    hide Width, Fit, Reach, Cells, After;
    if i < |line| {
      Settled(line, i, beforeEnd);
      PrefixShows(line, i, PLAIN);
      if start <= end <= Width(line[..i]) {
        Settled(line, i, start);
        Settled(line, i, end);
        ReachWithin(line[..i], start);
        FitBound(line[..i], end);
      }
    } else {
      assert line[..i] == line;
    }
  }

  /** What of a line stands before and after an overlay, in one pass. `pooled` is a tracker kept for this. */
  method ExtractSegments(line: Line, beforeEnd: int, afterStart: int, afterLen: int, strictAfter: bool,
                         pooled: AnsiCodeTracker)
    returns (before: Line, beforeWidth: nat, after: Line, afterWidth: nat)
    requires ValidLine(line) && 0 <= beforeEnd <= afterStart
    modifies pooled
    ensures beforeWidth == Width(before) && afterWidth == Width(after)
    ensures ValidLine(before) && ValidLine(after)
    ensures Cells(before, PLAIN) == Cells(line, PLAIN)[..Fit(line, beforeEnd)]
    ensures afterLen <= 0 ==> after == []
    ensures strictAfter && 0 < afterLen ==>
              Cells(after, PLAIN) == Part(Cells(line, PLAIN), Reach(line, afterStart), Fit(line, afterStart + afterLen))
  {
    hide ValidLine, Width, Cells, After, Fit, Reach, Before, Behind, Part, Process, Reachable, ActiveItems, OnlyCodes,
      IsCode;
    before, beforeWidth, after, afterWidth := [], 0, [], 0;
    var currentCol, afterStarted, afterEnd := 0, false, afterStart + afterLen;
    var pendingAnsiBefore: Line := [];
    pooled.Clear();
    NothingYet(beforeEnd, afterStart, afterEnd);
    NothingIsValid();
    var i := 0;
    assert line[..0] == [];
    while i < |line|
      invariant 0 <= i <= |line| && currentCol == Width(line[..i])
      invariant beforeWidth == Width(before) && afterWidth == Width(after)
      invariant pooled.Valid() && pooled.Value() == After(line[..i], PLAIN)
      invariant Before(line[..i], beforeEnd, before, pendingAnsiBefore)
      invariant ValidLine(before) && ValidLine(after) && ValidLine(pendingAnsiBefore)
      invariant afterLen <= 0 ==> after == [] && !afterStarted
      invariant 0 < afterLen ==> currentCol < afterEnd
      invariant strictAfter && 0 < afterLen ==> Behind(line[..i], afterStart, afterEnd, after, afterStarted)
    {
      var item := line[i];
      ghost var front := line[..i];
      assert line[..i + 1] == front + [item] && item in line;
      OneMore(front, item, PLAIN);
      OneIsValid(line, item);
      if item.Code? {
        CodeIsValid(line, item);
        pooled.Process(item.code);
        BeforeCode(front, item, beforeEnd, before, pendingAnsiBefore,
                   if currentCol < beforeEnd then pendingAnsiBefore + [item] else pendingAnsiBefore);
        if strictAfter && 0 < afterLen {
          BehindCode(front, item, afterStart, afterEnd, after, afterStarted);
          StartedBehind(front, afterStart, afterEnd, after, afterStarted);
        }
        if currentCol < beforeEnd {
          ValidConcat(pendingAnsiBefore, [item]);
          pendingAnsiBefore := pendingAnsiBefore + [item];
        } else if afterStart <= currentCol < afterEnd && afterStarted {
          OneMore(after, item, PLAIN);
          ValidConcat(after, [item]);
          after := after + [item];
        }
        i := i + 1;
        continue;
      }
      var w := item.columns;
      if currentCol < beforeEnd && currentCol + w <= beforeEnd {
        BeforeGlyph(front, item, beforeEnd, before, pendingAnsiBefore);
        if strictAfter && 0 < afterLen {
          EarlyGlyph(front, item, afterStart, afterEnd, after, afterStarted);
        }
        NothingPending(before, pendingAnsiBefore);
        ValidConcat(before, pendingAnsiBefore);
        ValidConcat(before + pendingAnsiBefore, [item]);
        if pendingAnsiBefore != [] {
          before := before + pendingAnsiBefore;
          pendingAnsiBefore := [];
        }
        before := before + [item];
        assert ValidLine(before);
        NothingIsValid();
        beforeWidth := beforeWidth + w;
      } else {
        BeforeOther(front, item, beforeEnd, before, pendingAnsiBefore);
        if afterStart <= currentCol < afterEnd {
          var fits := !strictAfter || currentCol + w <= afterEnd;
          if fits {
            if strictAfter { LateGlyph(front, item, afterStart, afterEnd, after, afterStarted); }
            if !afterStarted {
              ItemsWidth(after, After(front, PLAIN));
              ActiveItemsAreValid(pooled.Value());
              ValidConcat(after, ActiveItems(pooled.Value()));
              after := after + ActiveItems(pooled.Value());
              afterStarted := true;
            }
            OneMore(after, item, PLAIN);
            ValidConcat(after, [item]);
            after := after + [item];
            afterWidth := afterWidth + w;
          } else {
            BehindCut(front, item, afterStart, afterEnd, after, afterStarted);
          }
        } else if strictAfter && 0 < afterLen {
          EarlyGlyph(front, item, afterStart, afterEnd, after, afterStarted);
        }
      }
      currentCol := currentCol + w;
      i := i + 1;
      if (if afterLen <= 0 then currentCol >= beforeEnd else currentCol >= afterEnd) {
        ShowsBefore(line[..i], beforeEnd, before, pendingAnsiBefore);
        SegmentsDone(line, i, beforeEnd, afterStart, afterEnd, before, after);
        return;
      }
    }
    ShowsBefore(line[..i], beforeEnd, before, pendingAnsiBefore);
    if strictAfter && 0 < afterLen { StartedBehind(line[..i], afterStart, afterEnd, after, afterStarted); }
    SegmentsDone(line, i, beforeEnd, afterStart, afterEnd, before, after);
  }

  lemma OneIsValid(line: Line, item: Item)
    requires ValidLine(line) && item in line
    ensures ValidLine([item])
  {
  }

  lemma NothingIsValid()
    ensures ValidLine([])
  {
  }

  lemma CodeIsValid(line: Line, item: Item)
    requires ValidLine(line) && item in line && item.Code?
    ensures IsCode(item.code)
  {
  }

  lemma StartedBehind(front: Line, start: int, end: int, after: Line, started: bool)
    requires Behind(front, start, end, after, started)
    ensures started ==> Width(front) >= start
    ensures Cells(after, PLAIN) == Part(Cells(front, PLAIN), Reach(front, start), Fit(front, end))
  {
  }

  lemma EarlyGlyph(front: Line, g: Item, start: int, end: int, after: Line, started: bool)
    requires Behind(front, start, end, after, started) && g.Glyph? && Width(front) < start
    ensures !started && Behind(front + [g], start, end, after, false)
    ensures Cells(after, PLAIN) == Part(Cells(front + [g], PLAIN), Reach(front + [g], start), Fit(front + [g], end))
  {
    hide Width, Fit, Reach, Cells, After, Part;
    BehindEarly(front, g, start, end, after);
  }

  lemma LateGlyph(front: Line, g: Item, start: int, end: int, after: Line, started: bool)
    requires Behind(front, start, end, after, started) && g.Glyph? && start <= Width(front)
             && Width(front) + g.columns <= end
    requires Reachable(After(front, PLAIN))
    ensures var longer := (if started then after else after + ActiveItems(After(front, PLAIN))) + [g];
            && Behind(front + [g], start, end, longer, true)
            && Cells(longer, PLAIN) == Part(Cells(front + [g], PLAIN), Reach(front + [g], start), Fit(front + [g], end))
  {
    hide Width, Fit, Reach, Cells, After, Part, Reachable, ActiveItems;
    BehindGlyph(front, g, start, end, after, started);
  }

  lemma NothingPending(before: Line, pending: Line)
    ensures pending == [] ==> before + pending == before
  {
  }

  lemma ItemsWidth(text: Line, s: Style)
    ensures Width(text + ActiveItems(s)) == Width(text)
  {
    hide Codes, SgrCode, FormatOsc8Hyperlink;
    CodesShowNothing(text, ActiveItems(s));
  }

  lemma ShowsBefore(front: Line, end: int, before: Line, pending: Line)
    requires Before(front, end, before, pending)
    ensures Cells(before, PLAIN) == Cells(front, PLAIN)[..Fit(front, end)]
  {
  }

  lemma NothingYet(beforeEnd: int, start: int, end: int)
    ensures Before([], beforeEnd, [], []) && Behind([], start, end, [], false)
    ensures Width([]) == 0 && After([], PLAIN) == PLAIN
  {
    var nothing: Line := [];
    assert nothing + nothing == nothing;
  }

  // ---------- Splicing ----------

  /** Before, overlay, after; each padded with spaces, and the styles closed in between. */
  function Spliced(before: Line, pad1: int, text: Line, pad2: int, after: Line, pad3: int): Line {
    before + Spaces(pad1) + SEGMENT_RESET + text + Spaces(pad2) + SEGMENT_RESET + after + Spaces(pad3)
  }

  lemma SplicedHalf(before: Line, pad: nat)
    ensures var front := before + Spaces(pad) + SEGMENT_RESET;
            && After(front, PLAIN) == PLAIN
            && Cells(front, PLAIN) == Cells(before, PLAIN) + Cells(Spaces(pad), After(before, PLAIN))
  {
    hide Cells, After, Width, Spaces, Process;
    Concat(before, Spaces(pad), PLAIN);
    var front := before + Spaces(pad);
    Concat(front, SEGMENT_RESET, PLAIN);
    ResetResets(After(front, PLAIN));
    assert Cells(front, PLAIN) + [] == Cells(front, PLAIN);
  }

  /** What a spliced line shows: nothing of one part runs on into the next. */
  lemma SplicedShows(before: Line, pad1: nat, text: Line, pad2: nat, after: Line, pad3: nat)
    ensures Cells(Spliced(before, pad1, text, pad2, after, pad3), PLAIN)
         == (Cells(before, PLAIN) + Cells(Spaces(pad1), After(before, PLAIN)))
            + (Cells(text, PLAIN) + Cells(Spaces(pad2), After(text, PLAIN)))
            + (Cells(after, PLAIN) + Cells(Spaces(pad3), After(after, PLAIN)))
  {
    hide Cells, After, Width, Spaces;
    var first := before + Spaces(pad1) + SEGMENT_RESET;
    var second := text + Spaces(pad2) + SEGMENT_RESET;
    var third := after + Spaces(pad3);
    assert Spliced(before, pad1, text, pad2, after, pad3) == first + second + third;
    SplicedHalf(before, pad1);
    SplicedHalf(text, pad2);
    Concat(after, Spaces(pad3), PLAIN);
    Concat(first, second, PLAIN);
    Concat(first + second, third, PLAIN);
  }

  /** The parts of the base line on the left and on the right of an overlay, and the part of the overlay's line
      that is shown. */
  function Left(base: Line, startCol: int): seq<Cell> { Cells(base, PLAIN)[..Fit(base, startCol)] }

  function Right(base: Line, afterStart: int, totalWidth: int): seq<Cell> {
    if afterStart < totalWidth then Part(Cells(base, PLAIN), Reach(base, afterStart), Fit(base, totalWidth)) else []
  }

  /** A line of exactly `totalWidth` columns: the left part of the base line where it was, the overlay in its
      columns, then the right part; spaces wherever these fall short of their columns. */
  predicate Composited(cells: seq<Cell>, base: Line, overlay: Line, startCol: nat, overlayWidth: nat, totalWidth: nat) {
    var left, middle := Left(base, startCol), Left(overlay, overlayWidth);
    var right := Right(base, startCol + overlayWidth, totalWidth);
    var afterStart := startCol + overlayWidth;
    && |cells| == totalWidth && |left| <= startCol && |middle| <= overlayWidth && afterStart + |right| <= totalWidth
    && cells[..|left|] == left && AllSpaces(cells[|left|..startCol])
    && cells[startCol..startCol + |middle|] == middle && AllSpaces(cells[startCol + |middle|..afterStart])
    && cells[afterStart..afterStart + |right|] == right && AllSpaces(cells[afterStart + |right|..])
  }

  lemma PartsFit(base: Line, overlay: Line, startCol: nat, overlayWidth: nat, totalWidth: nat)
    requires startCol + overlayWidth <= totalWidth
    ensures |Left(base, startCol)| <= startCol && |Left(overlay, overlayWidth)| <= overlayWidth
    ensures startCol + overlayWidth + |Right(base, startCol + overlayWidth, totalWidth)| <= totalWidth
  {
    hide Fit, Reach, Cells, Width;
    FitBound(base, startCol);
    FitBound(overlay, overlayWidth);
    FitBound(base, totalWidth);
    ReachBound(base, startCol + overlayWidth);
  }

  lemma ReachBound(line: Line, n: int)
    ensures Reach(line, n) <= Width(line) && (Reach(line, n) >= n || Reach(line, n) == Width(line))
  {
  }

  lemma Joined(left: seq<Cell>, s1: seq<Cell>, middle: seq<Cell>, s2: seq<Cell>, right: seq<Cell>, s3: seq<Cell>)
    ensures var cells := (left + s1) + (middle + s2) + (right + s3);
            var a, b := |left| + |s1|, |left| + |s1| + |middle| + |s2|;
            && cells[..|left|] == left && cells[|left|..a] == s1
            && cells[a..a + |middle|] == middle && cells[a + |middle|..b] == s2
            && cells[b..b + |right|] == right && cells[b + |right|..] == s3
  {
  }

  method CompositeLineAt(base: Line, overlay: Line, startCol: nat, overlayWidth: nat, totalWidth: nat,
                         pooled: AnsiCodeTracker)
    returns (result: Line)
    requires ValidLine(base)
    modifies pooled
    ensures startCol + overlayWidth <= totalWidth ==>
              Composited(Cells(result, PLAIN), base, overlay, startCol, overlayWidth, totalWidth)
    ensures Width(result) <= totalWidth
    ensures ValidLine(overlay) ==> ValidLine(result)
  {
    hide ValidLine, Cells, After, Width, Fit, Reach, Spaces, Process, Spliced, Left, Right, Composited, Part, Sliced,
      StylesKept;
    var afterStart := startCol + overlayWidth;
    var before, beforeWidth, after, afterWidth := ExtractSegments(base, startCol, afterStart, totalWidth - afterStart,
                                                                  true, pooled);
    var text, textWidth := SliceWithWidth(overlay, 0, overlayWidth, true);
    var beforePad := Max(0, startCol - beforeWidth);
    var overlayPad := Max(0, overlayWidth - textWidth);
    var actualBeforeWidth := Max(startCol, beforeWidth);
    var actualOverlayWidth := Max(overlayWidth, textWidth);
    var afterTarget := Max(0, totalWidth - actualBeforeWidth - actualOverlayWidth);
    var afterPad := Max(0, afterTarget - afterWidth);
    result := Spliced(before, beforePad, text, overlayPad, after, afterPad);
    SplicedIsValid(before, beforePad, text, overlayPad, after, afterPad);
    if afterStart <= totalWidth {
      assert Cells(text, PLAIN) == Left(overlay, overlayWidth) by { SliceIsLeft(overlay, text, overlayWidth); }
      assert Cells(before, PLAIN) == Left(base, startCol) by { LeftIs(base, startCol); }
      assert Cells(after, PLAIN)
             == Right(base, afterStart, totalWidth) by { RightIs(base, afterStart, totalWidth, after); }
      PartsFit(base, overlay, startCol, overlayWidth, totalWidth);
      CompositedExactly(base, overlay, before, text, after, startCol, overlayWidth, totalWidth);
      CompositedWidth(Cells(result, PLAIN), base, overlay, startCol, overlayWidth, totalWidth);
    }
    var resultWidth := Width(result);
    if resultWidth <= totalWidth {
      return;
    }
    ghost var whole := result;
    var cut, _ := SliceWithWidth(result, 0, totalWidth, true);
    result := cut;
    if 0 < totalWidth {
      FromLeftEdge(whole, totalWidth, cut);
    }
    FitBound(whole, totalWidth);
    NothingWide();
  }

  lemma SplicedIsValid(before: Line, pad1: int, text: Line, pad2: int, after: Line, pad3: int)
    ensures ValidLine(before) && ValidLine(text) && ValidLine(after) ==>
              ValidLine(Spliced(before, pad1, text, pad2, after, pad3))
  {
    hide ValidLine, Spaces;
    SpacesAreValid(pad1);
    SpacesAreValid(pad2);
    SpacesAreValid(pad3);
    ResetResets(PLAIN);
    ValidConcat(before, Spaces(pad1));
    ValidConcat(before + Spaces(pad1), SEGMENT_RESET);
    var front := before + Spaces(pad1) + SEGMENT_RESET;
    ValidConcat(front, text);
    ValidConcat(front + text, Spaces(pad2));
    ValidConcat(front + text + Spaces(pad2), SEGMENT_RESET);
    var middle := front + text + Spaces(pad2) + SEGMENT_RESET;
    ValidConcat(middle, after);
    ValidConcat(middle + after, Spaces(pad3));
  }

  lemma CompositedWidth(cells: seq<Cell>, base: Line, overlay: Line, startCol: nat, overlayWidth: nat, totalWidth: nat)
    requires Composited(cells, base, overlay, startCol, overlayWidth, totalWidth)
    ensures |cells| == totalWidth
  {
  }

  lemma SliceIsLeft(overlay: Line, text: Line, overlayWidth: nat)
    requires overlayWidth == 0 ==> text == []
    requires 0 < overlayWidth ==> StylesKept(overlay, 0, overlayWidth, true, text)
    ensures Cells(text, PLAIN) == Left(overlay, overlayWidth)
  {
    hide Cells, Fit, StylesKept;
    if 0 < overlayWidth {
      FromLeftEdge(overlay, overlayWidth, text);
    }
    FitBound(overlay, overlayWidth);
    NoCells(PLAIN);
  }

  lemma LeftIs(base: Line, startCol: int)
    ensures Left(base, startCol) == Cells(base, PLAIN)[..Fit(base, startCol)]
  {
  }

  lemma RightIs(base: Line, afterStart: int, totalWidth: int, after: Line)
    requires totalWidth - afterStart <= 0 ==> after == []
    requires 0 < totalWidth - afterStart ==>
               Cells(after, PLAIN) == Part(Cells(base, PLAIN), Reach(base, afterStart),
                                           Fit(base, afterStart + (totalWidth - afterStart)))
    ensures Cells(after, PLAIN) == Right(base, afterStart, totalWidth)
  {
    hide Cells, Fit, Reach;
    NoCells(PLAIN);
  }

  lemma CompositedExactly(base: Line, overlay: Line, before: Line, text: Line, after: Line,
                          startCol: nat, overlayWidth: nat, totalWidth: nat)
    requires Cells(before, PLAIN) == Left(base, startCol) && Cells(text, PLAIN) == Left(overlay, overlayWidth)
    requires Cells(after, PLAIN) == Right(base, startCol + overlayWidth, totalWidth)
    requires Width(before) <= startCol && Width(text) <= overlayWidth
             && startCol + overlayWidth + Width(after) <= totalWidth
    ensures var result := Spliced(before, startCol - Width(before), text, overlayWidth - Width(text), after,
                                  totalWidth - startCol - overlayWidth - Width(after));
            Composited(Cells(result, PLAIN), base, overlay, startCol, overlayWidth, totalWidth)
  {
    hide Cells, After, Width, Fit, Reach, Spaces, Spliced, Left, Right, AllSpaces;
    var n1, n2 := startCol - Width(before), overlayWidth - Width(text);
    var n3 := totalWidth - startCol - overlayWidth - Width(after);
    SplicedShows(before, n1, text, n2, after, n3);
    SpacesShow(n1, After(before, PLAIN));
    SpacesShow(n2, After(text, PLAIN));
    SpacesShow(n3, After(after, PLAIN));
    Joined(Cells(before, PLAIN), Cells(Spaces(n1), After(before, PLAIN)), Cells(text, PLAIN),
           Cells(Spaces(n2), After(text, PLAIN)),
           Cells(after, PLAIN), Cells(Spaces(n3), After(after, PLAIN)));
  }

  // ---------- Where the right part stands ----------

  /** The column at which an item of a line begins. */
  function Edge(line: Line, i: nat): nat
    requires i <= |line|
  {
    Width(line[..i])
  }

  /** Some grapheme begins before a column and ends behind it. */
  ghost predicate Straddles(line: Line, n: int) {
    exists i :: 0 <= i < |line| && Edge(line, i) < n < Edge(line, i + 1)
  }

  lemma EdgesOfFront(line: Line)
    requires line != []
    ensures forall i :: 0 <= i < |line| ==> Edge(line[..|line| - 1], i) == Edge(line, i) <= Edge(line, |line| - 1)
    ensures Edge(line, |line|) == Width(line) && Edge(line, |line| - 1) == Width(line[..|line| - 1])
  {
    hide Width;
    var front := line[..|line| - 1];
    assert line[..|line|] == line;
    forall i | 0 <= i < |line| ensures Edge(front, i) == Edge(line, i) <= Edge(line, |line| - 1) {
      assert front[..i] == line[..i];
      PrefixWidth(front, i);
    }
  }

  lemma {:induction false} ReachPassesIffStraddled(line: Line, n: int)
    requires 0 <= n
    ensures Reach(line, n) > n <==> Straddles(line, n)
    decreases |line|
  {
    hide Edge, Width;
    if line != [] {
      var k := |line| - 1;
      var front := line[..k];
      ReachPassesIffStraddled(front, n);
      EdgesOfFront(line);
      if Width(front) < n {
        NotStraddledBefore(line, n);
      } else {
        SameStraddling(line, n);
      }
    }
  }

  lemma NotStraddledBefore(line: Line, n: int)
    requires line != [] && Width(line[..|line| - 1]) < n
    ensures Straddles(line, n) <==> Width(line) > n
  {
    hide Edge, Width;
    EdgesOfFront(line);
    if Width(line) > n {
      assert Edge(line, |line| - 1) < n < Edge(line, |line| - 1 + 1);
    }
  }

  lemma SameStraddling(line: Line, n: int)
    requires line != [] && Width(line[..|line| - 1]) >= n
    ensures Straddles(line, n) <==> Straddles(line[..|line| - 1], n)
  {
    hide Edge, Width;
    var front := line[..|line| - 1];
    EdgesOfFront(line);
    if Straddles(line, n) {
      var i :| 0 <= i < |line| && Edge(line, i) < n < Edge(line, i + 1);
      assert i < |line| - 1;
      assert Edge(front, i) < n < Edge(front, i + 1);
    }
    if Straddles(front, n) {
      var i :| 0 <= i < |front| && Edge(front, i) < n < Edge(front, i + 1);
      assert Edge(line, i) < n < Edge(line, i + 1);
    }
  }

  /** The right part of the base line stays in its columns exactly if no grapheme straddles the overlay's
      right edge. Otherwise it moves left by as many columns as that grapheme has behind the edge. */
  lemma RightPartStands(cells: seq<Cell>, base: Line, overlay: Line, startCol: nat, overlayWidth: nat, totalWidth: nat)
    requires Composited(cells, base, overlay, startCol, overlayWidth, totalWidth)
    ensures var afterStart := startCol + overlayWidth;
            var shift := Reach(base, afterStart) - afterStart;
            && (forall c :: afterStart + shift <= c < Fit(base, totalWidth) && shift >= 0 && afterStart < totalWidth ==>
                  cells[c - shift] == Cells(base, PLAIN)[c])
            && (shift > 0 <==> Straddles(base, afterStart))
  {
    hide Cells, Width, Fit, Reach, AllSpaces;
    var afterStart := startCol + overlayWidth;
    ReachPassesIffStraddled(base, afterStart);
    FitBound(base, totalWidth);
    var right := Right(base, afterStart, totalWidth);
    forall c | Reach(base, afterStart) <= c < Fit(base, totalWidth) && Reach(base, afterStart) >= afterStart
               && afterStart < totalWidth
      ensures cells[c - (Reach(base, afterStart) - afterStart)] == Cells(base, PLAIN)[c]
    {
      var k := c - Reach(base, afterStart);
      assert cells[afterStart..afterStart + |right|][k] == right[k];
    }
  }

  /** One wide grapheme under the right edge: what follows it moves one column to the left. */
  method StraddlingShifts() returns (result: Line)
    ensures |Cells(result, PLAIN)| == 4 && Cells(result, PLAIN)[1] == Cell("x", 0, PLAIN)
    ensures Cells([Glyph("W", 2), Glyph("x", 1)], PLAIN)[2] == Cell("x", 0, PLAIN)
  {
    var base, overlay := [Glyph("W", 2), Glyph("x", 1)], [Glyph("o", 1)];
    var tracker := new AnsiCodeTracker();
    result := CompositeLineAt(base, overlay, 0, 1, 4, tracker);
    ExampleBase();
    RightPartStands(Cells(result, PLAIN), base, overlay, 0, 1, 4);
  }

  lemma ExampleBase()
    ensures var base := [Glyph("W", 2), Glyph("x", 1)];
            Reach(base, 1) == 2 && Fit(base, 4) == 3 && Cells(base, PLAIN)[2] == Cell("x", 0, PLAIN)
  {
    var w, x := Glyph("W", 2), Glyph("x", 1);
    assert [w, x] == [] + [w] + [x];
    OneMore([], w, PLAIN);
    OneMore([] + [w], x, PLAIN);
    OneMoreFits([], w, 1);
    OneMoreFits([] + [w], x, 1);
    OneMoreFits([], w, 4);
    OneMoreFits([] + [w], x, 4);
  }

  // ---------- All overlays ----------

  /** An overlay with what its component renders at each width. */
  datatype Entry = Entry(options: OverlayOptions, render: nat -> seq<Line>)

  datatype Rendered = Rendered(lines: seq<Line>, row: nat, col: nat, width: nat)

  predicate AllValid(lines: seq<Line>) { forall l :: l in lines ==> ValidLine(l) }

  ghost predicate RendersValid(e: Entry) { forall w: nat :: AllValid(e.render(w)) }

  /** The width is settled first, then what the component renders at it is placed. */
  function RenderOverlay(e: Entry, termWidth: nat, termHeight: nat): (r: Rendered)
    ensures r.width == ResolveOverlayLayout(e.options, |r.lines|, termWidth, termHeight).width
    ensures r.col == ResolveOverlayLayout(e.options, |r.lines|, termWidth, termHeight).col
    ensures RendersValid(e) ==> AllValid(r.lines)
  {
    LayoutFits(e.options, 0, termWidth, termHeight);
    var first := ResolveOverlayLayout(e.options, 0, termWidth, termHeight);
    var all := e.render(first.width);
    assert RendersValid(e) ==> AllValid(all);
    var lines := if first.maxHeight.Some? && |all| > first.maxHeight.value then all[..first.maxHeight.value] else all;
    LayoutFits(e.options, |lines|, termWidth, termHeight);
    var final := ResolveOverlayLayout(e.options, |lines|, termWidth, termHeight);
    Rendered(lines, final.row, final.col, first.width)
  }

  /** The rows of the screen on which an overlay is painted. */
  predicate Covers(r: Rendered, viewportStart: nat, i: int) {
    viewportStart + r.row <= i < viewportStart + r.row + |r.lines|
  }

  predicate LeavesRoom(e: Entry, termWidth: nat) { Max(0, e.options.margin.left) < termWidth }

  /** On a row that it covers, the overlay's line is composited into the one that was there. */
  predicate Laid(line: Line, base: Line, r: Rendered, viewportStart: nat, i: int, termWidth: nat) {
    Covers(r, viewportStart, i)
    && Composited(Cells(line, PLAIN), base, r.lines[i - viewportStart - r.row], r.col, r.width, termWidth)
  }

  /** The line is as wide as the terminal, and in the columns of the overlay stand the graphemes of its line
      that fit, and spaces behind them. */
  predicate InFront(line: Line, r: Rendered, viewportStart: nat, i: int, termWidth: nat) {
    Covers(r, viewportStart, i)
    && InColumns(Cells(line, PLAIN), r.lines[i - viewportStart - r.row], r.col, r.width, termWidth)
  }

  predicate InColumns(cells: seq<Cell>, overlay: Line, startCol: nat, overlayWidth: nat, totalWidth: nat) {
    var shown, end := Left(overlay, overlayWidth), startCol + overlayWidth;
    && |shown| <= overlayWidth && end <= |cells| == totalWidth
    && cells[startCol..startCol + |shown|] == shown && AllSpaces(cells[startCol + |shown|..end])
  }

  lemma LaidIsInFront(line: Line, base: Line, r: Rendered, viewportStart: nat, i: int, termWidth: nat)
    requires Laid(line, base, r, viewportStart, i, termWidth)
    ensures InFront(line, r, viewportStart, i, termWidth)
  {
    hide Cells, Left, Right, AllSpaces, Composited, InColumns;
    CompositedMiddle(Cells(line, PLAIN), base, r.lines[i - viewportStart - r.row], r.col, r.width, termWidth);
  }

  lemma CompositedMiddle(cells: seq<Cell>, base: Line, overlay: Line, startCol: nat, overlayWidth: nat, totalWidth: nat)
    requires Composited(cells, base, overlay, startCol, overlayWidth, totalWidth)
    ensures InColumns(cells, overlay, startCol, overlayWidth, totalWidth)
  {
    hide Left, Right, AllSpaces;
  }

  // Cutting a line to the width of the overlay does not change what is shown of it.
  lemma CutIsLeft(line: Line, cut: Line, width: nat)
    requires Width(cut) <= width && (0 < width ==> Cells(cut, PLAIN) == Cells(line, PLAIN)[..Fit(line, width)])
    ensures Left(cut, width) == Left(line, width)
  {
    hide Width, Cells, Fit;
    FitsWhole(cut, width);
    FitBound(line, width);
    FitBound(cut, width);
    assert Cells(cut, PLAIN)[..Width(cut)] == Cells(cut, PLAIN);
  }

  lemma CutLaid(line: Line, base: Line, cut: Line, r: Rendered, viewportStart: nat, i: int, termWidth: nat)
    requires Covers(r, viewportStart, i)
    requires Left(cut, r.width) == Left(r.lines[i - viewportStart - r.row], r.width)
    requires Composited(Cells(line, PLAIN), base, cut, r.col, r.width, termWidth)
    ensures Laid(line, base, r, viewportStart, i, termWidth)
  {
    hide Cells, Left, Right, AllSpaces;
  }

  // The first `k` lines of an overlay are painted.
  ghost predicate PaintedTo(result: seq<Line>, lines: seq<Line>, r: Rendered, viewportStart: nat, k: nat,
                            termWidth: nat) {
    var first := viewportStart + r.row;
    && |result| == |lines| && AllValid(result)
    && (forall i :: 0 <= i < |lines| && !(first <= i < first + k) ==> result[i] == lines[i])
    && (forall i :: 0 <= i < |lines| && first <= i < first + k ==>
          && Width(result[i]) <= termWidth
          && (r.col + r.width <= termWidth ==> Laid(result[i], lines[i], r, viewportStart, i, termWidth)))
  }

  lemma PaintedNone(lines: seq<Line>, r: Rendered, viewportStart: nat, termWidth: nat)
    requires AllValid(lines)
    ensures PaintedTo(lines, lines, r, viewportStart, 0, termWidth)
  {
  }

  lemma PaintedNext(result: seq<Line>, lines: seq<Line>, r: Rendered, viewportStart: nat, k: nat, termWidth: nat)
    requires PaintedTo(result, lines, r, viewportStart, k, termWidth)
    ensures var i := viewportStart + r.row + k;
            if i < |result| then i < |lines| && result[i] == lines[i] && ValidLine(result[i])
            else PaintedTo(result, lines, r, viewportStart, k + 1, termWidth)
  {
    hide ValidLine, Width, Laid;
    if viewportStart + r.row + k < |result| {
      assert result[viewportStart + r.row + k] in result;
    }
  }

  lemma PaintedOneMore(result: seq<Line>, lines: seq<Line>, r: Rendered, viewportStart: nat, k: nat, line: Line,
                       termWidth: nat)
    requires PaintedTo(result, lines, r, viewportStart, k, termWidth) && viewportStart + r.row + k < |result|
    requires ValidLine(line) && Width(line) <= termWidth
    requires var i := viewportStart + r.row + k;
             r.col + r.width <= termWidth ==> i < |lines| && Laid(line, lines[i], r, viewportStart, i, termWidth)
    ensures PaintedTo(result[viewportStart + r.row + k := line], lines, r, viewportStart, k + 1, termWidth)
  {
    hide ValidLine, Width, Laid;
  }

  lemma PaintedAll(result: seq<Line>, lines: seq<Line>, r: Rendered, viewportStart: nat, termWidth: nat)
    requires PaintedTo(result, lines, r, viewportStart, |r.lines|, termWidth)
    ensures |result| == |lines| && AllValid(result)
    ensures forall i :: 0 <= i < |lines| && !Covers(r, viewportStart, i) ==> result[i] == lines[i]
    ensures forall i :: 0 <= i < |lines| && Covers(r, viewportStart, i) ==>
              && Width(result[i]) <= termWidth
              && (r.col + r.width <= termWidth ==> Laid(result[i], lines[i], r, viewportStart, i, termWidth))
  {
    hide ValidLine, Width, Laid;
  }

  /** Line `k` of an overlay, cut to its width, composited into the line that is there. */
  method LayLine(base: Line, r: Rendered, k: nat, ghost viewportStart: nat, termWidth: nat, pooled: AnsiCodeTracker)
    returns (line: Line)
    requires k < |r.lines| && ValidLine(base) && ValidLine(r.lines[k])
    modifies pooled
    ensures ValidLine(line) && Width(line) <= termWidth
    ensures r.col + r.width <= termWidth ==> Laid(line, base, r, viewportStart, viewportStart + r.row + k, termWidth)
  {
    hide ValidLine, Width, Cells, Fit, Left, Composited, Laid;
    var overlayLine := r.lines[k];
    if Width(overlayLine) > r.width {
      overlayLine := Cut(overlayLine, r.width);
      CutIsLeft(r.lines[k], overlayLine, r.width);
    }
    line := CompositeLineAt(base, overlayLine, r.col, r.width, termWidth, pooled);
    if r.col + r.width <= termWidth {
      CutLaid(line, base, overlayLine, r, viewportStart, viewportStart + r.row + k, termWidth);
    }
  }

  method PaintOverlay(lines: seq<Line>, r: Rendered, viewportStart: nat, termWidth: nat, pooled: AnsiCodeTracker)
    returns (result: seq<Line>)
    requires AllValid(lines) && AllValid(r.lines)
    modifies pooled
    ensures |result| == |lines| && AllValid(result)
    ensures forall i :: 0 <= i < |lines| && !Covers(r, viewportStart, i) ==> result[i] == lines[i]
    ensures forall i :: 0 <= i < |lines| && Covers(r, viewportStart, i) ==>
              && Width(result[i]) <= termWidth
              && (r.col + r.width <= termWidth ==> Laid(result[i], lines[i], r, viewportStart, i, termWidth))
  {
    hide ValidLine, Width, Composited, Sliced, Laid, PaintedTo;
    result := lines;
    var k := 0;
    PaintedNone(lines, r, viewportStart, termWidth);
    while k < |r.lines|
      invariant 0 <= k <= |r.lines| && PaintedTo(result, lines, r, viewportStart, k, termWidth)
    {
      var idx := viewportStart + r.row + k;
      PaintedNext(result, lines, r, viewportStart, k, termWidth);
      if idx < |result| {
        assert r.lines[k] in r.lines;
        var line := LayLine(result[idx], r, k, viewportStart, termWidth, pooled);
        PaintedOneMore(result, lines, r, viewportStart, k, line, termWidth);
        result := result[idx := line];
      }
      k := k + 1;
    }
    PaintedAll(result, lines, r, viewportStart, termWidth);
  }

  /** The lines, followed by empty ones until they fill the screen and make room for every overlay. */
  method Extended(lines: seq<Line>, visible: seq<Entry>, termWidth: nat, termHeight: nat) returns (result: seq<Line>)
    requires AllValid(lines)
    ensures AllValid(result) && |result| >= |lines| && |result| >= termHeight
    ensures forall e :: e in visible ==>
              var r := RenderOverlay(e, termWidth, termHeight); r.row + |r.lines| <= |result|
    ensures forall i :: 0 <= i < |result| ==> result[i] == if i < |lines| then lines[i] else []
  {
    hide ValidLine, Width, RenderOverlay;
    var minLinesNeeded := |lines|;
    var n := 0;
    while n < |visible|
      invariant 0 <= n <= |visible| && minLinesNeeded >= |lines|
      invariant forall e :: e in visible[..n] ==>
                  var r := RenderOverlay(e, termWidth, termHeight); r.row + |r.lines| <= minLinesNeeded
    {
      var r := RenderOverlay(visible[n], termWidth, termHeight);
      minLinesNeeded := Max(minLinesNeeded, r.row + |r.lines|);
      n := n + 1;
    }
    assert visible[..n] == visible;
    result := lines;
    EmptyIsValid();
    while |result| < Max(termHeight, minLinesNeeded)
      invariant |lines| <= |result| <= Max(termHeight, minLinesNeeded) && AllValid(result)
      invariant forall i :: 0 <= i < |result| ==> result[i] == if i < |lines| then lines[i] else []
      decreases Max(termHeight, minLinesNeeded) - |result|
    {
      result := result + [[]];
    }
  }

  /** Overlay `m` is painted on row `i`. */
  predicate Covering(visible: seq<Entry>, m: int, termWidth: nat, termHeight: nat, viewportStart: nat, i: int) {
    0 <= m < |visible| && Covers(RenderOverlay(visible[m], termWidth, termHeight), viewportStart, i)
  }

  /** No overlay is painted on the row after overlay `m`. */
  predicate OnTop(visible: seq<Entry>, m: int, termWidth: nat, termHeight: nat, viewportStart: nat, i: int) {
    && Covering(visible, m, termWidth, termHeight, viewportStart, i)
    && forall j :: m < j < |visible| ==> !Covering(visible, j, termWidth, termHeight, viewportStart, i)
  }

  predicate Uncovered(visible: seq<Entry>, termWidth: nat, termHeight: nat, viewportStart: nat, i: int) {
    forall j :: 0 <= j < |visible| ==> !Covering(visible, j, termWidth, termHeight, viewportStart, i)
  }

  function LineOr(lines: seq<Line>, i: nat): Line { if i < |lines| then lines[i] else [] }

  /** What is shown on row `i`. A row that no overlay covers is that of the content. Otherwise the overlay
      painted last shows its line in its columns, whatever is below it; and where it is the only one, its
      line is composited into that of the content. */
  ghost predicate RowShown(line: Line, lines: seq<Line>, visible: seq<Entry>, termWidth: nat, termHeight: nat,
                           viewportStart: nat, i: nat) {
    && (Uncovered(visible, termWidth, termHeight, viewportStart, i) ==> line == LineOr(lines, i))
    && forall m ::
         OnTop(visible, m, termWidth, termHeight, viewportStart, i) && LeavesRoom(visible[m], termWidth) ==>
           var r := RenderOverlay(visible[m], termWidth, termHeight);
           && InFront(line, r, viewportStart, i, termWidth)
           && (Uncovered(visible[..m], termWidth, termHeight, viewportStart, i) ==>
                 Laid(line, LineOr(lines, i), r, viewportStart, i, termWidth))
  }

  lemma NothingPainted(line: Line, lines: seq<Line>, termWidth: nat, termHeight: nat, viewportStart: nat, i: nat)
    requires line == LineOr(lines, i)
    ensures RowShown(line, lines, [], termWidth, termHeight, viewportStart, i)
  {
  }

  lemma FirstOverlays(visible: seq<Entry>, e: Entry, termWidth: nat, termHeight: nat, viewportStart: nat, i: nat)
    ensures var more := visible + [e];
            && (forall j :: 0 <= j < |visible| ==>
                  (Covering(more, j, termWidth, termHeight, viewportStart, i)
                   <==> Covering(visible, j, termWidth, termHeight, viewportStart, i)))
            && (Covering(more, |visible|, termWidth, termHeight, viewportStart, i)
                <==> Covers(RenderOverlay(e, termWidth, termHeight), viewportStart, i))
  {
    hide Covers, RenderOverlay;
  }

  // A row that one more overlay does not cover is as before.
  lemma RowStays(line: Line, lines: seq<Line>, visible: seq<Entry>, e: Entry, termWidth: nat, termHeight: nat,
                 viewportStart: nat, i: nat)
    requires RowShown(line, lines, visible, termWidth, termHeight, viewportStart, i)
    requires !Covers(RenderOverlay(e, termWidth, termHeight), viewportStart, i)
    ensures RowShown(line, lines, visible + [e], termWidth, termHeight, viewportStart, i)
  {
    hide Covers, RenderOverlay, InFront, Laid, LeavesRoom, LineOr, Covering;
    var more := visible + [e];
    FirstOverlays(visible, e, termWidth, termHeight, viewportStart, i);
    forall m | OnTop(more, m, termWidth, termHeight, viewportStart, i)
      ensures 0 <= m < |visible| && more[m] == visible[m] && more[..m] == visible[..m]
              && OnTop(visible, m, termWidth, termHeight, viewportStart, i)
    {
      InRange(more, m, termWidth, termHeight, viewportStart, i);
    }
  }

  lemma InRange(visible: seq<Entry>, m: int, termWidth: nat, termHeight: nat, viewportStart: nat, i: nat)
    requires Covering(visible, m, termWidth, termHeight, viewportStart, i)
    ensures 0 <= m < |visible|
  {
  }

  // On a row that it covers the new overlay is on top.
  lemma RowPainted(base: Line, line: Line, lines: seq<Line>, visible: seq<Entry>, e: Entry, termWidth: nat,
                   termHeight: nat, viewportStart: nat, i: nat)
    requires RowShown(base, lines, visible, termWidth, termHeight, viewportStart, i)
    requires Covers(RenderOverlay(e, termWidth, termHeight), viewportStart, i)
    requires LeavesRoom(e, termWidth) ==>
               Laid(line, base, RenderOverlay(e, termWidth, termHeight), viewportStart, i, termWidth)
    ensures RowShown(line, lines, visible + [e], termWidth, termHeight, viewportStart, i)
  {
    hide Covers, RenderOverlay, InFront, Laid, LeavesRoom, LineOr, Covering;
    var more, n := visible + [e], |visible|;
    FirstOverlays(visible, e, termWidth, termHeight, viewportStart, i);
    assert more[n] == e && more[..n] == visible;
    if LeavesRoom(e, termWidth) {
      LaidIsInFront(line, base, RenderOverlay(e, termWidth, termHeight), viewportStart, i, termWidth);
    }
    forall m | OnTop(more, m, termWidth, termHeight, viewportStart, i) ensures m == n {
      InRange(more, m, termWidth, termHeight, viewportStart, i);
    }
  }

  /** A row that some overlay covers has one on top. */
  lemma SomeOnTop(visible: seq<Entry>, m: nat, termWidth: nat, termHeight: nat, viewportStart: nat, i: nat)
    returns (top: nat)
    requires Covering(visible, m, termWidth, termHeight, viewportStart, i)
    ensures OnTop(visible, top, termWidth, termHeight, viewportStart, i) && top < |visible|
    decreases |visible| - m
  {
    if j :| m < j < |visible| && Covering(visible, j, termWidth, termHeight, viewportStart, i) {
      top := SomeOnTop(visible, j, termWidth, termHeight, viewportStart, i);
    } else {
      top := m;
    }
  }

  ghost predicate AllRoomy(visible: seq<Entry>, termWidth: nat) {
    forall e :: e in visible ==> LeavesRoom(e, termWidth)
  }

  /** If every overlay leaves room, each row that one covers is exactly as wide as the terminal. */
  lemma CoveredIsFull(line: Line, lines: seq<Line>, visible: seq<Entry>, m: nat, termWidth: nat, termHeight: nat,
                      viewportStart: nat, i: nat)
    requires RowShown(line, lines, visible, termWidth, termHeight, viewportStart, i) && AllRoomy(visible, termWidth)
    requires Covering(visible, m, termWidth, termHeight, viewportStart, i)
    ensures Width(line) == termWidth
  {
    hide RenderOverlay, Laid, LeavesRoom, LineOr, Covering, Width, Cells;
    var top := SomeOnTop(visible, m, termWidth, termHeight, viewportStart, i);
    assert visible[top] in visible;
    assert |Cells(line, PLAIN)| == Width(line);
  }

  ghost predicate AllShown(result: seq<Line>, lines: seq<Line>, visible: seq<Entry>, termWidth: nat, termHeight: nat,
                           viewportStart: nat) {
    forall i :: 0 <= i < |result| ==> RowShown(result[i], lines, visible, termWidth, termHeight, viewportStart, i)
  }

  lemma ShownWithOneMore(before: seq<Line>, result: seq<Line>, lines: seq<Line>, visible: seq<Entry>, e: Entry,
                         termWidth: nat, termHeight: nat, viewportStart: nat)
    requires |before| == |result| && AllShown(before, lines, visible, termWidth, termHeight, viewportStart)
    requires var r := RenderOverlay(e, termWidth, termHeight);
             && (forall i :: 0 <= i < |result| && !Covers(r, viewportStart, i) ==> result[i] == before[i])
             && (LeavesRoom(e, termWidth) ==>
                   forall i :: 0 <= i < |result| && Covers(r, viewportStart, i) ==>
                     Laid(result[i], before[i], r, viewportStart, i, termWidth))
    ensures AllShown(result, lines, visible + [e], termWidth, termHeight, viewportStart)
  {
    hide Laid, Covers, RenderOverlay, LeavesRoom, RowShown;
    forall i | 0 <= i < |result|
      ensures RowShown(result[i], lines, visible + [e], termWidth, termHeight, viewportStart, i)
    {
      if Covers(RenderOverlay(e, termWidth, termHeight), viewportStart, i) {
        RowPainted(before[i], result[i], lines, visible, e, termWidth, termHeight, viewportStart, i);
      } else {
        RowStays(result[i], lines, visible, e, termWidth, termHeight, viewportStart, i);
      }
    }
  }

  lemma ShownAtFirst(result: seq<Line>, lines: seq<Line>, termWidth: nat, termHeight: nat, viewportStart: nat)
    requires forall i :: 0 <= i < |result| ==> result[i] == if i < |lines| then lines[i] else []
    ensures AllShown(result, lines, [], termWidth, termHeight, viewportStart)
  {
    hide RowShown;
    forall i | 0 <= i < |result| ensures RowShown(result[i], lines, [], termWidth, termHeight, viewportStart, i) {
      NothingPainted(result[i], lines, termWidth, termHeight, viewportStart, i);
    }
  }

  /** Paints the visible overlays, in this order, over the lines of the screen. */
  method CompositeOverlays(lines: seq<Line>, visible: seq<Entry>, termWidth: nat, termHeight: nat,
                           pooled: AnsiCodeTracker)
    returns (result: seq<Line>, ghost viewportStart: nat)
    requires AllValid(lines) && forall e :: e in visible ==> RendersValid(e)
    modifies pooled
    ensures |result| >= |lines| && |result| >= termHeight && viewportStart == |result| - termHeight
    ensures forall e :: e in visible ==>
              var r := RenderOverlay(e, termWidth, termHeight); r.row + |r.lines| <= |result|
    ensures (forall l :: l in lines ==> Width(l) <= termWidth) ==> forall l :: l in result ==> Width(l) <= termWidth
    ensures AllShown(result, lines, visible, termWidth, termHeight, viewportStart)
    ensures AllRoomy(visible, termWidth) ==>
              forall i, m :: 0 <= i < |result| && Covering(visible, m, termWidth, termHeight, viewportStart, i) ==>
                Width(result[i]) == termWidth
  {
    hide ValidLine, Width, RendersValid, RenderOverlay, LeavesRoom, Covers, Laid, AllShown;
    result := Extended(lines, visible, termWidth, termHeight);
    var start: nat := Max(0, |result| - termHeight);
    viewportStart := start;
    ghost var length := |result|;
    ghost var fits := forall l :: l in lines ==> Width(l) <= termWidth;
    NothingWide();
    assert fits ==> forall i :: 0 <= i < |result| ==> Width(result[i]) <= termWidth;
    ShownAtFirst(result, lines, termWidth, termHeight, start);
    var n := 0;
    assert visible[..0] == [];
    while n < |visible|
      invariant 0 <= n <= |visible| && |result| == length && AllValid(result)
      invariant fits ==> forall i :: 0 <= i < |result| ==> Width(result[i]) <= termWidth
      invariant AllShown(result, lines, visible[..n], termWidth, termHeight, start)
    {
      var e := visible[n];
      assert e in visible && visible[..n + 1] == visible[..n] + [e];
      var r := RenderOverlay(e, termWidth, termHeight);
      RoomForOverlay(e, termWidth, termHeight);
      ghost var before := result;
      result := PaintOverlay(result, r, start, termWidth, pooled);
      ShownWithOneMore(before, result, lines, visible[..n], e, termWidth, termHeight, start);
      n := n + 1;
    }
    assert visible[..n] == visible;
    AllFull(result, lines, visible, termWidth, termHeight, start);
  }

  lemma AllFull(result: seq<Line>, lines: seq<Line>, visible: seq<Entry>, termWidth: nat, termHeight: nat,
                viewportStart: nat)
    requires AllShown(result, lines, visible, termWidth, termHeight, viewportStart)
    ensures AllRoomy(visible, termWidth) ==>
              forall i, m :: 0 <= i < |result| && Covering(visible, m, termWidth, termHeight, viewportStart, i) ==>
                Width(result[i]) == termWidth
  {
    hide RowShown, Covering, Width, AllRoomy;
    if AllRoomy(visible, termWidth) {
      forall i, m | 0 <= i < |result| && Covering(visible, m, termWidth, termHeight, viewportStart, i)
        ensures Width(result[i]) == termWidth
      {
        InRange(visible, m, termWidth, termHeight, viewportStart, i);
        CoveredIsFull(result[i], lines, visible, m, termWidth, termHeight, viewportStart, i);
      }
    }
  }

  lemma RoomForOverlay(e: Entry, termWidth: nat, termHeight: nat)
    ensures var r := RenderOverlay(e, termWidth, termHeight);
            LeavesRoom(e, termWidth) ==> r.col + r.width <= termWidth
  {
    hide ResolveOverlayLayout;
    LayoutFits(e.options, |RenderOverlay(e, termWidth, termHeight).lines|, termWidth, termHeight);
  }

  lemma EmptyIsValid()
    ensures ValidLine([])
  {
  }

  method Cut(line: Line, width: nat) returns (text: Line)
    requires ValidLine(line)
    ensures ValidLine(text) && Width(text) <= width
    ensures 0 < width ==> Cells(text, PLAIN) == Cells(line, PLAIN)[..Fit(line, width)]
  {
    hide ValidLine, Width, Cells, Fit, Sliced, StylesKept;
    var shown, _ := SliceWithWidth(line, 0, width, true);
    text := shown;
    if 0 < width {
      FromLeftEdge(line, width, text);
    }
    FitBound(line, width);
    NothingWide();
  }
}
