/** Slices of a line by columns: what they show, and when their styles are those of the line. */
module Slices {
  import opened Basics
  import opened Options
  import opened AnsiStyles
  import opened AnsiProofs
  import opened Columns

  function ShownItem(item: Item): (shown: seq<(string, nat)>)
    ensures |shown| == ItemWidth(item)
  {
    if item.Glyph? then seq(item.columns, k requires 0 <= k < item.columns => (item.text, k)) else []
  }

  /** What a line shows, without its styles. */
  function Shown(line: Line): (shown: seq<(string, nat)>)
    ensures |shown| == Width(line)
  {
    if line == [] then [] else Shown(line[..|line| - 1]) + ShownItem(line[|line| - 1])
  }

  function Part<T>(s: seq<T>, a: int, b: int): seq<T>
    requires 0 <= a && b <= |s|
  {
    if a <= b then s[a..b] else []
  }

  lemma {:induction false} ShownWithStyles(line: Line, s: Style)
    ensures forall k :: 0 <= k < Width(line) ==> Shown(line)[k] == (Cells(line, s)[k].text, Cells(line, s)[k].part)
    decreases |line|
  {
    if line != [] {
      ShownWithStyles(line[..|line| - 1], s);
    }
  }

  lemma OneMoreShown(line: Line, item: Item)
    ensures Shown(line + [item]) == Shown(line) + ShownItem(item)
  {
    assert (line + [item])[..|line|] == line;
  }

  lemma {:induction false} PrefixShown(line: Line, i: nat)
    requires i <= |line|
    ensures Width(line[..i]) <= Width(line) && Shown(line[..i]) == Shown(line)[..Width(line[..i])]
    decreases |line|
  {
    hide ShownItem;
    if i < |line| {
      var front := line[..|line| - 1];
      assert front[..i] == line[..i];
      PrefixShown(front, i);
    } else {
      assert line[..i] == line;
    }
  }

  /** The column up to which graphemes belong to a slice: with `strict`, of those that end within `end`
      columns, and otherwise of those that begin before it. */
  function Stop(line: Line, end: int, strict: bool): (n: nat)
    ensures n <= Width(line)
  {
    if strict then Fit(line, end) else Reach(line, end)
  }

  lemma StopMore(front: Line, item: Item, end: int, strict: bool)
    requires Width(front) < end
    ensures Stop(front, end, strict) == Width(front)
    ensures Stop(front + [item], end, strict)
         == if !strict || Width(front) + ItemWidth(item) <= end then Width(front) + ItemWidth(item) else Width(front)
  {
    hide Width, Fit, Reach;
    OneMoreFits(front, item, end);
    FitsWhole(front, end);
    ReachWithin(front, end);
  }

  /** `text` is what of `front` lies between two columns. */
  predicate Sliced(front: Line, start: int, end: int, strict: bool, text: Line) {
    Shown(text) == Part(Shown(front), Reach(front, start), Stop(front, end, strict))
  }

  lemma SliceStep(front: Line, item: Item, start: int, end: int, strict: bool, text: Line, longer: Line)
    requires 0 <= start && Width(front) < end && Sliced(front, start, end, strict, text)
    requires Shown(longer)
             == Shown(text) + (if start <= Width(front) && (!strict || Width(front) + ItemWidth(item) <= end)
                               then ShownItem(item) else [])
    ensures Sliced(front + [item], start, end, strict, longer)
  {
    hide Width, Fit, Reach, Shown, ShownItem, Part, Stop;
    OneMore(front, item, PLAIN);
    OneMoreFits(front, item, start);
    OneMoreShown(front, item);
    StopMore(front, item, end, strict);
    ReachWithin(front, start);
    var more, g := front + [item], ShownItem(item);
    if start <= Width(front) {
      PartExtends(Shown(front), g, Reach(front, start));
      assert Stop(more, end, strict) == |Shown(front)| || Stop(more, end, strict) == |Shown(front) + g|;
    } else {
      PartEmpty(Shown(front), |Shown(front)|);
      PartEmpty(Shown(more), Stop(more, end, strict));
    }
  }

  lemma PartExtends<T>(s: seq<T>, g: seq<T>, a: nat)
    requires a <= |s|
    ensures Part(s + g, a, |s|) == Part(s, a, |s|) && Part(s + g, a, |s + g|) == Part(s, a, |s|) + g
    ensures Part(s, a, |s|) + [] == Part(s, a, |s|)
  {
  }

  lemma PartEmpty<T>(s: seq<T>, b: nat)
    requires b <= |s|
    ensures Part(s, |s|, b) == [] && [] + [] == Part(s, |s|, b)
  {
  }

  lemma ReachWithin(line: Line, n: int)
    ensures Reach(line, n) <= Width(line)
  {
  }

  lemma SliceDone(line: Line, i: nat, start: int, end: int, strict: bool, text: Line)
    requires i <= |line| && start <= end && (i == |line| || Width(line[..i]) >= end)
             && Sliced(line[..i], start, end, strict, text)
    ensures Sliced(line, start, end, strict, text)
  {
    hide Width, Fit, Reach, Shown;
    if i < |line| {
      Settled(line, i, start);
      Settled(line, i, end);
      PrefixShown(line, i);
    } else {
      assert line[..i] == line;
    }
  }

  predicate OnlyCodes(line: Line) { forall item :: item in line ==> item.Code? }

  lemma {:induction false} CodesShowNothing(text: Line, codes: Line)
    requires OnlyCodes(codes)
    ensures Shown(text + codes) == Shown(text) && Width(text + codes) == Width(text)
    decreases |codes|
  {
    if codes == [] {
      assert text + codes == text;
    } else {
      var k := |codes| - 1;
      assert codes[k] in codes && text + codes == (text + codes[..k]) + [codes[k]];
      CodesShowNothing(text, codes[..k]);
      OneMoreShown(text + codes[..k], codes[k]);
      OneMore(text + codes[..k], codes[k], PLAIN);
    }
  }

  /** The index from which on the line is at or past a column. */
  function Lead(line: Line, start: int): (k: nat)
    ensures k <= |line|
  {
    if line == [] then 0
    else
      var front := line[..|line| - 1];
      if Width(front) >= start then Lead(front, start) else |line|
  }

  /** The index of the first grapheme that begins at or past a column; the length if there is none. */
  function Opening(line: Line, start: int): (m: nat)
    ensures Lead(line, start) <= m <= |line| && (m < |line| ==> line[m].Glyph?)
  {
    if line == [] then 0
    else
      var front := line[..|line| - 1];
      var m := Opening(front, start);
      if m < |front| then m
      else if Width(front) >= start && line[|line| - 1].Glyph? then |front|
      else |line|
  }

  function CodesOf(line: Line): (codes: Line)
    ensures OnlyCodes(codes)
  {
    if line == [] then []
    else
      var last := line[|line| - 1];
      CodesOf(line[..|line| - 1]) + if last.Code? then [last] else []
  }

  /** The codes at the head of a slice: those right before its first grapheme, and only then those of
      the part that is skipped. */
  function Head(line: Line, start: int): Line {
    var k, m := Lead(line, start), Opening(line, start);
    line[k..m] + CodesOf(line[..k])
  }

  /** The index of the first grapheme at or past a column that fills a column itself. */
  function Filling(line: Line, start: int): (w: nat)
    ensures Opening(line, start) <= w <= |line| && (w < |line| ==> line[w].Glyph? && 0 < line[w].columns)
  {
    if line == [] then 0
    else
      var front, last := line[..|line| - 1], line[|line| - 1];
      var w := Filling(front, start);
      if w < |front| then w
      else if Width(front) >= start && 0 < ItemWidth(last) then |front|
      else |line|
  }

  /** The order of the codes in the head makes no difference to the style of the first column: in the slice
      it is the one after the head and the graphemes without a width that follow, in the line the one that
      is reached there. */
  ghost predicate InStep(line: Line, start: int) {
    var m, w := Opening(line, start), Filling(line, start);
    After(Head(line, start) + line[m..w], PLAIN) == After(line[..w], PLAIN)
  }

  lemma OneMoreOpens(front: Line, item: Item, start: int)
    ensures Lead(front + [item], start) == if Width(front) >= start then Lead(front, start) else |front| + 1
    ensures Opening(front + [item], start)
         == if Opening(front, start) < |front| then Opening(front, start)
            else if Width(front) >= start && item.Glyph? then |front| else |front| + 1
    ensures Filling(front + [item], start)
         == if Filling(front, start) < |front| then Filling(front, start)
            else if Width(front) >= start && 0 < ItemWidth(item) then |front| else |front| + 1
    ensures CodesOf(front + [item]) == CodesOf(front) + if item.Code? then [item] else []
  {
    assert (front + [item])[..|front|] == front;
  }

  /** Before the first grapheme of the slice there are only codes. */
  lemma {:induction false} LeadCodes(front: Line, start: int)
    ensures Opening(front, start) == |front| ==> OnlyCodes(front[Lead(front, start)..])
    decreases |front|
  {
    hide Width, After, Cells, GlyphCells, Step;
    if front != [] {
      var less, last := front[..|front| - 1], front[|front| - 1];
      assert front == less + [last];
      LeadCodes(less, start);
      OneMoreOpens(less, last, start);
      var k := Lead(less, start);
      assert front[k..] == less[k..] + [last] && front[|front|..] == [];
    }
  }

  /** They fill no column. */
  lemma {:induction false} BeforeOpening(front: Line, start: int)
    requires 0 <= start
    ensures Opening(front, start) == |front| ==> OnlyCodes(front[Lead(front, start)..])
    ensures Opening(front, start) == |front| && Width(front) >= start ==> Reach(front, start) == Width(front)
    ensures Width(front) < start ==> Lead(front, start) == Opening(front, start) == |front|
    ensures Opening(front, start) < |front| ==> Width(front[..Opening(front, start)]) >= start
    decreases |front|
  {
    hide Reach, Width, After, Cells, GlyphCells, Step, OnlyCodes;
    NothingWide();
    LeadCodes(front, start);
    if front == [] {
      assert Reach([], start) == 0 by { ReachWithin([], start); }
    } else {
      var less, last := front[..|front| - 1], front[|front| - 1];
      assert front == less + [last] && front[..|less|] == less;
      BeforeOpening(less, start);
      OneMoreOpens(less, last, start);
      OneMoreFits(less, last, start);
      OneMore(less, last, PLAIN);
      if Opening(less, start) < |less| {
        assert front[..Opening(less, start)] == less[..Opening(less, start)];
      }
    }
  }

  /** What a slice shows with its styles. */
  ghost predicate SlicedWithStyles(line: Line, start: int, end: int, strict: bool, text: Line) {
    Cells(text, PLAIN) == Part(Cells(line, PLAIN), Reach(line, start), Stop(line, end, strict))
  }

  // The slice so far and the codes that still wait for its first grapheme.
  ghost predicate Styling(front: Line, start: int, end: int, strict: bool, text: Line, pending: Line) {
    var k, m := Lead(front, start), Opening(front, start);
    if m == |front| then text == front[k..] && pending == CodesOf(front[..k])
    else
      && pending == [] && text == Head(front, start) + front[m..]
      && Width(front[..m]) < end && Stop(front, end, strict) == Width(front)
  }

  lemma NothingSliced(start: int, end: int, strict: bool)
    requires 0 < end && 0 <= start
    ensures Sliced([], start, end, strict, []) && Styling([], start, end, strict, [], [])
  {
  }

  lemma StylingStep(front: Line, item: Item, start: int, end: int, strict: bool, text: Line, pending: Line,
                    longer: Line, later: Line)
    requires 0 <= start && Width(front) < end && Styling(front, start, end, strict, text, pending)
    requires start <= Width(front) && item.Code? ==> longer == text + [item] && later == pending
    requires start <= Width(front) && item.Glyph? ==>
               && (!strict || Width(front) + item.columns <= end)
               && longer == text + pending + [item] && later == []
    requires Width(front) < start ==> longer == text && later == pending + if item.Code? then [item] else []
    ensures Styling(front + [item], start, end, strict, longer, later)
  {
    hide Width, Fit, After, Reach, Styling, Opening, Stop;
    if Opening(front, start) < |front| {
      if Width(front) < start {
        ShortOpens(front, start);
      }
      StylingInside(front, item, start, end, strict, text, pending);
    } else if start <= Width(front) && item.Glyph? {
      StylingOpens(front, item, start, end, strict, text, pending);
    } else {
      StylingWaits(front, item, start, end, strict, text, pending);
    }
    StylingText(front, start, end, strict, text, pending);
  }

  lemma StylingText(front: Line, start: int, end: int, strict: bool, text: Line, pending: Line)
    requires Styling(front, start, end, strict, text, pending)
    ensures Opening(front, start) < |front| ==> text + pending == text
  {
    hide Head, Opening, Lead, Stop;
  }

  lemma StylingInside(front: Line, item: Item, start: int, end: int, strict: bool, text: Line, pending: Line)
    requires 0 <= start <= Width(front) < end && (!strict || Width(front) + ItemWidth(item) <= end)
    requires Opening(front, start) < |front| && Styling(front, start, end, strict, text, pending)
    ensures Styling(front + [item], start, end, strict, text + [item], [])
  {
    hide Width, Fit, After, Reach, Opening, Lead, Head, Stop;
    var more, m := front + [item], Opening(front, start);
    assert more[..|front|] == front && more[m..] == front[m..] + [item];
    SameHead(more, |front|, start);
    OneMore(front, item, PLAIN);
    StopMore(front, item, end, strict);
    assert Head(front, start) + front[m..] + [item] == Head(front, start) + (front[m..] + [item]);
  }

  lemma StylingWaits(front: Line, item: Item, start: int, end: int, strict: bool, text: Line, pending: Line)
    requires 0 <= start && Opening(front, start) == |front| && Styling(front, start, end, strict, text, pending)
    requires item.Code? || Width(front) < start
    ensures if start <= Width(front) then Styling(front + [item], start, end, strict, text + [item], pending)
            else Styling(front + [item], start, end, strict, text, pending + if item.Code? then [item] else [])
  {
    hide Width, Fit, After, Reach, Opening, Lead, CodesOf, Stop;
    var more, k := front + [item], Lead(front, start);
    BeforeOpening(front, start);
    OneMoreOpens(front, item, start);
    assert more[k..] == front[k..] + [item] && more[..k] == front[..k] && more[|more|..] == [];
    if Width(front) < start {
      assert front[..|front|] == front && more[..|more|] == more;
    }
  }

  // The first grapheme of the slice: what waits is placed before it, behind the codes next to it.
  lemma StylingOpens(front: Line, item: Item, start: int, end: int, strict: bool, text: Line, pending: Line)
    requires 0 <= start <= Width(front) < end && item.Glyph? && (!strict || Width(front) + item.columns <= end)
    requires Opening(front, start) == |front| && Styling(front, start, end, strict, text, pending)
    ensures Styling(front + [item], start, end, strict, text + pending + [item], [])
  {
    hide Width, Fit, After, Reach, Opening, Lead, Stop;
    var more, k := front + [item], Lead(front, start);
    OneMoreOpens(front, item, start);
    OneMore(front, item, PLAIN);
    StopMore(front, item, end, strict);
    assert more[..|front|] == front && more[k..|front|] == front[k..] && more[..k] == front[..k];
    assert Head(more, start) == text + pending && more[|front|..] == [item];
  }

  // A longer line opens its slices where a shorter one does, if that one does at all, and with the same head.
  lemma SameHead(line: Line, i: nat, start: int)
    requires i <= |line| && Opening(line[..i], start) < i
    ensures var m := Opening(line[..i], start);
            Opening(line, start) == m && line[m] == line[..i][m] && line[..m] == line[..i][..m]
    ensures Head(line, start) == Head(line[..i], start)
  {
    hide Width, After, Opening, CodesOf;
    OpeningStays(line, i, start);
    var m, k := Opening(line[..i], start), Lead(line[..i], start);
    assert line[k..m] == line[..i][k..m] && line[..k] == line[..i][..k] && line[..m] == line[..i][..m];
  }

  lemma SameStep(line: Line, i: nat, start: int)
    requires i <= |line| && Filling(line[..i], start) < i
    ensures var w := Filling(line[..i], start);
            Filling(line, start) == w && line[w] == line[..i][w] && line[..w] == line[..i][..w]
    ensures InStep(line, start) == InStep(line[..i], start)
  {
    hide Width, After, Opening, Filling, Head;
    OpeningStays(line, i, start);
    SameHead(line, i, start);
    var m, w := Opening(line[..i], start), Filling(line[..i], start);
    assert line[m..w] == line[..i][m..w] && line[..w] == line[..i][..w];
  }

  lemma {:induction false} ShortOpens(front: Line, start: int)
    requires Width(front) < start
    ensures Opening(front, start) == |front|
    decreases |front|
  {
    hide Width, After, Cells, GlyphCells, Step;
    if front != [] {
      var less, last := front[..|front| - 1], front[|front| - 1];
      OneMore(less, last, PLAIN);
      OneMoreOpens(less, last, start);
      assert less + [last] == front;
      ShortOpens(less, start);
    }
  }

  lemma CodesShowNoCells(codes: Line)
    requires OnlyCodes(codes)
    ensures Cells(codes, PLAIN) == []
  {
    assert forall j :: 0 <= j < |codes| ==> codes[j] in codes;
    NoWidthNoCells(codes, PLAIN);
  }

  /** The styles of a slice that shows anything are those of the line exactly if its head is in step. A slice
      that shows nothing cannot be wrong. */
  ghost predicate StylesKept(line: Line, start: int, end: int, strict: bool, text: Line) {
    var w := Filling(line, start);
    if w < |line| && Width(line[..w]) + (if strict then line[w].columns else 1) <= end
    then SlicedWithStyles(line, start, end, strict, text) <==> InStep(line, start)
    else SlicedWithStyles(line, start, end, strict, text)
  }

  lemma StylingShows(front: Line, start: int, end: int, strict: bool, text: Line, pending: Line)
    requires 0 <= start <= end && Styling(front, start, end, strict, text, pending)
    ensures StylesKept(front, start, end, strict, text)
  {
    hide Width, Fit, Cells, After, Reach, Opening, Lead, Filling, Stop, Head;
    if Opening(front, start) == |front| {
      BeforeOpening(front, start);
      CodesShowNoCells(text);
      ReachWithin(front, start);
      NothingBeyond(front, start, end, strict);
    } else {
      StylingMeans(front, start, end, strict, text);
      FillingFits(front, start, end, strict);
    }
  }

  // From the first grapheme on the slice shows the items of the line, in the style after its head.
  lemma StylingMeans(front: Line, start: int, end: int, strict: bool, text: Line)
    requires 0 <= start && Opening(front, start) < |front| && Stop(front, end, strict) == Width(front)
    requires text == Head(front, start) + front[Opening(front, start)..]
    ensures SlicedWithStyles(front, start, end, strict, text)
            <==> (Filling(front, start) == |front| || InStep(front, start))
  {
    hide Width, Fit, Cells, After, Reach, Opening, Lead, Filling, Stop, Head;
    var m, w := Opening(front, start), Filling(front, start);
    var head, rest := Head(front, start), front[m..];
    var s, r := After(head, PLAIN), After(front[..m], PLAIN);
    HeadIsCodes(front, start);
    CodesShowNoCells(head);
    Concat(head, rest, PLAIN);
    Concat(front[..m], rest, PLAIN);
    assert front[..m] + rest == front;
    ReachAtOpening(front, start);
    assert Cells(text, PLAIN) == [] + Cells(rest, s) == Cells(rest, s);
    assert Part(Cells(front, PLAIN), Width(front[..m]), Width(front)) == Cells(rest, r);
    NoWidthBetween(front, start);
    CellsAgree(rest, w - m, s, r);
    assert rest[..w - m] == front[m..w] && front[..m] + front[m..w] == front[..w];
    Concat(head, front[m..w], PLAIN);
    Concat(front[..m], front[m..w], PLAIN);
  }

  /** In two styles a line shows the same exactly if the style at its first column is the same. */
  lemma CellsAgree(line: Line, z: nat, s: Style, r: Style)
    requires z <= |line| && (forall j :: 0 <= j < z ==> ItemWidth(line[j]) == 0)
    requires z < |line| ==> 0 < ItemWidth(line[z])
    ensures Cells(line, s) == Cells(line, r) <==> (z == |line| || After(line[..z], s) == After(line[..z], r))
  {
    hide Width, Cells, After;
    var front, rest := line[..z], line[z..];
    assert front + rest == line;
    NoWidthNoCells(front, s);
    NoWidthNoCells(front, r);
    Concat(front, rest, s);
    Concat(front, rest, r);
    assert Cells(line, s) == Cells(rest, After(front, s)) && Cells(line, r) == Cells(rest, After(front, r));
    if z == |line| {
      NoCellsAtAll(After(front, s));
      NoCellsAtAll(After(front, r));
    } else {
      FirstStyle(rest, After(front, s));
      FirstStyle(rest, After(front, r));
    }
  }

  lemma NoCellsAtAll(s: Style)
    ensures Cells([], s) == []
  {
  }

  lemma {:induction false} NoWidthNoCells(line: Line, s: Style)
    requires forall j :: 0 <= j < |line| ==> ItemWidth(line[j]) == 0
    ensures Cells(line, s) == []
    decreases |line|
  {
    if line != [] {
      NoWidthNoCells(line[..|line| - 1], s);
    }
  }

  lemma FirstStyle(line: Line, s: Style)
    requires line != [] && 0 < ItemWidth(line[0])
    ensures Cells(line, s) != [] && Cells(line, s)[0].style == s
  {
    hide Width, Cells;
    var first, rest := [line[0]], line[1..];
    assert first + rest == line && [] + first == first;
    Concat(first, rest, s);
    NoCellsAtAll(s);
    OneMore([], line[0], s);
    NothingAfter(s);
  }

  lemma NothingAfter(s: Style)
    ensures After([], s) == s
  {
  }

  lemma {:induction false} NoWidthBetween(line: Line, start: int)
    ensures forall j :: Opening(line, start) <= j < Filling(line, start) ==> ItemWidth(line[j]) == 0
    decreases |line|
  {
    hide Width;
    if line != [] {
      var front := line[..|line| - 1];
      NoWidthBetween(front, start);
      OneMoreOpens(front, line[|line| - 1], start);
      assert front + [line[|line| - 1]] == line;
    }
  }

  // All of the line is in the slice from its first grapheme on, so its first column is.
  lemma FillingFits(front: Line, start: int, end: int, strict: bool)
    requires Opening(front, start) < |front| && Width(front[..Opening(front, start)]) < end
    requires Stop(front, end, strict) == Width(front)
    ensures var w := Filling(front, start);
            w < |front| ==> Width(front[..w]) + (if strict then front[w].columns else 1) <= end
  {
    hide Width, Fit, Cells, After, Reach, Opening, Filling;
    var m, w := Opening(front, start), Filling(front, start);
    if w < |front| {
      NoWidthBetween(front, start);
      NoWidthNoCells(front[m..w], PLAIN);
      Concat(front[..m], front[m..w], PLAIN);
      assert front[..m] + front[m..w] == front[..w] && front[..w] + [front[w]] == front[..w + 1];
      OneMore(front[..w], front[w], PLAIN);
      PrefixWidth(front, w + 1);
      FitsWhole(front, end);
    }
  }

  lemma NothingBeyond(front: Line, start: int, end: int, strict: bool)
    requires Reach(front, start) == Width(front)
    ensures Part(Cells(front, PLAIN), Reach(front, start), Stop(front, end, strict)) == []
  {
    hide Stop;
  }

  lemma HeadIsCodes(front: Line, start: int)
    requires 0 <= start && Opening(front, start) < |front|
    ensures OnlyCodes(Head(front, start))
  {
    hide Width, Opening, Lead, Filling;
    var m := Opening(front, start);
    OpeningStays(front, m, start);
    BeforeOpening(front, start);
    LeadCodes(front[..m], start);
    assert front[..m][Lead(front, start)..] == front[Lead(front, start)..m];
  }

  lemma ReachAtOpening(front: Line, start: int)
    requires 0 <= start && Opening(front, start) < |front|
    ensures Reach(front, start) == Width(front[..Opening(front, start)])
  {
    hide Width, Reach;
    var m := Opening(front, start);
    OpeningStays(front, m, start);
    BeforeOpening(front[..m], start);
    BeforeOpening(front, start);
    Settled(front, m, start);
  }

  /** A longer line opens its slices where a shorter one does, if that one does at all. */
  lemma {:induction false} OpeningStays(line: Line, i: nat, start: int)
    requires i <= |line|
    ensures Opening(line[..i], start) < i ==>
              Opening(line, start) == Opening(line[..i], start) && Lead(line, start) == Lead(line[..i], start)
    ensures Opening(line[..i], start) == i ==> Opening(line, start) >= i
    ensures i <= Opening(line, start) && Width(line[..i]) >= start ==> Lead(line, start) == Lead(line[..i], start)
    ensures if Filling(line[..i], start) < i then Filling(line, start) == Filling(line[..i], start)
            else Filling(line, start) >= i
    decreases |line|
  {
    hide Width;
    if i < |line| {
      var front := line[..|line| - 1];
      assert front[..i] == line[..i] && line == front + [line[|line| - 1]];
      OpeningStays(front, i, start);
      PrefixWidth(front, i);
      OneMoreOpens(front, line[|line| - 1], start);
    } else {
      assert line[..i] == line;
    }
  }

  // A grapheme that does not fit ends the slice.
  lemma StylingCut(front: Line, item: Item, start: int, end: int, text: Line, pending: Line)
    requires 0 <= start <= Width(front) < end && item.Glyph? && Width(front) + item.columns > end
    requires Styling(front, start, end, true, text, pending)
    ensures StylesKept(front + [item], start, end, true, text)
  {
    hide Width, Fit, Cells, After, Reach, InStep, Filling, Styling;
    var more := front + [item];
    StylingShows(front, start, end, true, text, pending);
    OneMore(front, item, PLAIN);
    OneMoreOpens(front, item, start);
    OneMoreFits(front, item, start);
    StopMore(front, item, end, true);
    assert more[..|front|] == front;
    assert Cells(front, PLAIN) == Cells(more, PLAIN)[..Width(front)];
    if Filling(front, start) < |front| {
      SameStep(more, |front|, start);
    }
  }

  lemma SameSlice(line: Line, i: nat, start: int, end: int, strict: bool, text: Line)
    requires i <= |line| && 0 <= start <= end <= Width(line[..i])
    ensures SlicedWithStyles(line, start, end, strict, text) == SlicedWithStyles(line[..i], start, end, strict, text)
  {
    hide Width, Fit, Cells, Reach, Part;
    Settled(line, i, start);
    Settled(line, i, end);
    PrefixShows(line, i, PLAIN);
    var front := line[..i];
    assert Stop(line, end, strict) == Stop(front, end, strict) <= Width(front);
    PartOfPrefix(Cells(line, PLAIN), Width(front), Reach(front, start), Stop(front, end, strict));
  }

  lemma PartOfPrefix<T>(s: seq<T>, n: nat, a: nat, b: nat)
    requires b <= n <= |s|
    ensures Part(s[..n], a, b) == Part(s, a, b)
  {
  }

  lemma StylingDone(line: Line, i: nat, start: int, end: int, strict: bool, text: Line)
    requires i <= |line| && 0 <= start <= end && (i == |line| || Width(line[..i]) >= end)
    requires StylesKept(line[..i], start, end, strict, text)
    ensures StylesKept(line, start, end, strict, text)
  {
    hide Width, InStep, Filling, SlicedWithStyles;
    if i < |line| {
      var front := line[..i];
      SameSlice(line, i, start, end, strict, text);
      OpeningStays(line, i, start);
      if Filling(front, start) < i {
        SameStep(line, i, start);
      } else if Filling(line, start) < |line| {
        PrefixWidth(line[..Filling(line, start)], i);
        assert line[..Filling(line, start)][..i] == front;
      }
    } else {
      assert line[..i] == line;
    }
  }

  /** The part of a line between two columns. With `strict`, a grapheme that would extend past the end is
      left out; otherwise it belongs to the slice. */
  method SliceWithWidth(line: Line, startCol: int, length: int, strict: bool) returns (text: Line, width: nat)
    ensures length <= 0 ==> text == []
    ensures width == Width(text) && (ValidLine(line) ==> ValidLine(text))
    ensures 0 <= startCol && 0 < length ==>
              && Sliced(line, startCol, startCol + length, strict, text)
              && StylesKept(line, startCol, startCol + length, strict, text)
  {
    hide Width, Cells, After, Fit, Reach, Shown, ShownItem, Sliced, Styling, StylesKept, IsCode;
    NothingWide();
    if length <= 0 {
      return [], 0;
    }
    var endCol := startCol + length;
    text, width := [], 0;
    var currentCol := 0;
    var pendingAnsi: Line := [];
    var i := 0;
    ghost var exact := 0 <= startCol;
    assert line[..0] == [];
    if startCol >= 0 { NothingSliced(startCol, endCol, strict); }
    while i < |line|
      invariant 0 <= i <= |line| && currentCol == Width(line[..i]) && width == Width(text)
      invariant 0 <= startCol ==> currentCol < endCol
      invariant OnlyCodes(pendingAnsi)
      invariant ValidLine(line) ==> ValidLine(text) && ValidLine(pendingAnsi)
      invariant exact ==>
                  && Sliced(line[..i], startCol, endCol, strict, text)
                  && Styling(line[..i], startCol, endCol, strict, text, pendingAnsi)
    {
      assert line[..i + 1] == line[..i] + [line[i]];
      ghost var before, waiting := text, pendingAnsi;
      OneMore(line[..i], line[i], PLAIN);
      if line[i].Code? {
        if startCol <= currentCol < endCol {
          text := text + [line[i]];
        } else if currentCol < startCol {
          pendingAnsi := pendingAnsi + [line[i]];
        }
        CodesShowNothing(before, [line[i]]);
      } else {
        var w := line[i].columns;
        var inRange := startCol <= currentCol < endCol;
        var fits := !strict || currentCol + w <= endCol;
        if inRange && fits {
          if pendingAnsi != [] {
            CodesShowNothing(text, pendingAnsi);
            text := text + pendingAnsi;
            pendingAnsi := [];
          }
          OneMore(text, line[i], PLAIN);
          OneMoreShown(text, line[i]);
          text := text + [line[i]];
          width := width + w;
        }
        currentCol := currentCol + w;
      }
      NothingAdded(before, line[i]);
      ghost var cut := strict && line[i].Glyph? && startCol <= Width(line[..i]) && currentCol > endCol;
      if exact {
        SliceStep(line[..i], line[i], startCol, endCol, strict, before, text);
        if cut {
          StylingCut(line[..i], line[i], startCol, endCol, before, waiting);
        } else {
          StylingStep(line[..i], line[i], startCol, endCol, strict, before, waiting, text, pendingAnsi);
        }
      }
      i := i + 1;
      if line[i - 1].Glyph? && currentCol >= endCol {
        if exact && !cut { StylingShows(line[..i], startCol, endCol, strict, text, pendingAnsi); }
        if exact {
          SliceDone(line, i, startCol, endCol, strict, text);
          StylingDone(line, i, startCol, endCol, strict, text);
        }
        return;
      }
    }
    if exact {
      SliceDone(line, i, startCol, endCol, strict, text);
      StylingShows(line[..i], startCol, endCol, strict, text, pendingAnsi);
      StylingDone(line, i, startCol, endCol, strict, text);
    }
  }

  /** A slice from the left edge has no head to fall out of step. */
  lemma FromLeftEdge(line: Line, end: int, text: Line)
    requires StylesKept(line, 0, end, true, text)
    ensures Cells(text, PLAIN) == Cells(line, PLAIN)[..Fit(line, end)]
  {
    hide Width, Cells, After, Fit, Reach, Opening, Filling, Lead;
    LeadsAtOnce(line);
    assert InStep(line, 0) by {
      var m, w := Opening(line, 0), Filling(line, 0);
      assert line[..0] == [] && CodesOf([]) == [];
      assert line[0..m] + CodesOf(line[..0]) + line[m..w] == line[..w];
    }
  }

  lemma {:induction false} LeadsAtOnce(line: Line)
    ensures Lead(line, 0) == 0 && Reach(line, 0) == 0
    decreases |line|
  {
    if line != [] {
      LeadsAtOnce(line[..|line| - 1]);
    }
  }

  const RED_THEN_PLAIN: Line := [Code(SgrCode(["31"])), Glyph("a", 1), Code(SgrCode(["0"])), Glyph("b", 1)]

  /** Sliced from its second column, a line that shows a red letter and then a plain one shows the second
      one red: the code that ends the red stands before the code that starts it. */
  method SliceOutOfStep() returns (text: Line)
    ensures Width(text) == 1 && Width(RED_THEN_PLAIN) == 2
    ensures Cells(text, PLAIN) != Cells(RED_THEN_PLAIN, PLAIN)[1..]
  {
    hide Fit, Reach, Cells, After, Width, ShownItem, Shown;
    var width;
    OutOfStep();
    text, width := SliceWithWidth(RED_THEN_PLAIN, 1, 1, true);
    assert !SlicedWithStyles(RED_THEN_PLAIN, 1, 2, true, text);
  }

  lemma OutOfStep()
    ensures Width(RED_THEN_PLAIN) == 2 && Reach(RED_THEN_PLAIN, 1) == 1 && Fit(RED_THEN_PLAIN, 2) == 2
    ensures Filling(RED_THEN_PLAIN, 1) == 3 && Width(RED_THEN_PLAIN[..3]) == 1 && !InStep(RED_THEN_PLAIN, 1)
  {
    hide Process, SgrCode, Fit, Reach, Width, InStep, Filling;
    SecondLetter(Code(SgrCode(["31"])), Glyph("a", 1), Code(SgrCode(["0"])), Glyph("b", 1));
    ZeroCode(PLAIN);
    RedCode();
    ZeroCode(PLAIN.(fgColor := Some("31")));
  }

  // Two letters of one column, each behind a code: the slice of the second one takes the codes in reverse.
  lemma SecondLetter(red: Item, a: Item, zero: Item, b: Item)
    requires red.Code? && zero.Code? && ItemWidth(a) == 1 && ItemWidth(b) == 1
    ensures var line := [red, a, zero, b];
            && Width(line) == 2 && Reach(line, 1) == 1 && Fit(line, 2) == 2
            && Filling(line, 1) == 3 && Width(line[..3]) == 1
            && (InStep(line, 1) <==> Step(Step(PLAIN, zero), red) == Step(Step(PLAIN, red), zero))
  {
    hide Fit, Reach, Width, After, Opening, Filling, Lead, CodesOf, Step;
    var one, two, three := [] + [red], [] + [red] + [a], [] + [red] + [a] + [zero];
    Item([], red);
    Item(one, a);
    Item(two, zero);
    Item(three, b);
    Nothing();
    FourItems(red, a, zero, b);
    OneMore([], zero, PLAIN);
    OneMore([] + [zero], red, PLAIN);
    GlyphKeepsStyle(one, a);
    assert Head([red, a, zero, b], 1) + [] == [] + [zero] + [red];
  }

  lemma GlyphKeepsStyle(front: Line, item: Item)
    requires item.Glyph?
    ensures After(front + [item], PLAIN) == After(front, PLAIN)
  {
    OneMore(front, item, PLAIN);
  }

  lemma FourItems(a: Item, b: Item, c: Item, d: Item)
    ensures var line := [a, b, c, d];
            && line == [] + [a] + [b] + [c] + [d] && line[..3] == [] + [a] + [b] + [c]
            && line[..2] == [] + [a] + [b] && line[2..3] == [] + [c] && line[3..3] == []
  {
  }

  lemma Item(front: Line, item: Item)
    ensures Width(front + [item]) == Width(front) + ItemWidth(item)
    ensures After(front + [item], PLAIN) == Step(After(front, PLAIN), item)
    ensures Reach(front + [item], 1) == if Width(front) >= 1 then Reach(front, 1) else Width(front) + ItemWidth(item)
    ensures Fit(front + [item], 2)
         == if Fit(front, 2) == Width(front) && Width(front) + ItemWidth(item) <= 2 then Width(front) + ItemWidth(item)
            else Fit(front, 2)
    ensures Lead(front + [item], 1) == if Width(front) >= 1 then Lead(front, 1) else |front| + 1
    ensures Opening(front + [item], 1)
         == if Opening(front, 1) < |front| then Opening(front, 1)
            else if Width(front) >= 1 && item.Glyph? then |front| else |front| + 1
    ensures Filling(front + [item], 1)
         == if Filling(front, 1) < |front| then Filling(front, 1)
            else if Width(front) >= 1 && 0 < ItemWidth(item) then |front| else |front| + 1
    ensures CodesOf(front + [item]) == CodesOf(front) + if item.Code? then [item] else []
  {
    OneMore(front, item, PLAIN);
    OneMoreFits(front, item, 1);
    OneMoreFits(front, item, 2);
    OneMoreOpens(front, item, 1);
  }

  lemma Nothing()
    ensures Width([]) == 0 && After([], PLAIN) == PLAIN && Reach([], 1) == 0 && Fit([], 2) == 0
    ensures Lead([], 1) == 0 && Opening([], 1) == 0 && Filling([], 1) == 0 && CodesOf([]) == []
  {
  }

  lemma RedCode()
    ensures Process(PLAIN, SgrCode(["31"])) == PLAIN.(fgColor := Some("31"))
  {
    hide IsSgr, Process, IsCode, Apply, SgrCode;
    DecimalParses(31);
    assert Decimal(31) == Decimal(3) + "1" == "31";
    OneParameter(PLAIN, "31", 31);
    SgrCodeWorks(PLAIN, ["31"]);
  }

  lemma NothingWide()
    ensures Width([]) == 0
  {
  }

  lemma NothingAdded(text: Line, item: Item)
    ensures Shown(text) + [] == Shown(text)
            && (item.Code? ==> ShownItem(item) == [] && Shown(text) + ShownItem(item) == Shown(text))
  {
  }
}
