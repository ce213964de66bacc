/** Lines as graphemes of given widths and escape codes, and the columns they fill. */
module Columns {
  import opened Options
  import opened AnsiStyles
  import opened AnsiProofs

  datatype Item = Code(code: string) | Glyph(text: string, columns: nat)

  type Line = seq<Item>

  /** A column of a shown line: part `part` of a grapheme, in a style. */
  datatype Cell = Cell(text: string, part: nat, style: Style)

  function ItemWidth(item: Item): nat { if item.Glyph? then item.columns else 0 }

  function Width(line: Line): nat {
    if line == [] then 0 else Width(line[..|line| - 1]) + ItemWidth(line[|line| - 1])
  }

  function Step(s: Style, item: Item): Style { if item.Code? then Process(s, item.code) else s }

  /** The style after a line. */
  function After(line: Line, s: Style): Style {
    if line == [] then s else Step(After(line[..|line| - 1], s), line[|line| - 1])
  }

  function GlyphCells(item: Item, s: Style): (cells: seq<Cell>)
    ensures |cells| == ItemWidth(item)
  {
    if item.Glyph? then seq(item.columns, k requires 0 <= k < item.columns => Cell(item.text, k, s)) else []
  }

  /** What a line shows, column by column, when it starts in style `s`. */
  function Cells(line: Line, s: Style): (cells: seq<Cell>)
    ensures |cells| == Width(line)
  {
    if line == [] then []
    else
      var front := line[..|line| - 1];
      Cells(front, s) + GlyphCells(line[|line| - 1], After(front, s))
  }

  /** The columns of the leading graphemes that end within `n` columns. */
  function Fit(line: Line, n: int): (f: nat)
    ensures f <= Width(line) && (f <= n || f == 0)
  {
    if line == [] then 0
    else
      var front, last := line[..|line| - 1], line[|line| - 1];
      var f := Fit(front, n);
      if f == Width(front) && f + ItemWidth(last) <= n then f + ItemWidth(last) else f
  }

  /** The first column, not before `n`, at which a grapheme may begin; the width if there is none. */
  function Reach(line: Line, n: int): (r: nat)
    ensures r <= Width(line) && (r >= n || r == Width(line))
  {
    if line == [] then 0
    else
      var front := line[..|line| - 1];
      if Width(front) >= n then Reach(front, n) else Width(line)
  }

  predicate ValidLine(line: Line) {
    forall item :: item in line && item.Code? ==> IsCode(item.code)
  }

  // ---------- One more item ----------

  lemma OneMore(line: Line, item: Item, s: Style)
    ensures Width(line + [item]) == Width(line) + ItemWidth(item)
    ensures After(line + [item], s) == Step(After(line, s), item)
    ensures Cells(line + [item], s) == Cells(line, s) + GlyphCells(item, After(line, s))
  {
    assert (line + [item])[..|line|] == line;
  }

  lemma OneMoreFits(line: Line, item: Item, n: int)
    ensures Fit(line + [item], n)
         == if Fit(line, n) == Width(line) && Width(line) + ItemWidth(item) <= n then Width(line) + ItemWidth(item)
            else Fit(line, n)
    ensures Reach(line + [item], n) == if Width(line) >= n then Reach(line, n) else Width(line) + ItemWidth(item)
  {
    assert (line + [item])[..|line|] == line;
  }

  lemma {:induction false} Concat(a: Line, b: Line, s: Style)
    ensures Width(a + b) == Width(a) + Width(b)
    ensures After(a + b, s) == After(b, After(a, s))
    ensures Cells(a + b, s) == Cells(a, s) + Cells(b, After(a, s))
    decreases |b|
  {
    hide GlyphCells, Step, ItemWidth;
    if b == [] {
      assert a + b == a && Cells(a, s) + [] == Cells(a, s);
      assert Cells(b, After(a, s)) == [];
    } else {
      var front, last := b[..|b| - 1], b[|b| - 1];
      Concat(a, front, s);
      assert a + b == (a + front) + [last];
      OneMore(a + front, last, s);
      var middle, end := Cells(front, After(a, s)), GlyphCells(last, After(front, After(a, s)));
      assert Cells(a, s) + (middle + end) == Cells(a, s) + middle + end;
    }
  }

  /** A prefix of a line shows a prefix of its cells. */
  lemma PrefixShows(line: Line, i: nat, s: Style)
    requires i <= |line|
    ensures Width(line[..i]) <= Width(line) && Cells(line[..i], s) == Cells(line, s)[..Width(line[..i])]
  {
    Concat(line[..i], line[i..], s);
    assert line[..i] + line[i..] == line;
  }

  /** Once `n` columns are reached, what follows changes neither what fits into them nor where they are reached. */
  lemma {:induction false} Settled(line: Line, i: nat, n: int)
    requires i <= |line| && Width(line[..i]) >= n
    ensures Fit(line, n) == Fit(line[..i], n)
    ensures Reach(line, n) == Reach(line[..i], n)
    decreases |line|
  {
    if i < |line| {
      var front := line[..|line| - 1];
      assert front[..i] == line[..i];
      Settled(front, i, n);
      PrefixWidth(front, i);
      assert line == front + [line[|line| - 1]];
      OneMoreFits(front, line[|line| - 1], n);
    } else {
      assert line[..i] == line;
    }
  }

  lemma PrefixWidth(line: Line, i: nat)
    requires i <= |line|
    ensures Width(line[..i]) <= Width(line)
  {
    PrefixShows(line, i, PLAIN);
  }

  lemma {:induction false} FitsWhole(line: Line, n: int)
    ensures Width(line) <= n ==> Fit(line, n) == Width(line)
    ensures Fit(line, n) == Width(line) > 0 ==> Width(line) <= n
    decreases |line|
  {
    if line != [] {
      FitsWhole(line[..|line| - 1], n);
    }
  }

  lemma {:induction false} FitIsMonotone(line: Line, m: int, n: int)
    requires m <= n
    ensures Fit(line, m) <= Fit(line, n)
    decreases |line|
  {
    if line != [] {
      FitIsMonotone(line[..|line| - 1], m, n);
    }
  }

  // ---------- Spaces and resets ----------

  function Spaces(n: int): (line: Line) {
    if n <= 0 then [] else seq(n, k => Glyph(" ", 1))
  }

  predicate AllSpaces(cells: seq<Cell>) { forall c :: c in cells ==> c.text == " " }

  lemma {:induction false} SpacesShow(n: nat, s: Style)
    ensures Width(Spaces(n)) == n && After(Spaces(n), s) == s && AllSpaces(Cells(Spaces(n), s))
  {
    if n > 0 {
      SpacesShow(n - 1, s);
      assert Spaces(n) == Spaces(n - 1) + [Glyph(" ", 1)];
      OneMore(Spaces(n - 1), Glyph(" ", 1), s);
    }
  }

  /** ESC [ 0 m and the end of a hyperlink. */
  const SEGMENT_RESET := [Code(SgrCode(["0"])), Code(FormatOsc8Close([Text.BEL]))]

  lemma ResetResets(s: Style)
    ensures After(SEGMENT_RESET, s) == PLAIN && Width(SEGMENT_RESET) == 0 && Cells(SEGMENT_RESET, s) == []
    ensures ValidLine(SEGMENT_RESET)
  {
    hide Process, IsCode, ParseOsc8Hyperlink, SgrCode, FormatOsc8Close;
    var sgr, close := Code(SgrCode(["0"])), Code(FormatOsc8Close([Text.BEL]));
    assert SEGMENT_RESET == [] + [sgr] + [close];
    OneMore([], sgr, s);
    OneMore([] + [sgr], close, s);
    ZeroCode(s);
    CloseIsCode([Text.BEL]);
    CloseProcesses(PLAIN.(activeHyperlink := s.activeHyperlink), [Text.BEL]);
  }

  lemma ZeroCode(s: Style)
    ensures IsCode(SgrCode(["0"])) && Process(s, SgrCode(["0"])) == PLAIN.(activeHyperlink := s.activeHyperlink)
  {
    hide IsSgr, Process, IsCode, Apply, SgrCode;
    ParseZero();
    OneParameter(s, "0", 0);
    SgrCodeWorks(s, ["0"]);
    ZeroStandard(s);
  }

  lemma ParseZero()
    ensures ParseInt("0") == Some(0)
  {
    SmallDecimal(0);
    assert Decimal(0) == "0";
  }

  lemma ZeroStandard(s: Style)
    ensures Standard(s, Some(0)) == PLAIN.(activeHyperlink := s.activeHyperlink)
  {
  }

  lemma CloseProcesses(s: Style, terminator: string)
    requires ParseOsc8Hyperlink(FormatOsc8Close(terminator)) == Close
    ensures Process(s, FormatOsc8Close(terminator)) == s.(activeHyperlink := None)
  {
    hide ParseOsc8Hyperlink;
  }

  // ---------- Active codes as items ----------

  function ActiveItems(s: Style): Line {
    (if Codes(s) != [] then [Code(SgrCode(Codes(s)))] else [])
    + (if s.activeHyperlink.Some? then [Code(FormatOsc8Hyperlink(s.activeHyperlink.value))] else [])
  }

  function TextOf(line: Line): string {
    if line == [] then ""
    else TextOf(line[..|line| - 1]) + (if line[|line| - 1].Code? then line[|line| - 1].code else line[|line| - 1].text)
  }

  lemma ActiveItemsAreActiveCodes(s: Style)
    ensures TextOf(ActiveItems(s)) == ActiveCodes(s)
  {
    hide Codes, SgrCode, FormatOsc8Hyperlink;
    var items := ActiveItems(s);
    if |items| == 2 {
      assert items[..1][..0] == [];
      assert TextOf(items[..1]) == "" + items[0].code == items[0].code;
    } else if |items| == 1 {
      assert items[..0] == [] && "" + items[0].code == items[0].code;
    }
  }

  /** The items that stand for the active codes bring a plain style to this one. */
  lemma ActiveItemsRestore(s: Style)
    requires Reachable(s)
    ensures After(ActiveItems(s), PLAIN) == s && Width(ActiveItems(s)) == 0 && Cells(ActiveItems(s), PLAIN) == []
  {
    hide Codes, SgrCode, FormatOsc8Hyperlink, Process, IsCode, ApplyAll, IsSgr, IsColor, ParseOsc8Hyperlink;
    CodesRestore(s);
    var first := if Codes(s) != [] then [Code(SgrCode(Codes(s)))] else [];
    assert first == [] || first == [] + [Code(SgrCode(Codes(s)))];
    if Codes(s) != [] {
      EachIsSgr(Codes(s));
      SgrCodeWorks(PLAIN, Codes(s));
      OneMore([], Code(SgrCode(Codes(s))), PLAIN);
    } else {
      OneCode(PLAIN, "");
    }
    if s.activeHyperlink.Some? {
      var link := FormatOsc8Hyperlink(s.activeHyperlink.value);
      OneMore(first, Code(link), PLAIN);
      OpenProcesses(s.(activeHyperlink := None), s.activeHyperlink.value);
    } else {
      assert first + [] == first;
    }
  }

  lemma OpenProcesses(s: Style, link: Hyperlink)
    requires IsLink(link)
    ensures Process(s, FormatOsc8Hyperlink(link)) == s.(activeHyperlink := Some(link))
  {
    hide ParseOsc8Hyperlink, FormatOsc8Hyperlink, IsCode;
  }

  lemma {:induction false} AfterReachable(line: Line, s: Style)
    requires ValidLine(line) && Reachable(s)
    ensures Reachable(After(line, s))
    decreases |line|
  {
    hide Reachable, Process, IsCode;
    if line != [] {
      var front, last := line[..|line| - 1], line[|line| - 1];
      AfterReachable(front, s);
      assert last in line;
      if last.Code? {
        ProcessReachable(After(front, s), last.code);
      }
    }
  }

  lemma ActiveItemsAreValid(s: Style)
    requires Reachable(s)
    ensures ValidLine(ActiveItems(s))
  {
    hide Codes, SgrCode, FormatOsc8Hyperlink, IsCode, IsSgr, ApplyAll, IsColor, ParseOsc8Hyperlink, Process;
    CodesRestore(s);
    if Codes(s) != [] {
      EachIsSgr(Codes(s));
      SgrCodeWorks(PLAIN, Codes(s));
    }
  }

  lemma ValidConcat(a: Line, b: Line)
    ensures ValidLine(a) && ValidLine(b) ==> ValidLine(a + b)
  {
  }

  lemma SpacesAreValid(n: int)
    ensures ValidLine(Spaces(n))
  {
  }
}
