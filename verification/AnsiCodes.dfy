/** The table of graphic rendition parameters: what each sets and what it clears, seen in the text. */
module AnsiCodes {
  import opened Options
  import opened Text
  import opened AnsiStyles
  import opened AnsiProofs

  datatype Feature =
    | Bold | Dim | Italic | Underline | Blink | Inverse | Hidden | Strikethrough | Foreground | Background

  predicate Has(s: Style, f: Feature) {
    match f
    case Bold => s.look.bold
    case Dim => s.look.dim
    case Italic => s.look.italic
    case Underline => s.look.underline
    case Blink => s.look.blink
    case Inverse => s.look.inverse
    case Hidden => s.look.hidden
    case Strikethrough => s.look.strikethrough
    case Foreground => s.fgColor.Some?
    case Background => s.bgColor.Some?
  }

  function SetBy(n: nat): set<Feature> {
    match n
    case 1 => {Bold}
    case 2 => {Dim}
    case 3 => {Italic}
    case 4 => {Underline}
    case 5 => {Blink}
    case 7 => {Inverse}
    case 8 => {Hidden}
    case 9 => {Strikethrough}
    case _ =>
      if 30 <= n < 38 || 90 <= n < 98 then {Foreground}
      else if 40 <= n < 48 || 100 <= n < 108 then {Background}
      else {}
  }

  function ClearedBy(n: nat): set<Feature> {
    match n
    case 0 => {Bold, Dim, Italic, Underline, Blink, Inverse, Hidden, Strikethrough, Foreground, Background}
    case 21 => {Bold}
    case 22 => {Bold, Dim}
    case 23 => {Italic}
    case 24 => {Underline}
    case 25 => {Blink}
    case 27 => {Inverse}
    case 28 => {Hidden}
    case 29 => {Strikethrough}
    case 39 => {Foreground}
    case 49 => {Background}
    case _ => {}
  }

  lemma StandardMeans(s: Style, n: nat, f: Feature)
    ensures Has(Standard(s, Some(n)), f) <==> f in SetBy(n) || (Has(s, f) && f !in ClearedBy(n))
    ensures Standard(s, Some(n)).activeHyperlink == s.activeHyperlink
  {
    hide Decimal;
    match f
    case Bold => assert Has(Standard(s, Some(n)), f) <==> n == 1 || (s.look.bold && n != 0 && n != 21 && n != 22);
    case Dim => assert Has(Standard(s, Some(n)), f) <==> n == 2 || (s.look.dim && n != 0 && n != 22);
    case _ =>
  }

  /** A code with one parameter sets and clears exactly what the table says. */
  lemma ParameterMeans(s: Style, code: string, n: nat, f: Feature)
    requires ParseInt(code) == Some(n) && n != 38 && n != 48
    ensures var t := Track(s, CSI + code + "m");
            && (Has(t, f) <==> f in SetBy(n) || (Has(s, f) && f !in ClearedBy(n)))
            && t.activeHyperlink == s.activeHyperlink
            && (t.fgColor.Some? && Foreground in SetBy(n) ==> ParseInt(t.fgColor.value) == Some(n))
            && (t.bgColor.Some? && Background in SetBy(n) ==> ParseInt(t.bgColor.value) == Some(n))
            && (Foreground !in SetBy(n) + ClearedBy(n) ==> t.fgColor == s.fgColor)
            && (Background !in SetBy(n) + ClearedBy(n) ==> t.bgColor == s.bgColor)
  {
    hide Has, Process, IsCode, Decimal, LookAfter, ApplyAll, IsSgr, Track, ParseInt;
    OneParameter(s, code, n);
    SgrCodeWorks(s, [code]);
    assert SgrCode([code]) == CSI + code + "m";
    TrackCode(s, SgrCode([code]), "");
    TrackNothing(Process(s, SgrCode([code])), "");
    assert SgrCode([code]) + "" == SgrCode([code]);
    StandardMeans(s, n, f);
    if 30 <= n <= 107 {
      DecimalParses(n);
    }
  }

  /** A palette index or three components are one colour, foreground after 38 and background after 48. */
  lemma ColorMeans(s: Style, c: string, base: nat)
    requires IsColor(c, base) && (base == 38 || base == 48)
    ensures Track(s, CSI + c + "m") == if base == 38 then s.(fgColor := Some(c)) else s.(bgColor := Some(c))
  {
    hide Process, IsCode, IsColor, Decimal, ApplyAll, Track, ParseInt, Whole;
    ColorApplies(s, c, base);
    ColorIsSgr(c, base);
    OneCode(s, c);
    SgrCodeWorks(s, [c]);
    assert SgrCode([c]) == CSI + c + "m";
    TrackCode(s, SgrCode([c]), "");
    TrackNothing(Process(s, SgrCode([c])), "");
    assert SgrCode([c]) + "" == SgrCode([c]);
  }

  lemma ColorIsSgr(c: string, base: nat)
    requires IsColor(c, base) && Whole(SplitOn(c, ';'))
    ensures IsSgr([c])
  {
    hide Whole, SplitOn;
  }
}
