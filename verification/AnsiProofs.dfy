/** A style prints and reads back: its active codes stand for any text that led to it. */
module AnsiProofs {
  import opened Options
  import opened Text
  import opened AnsiStyles

  // ---------- Finding codes ----------

  lemma {:induction false} CsiEndStays(s: string, j: nat, u: string)
    requires j <= |s| && CsiEnd(s, j) > 0
    ensures CsiEnd(s + u, j) == CsiEnd(s, j)
    decreases |s| - j
  {
    assert (s + u)[j] == s[j];
    if !(s[j] in {'m', 'G', 'K', 'H', 'J'}) {
      CsiEndStays(s, j + 1, u);
    }
  }

  lemma {:induction false} StringEndStays(s: string, j: nat, u: string)
    requires j <= |s| && StringEnd(s, j) > 0
    ensures StringEnd(s + u, j) == StringEnd(s, j)
    decreases |s| - j
  {
    assert (s + u)[j] == s[j];
    assert j + 1 < |s| ==> (s + u)[j + 1] == s[j + 1];
    if s[j] != BEL && !(s[j] == ESC && j + 1 < |s| && s[j + 1] == '\\') {
      StringEndStays(s, j + 1, u);
    }
  }

  /** What follows a code does not change where it ends. */
  lemma CodeStays(code: string, u: string)
    requires IsCode(code)
    ensures CodeLength(code + u) == |code| && (code + u)[..|code|] == code && (code + u)[|code|..] == u
  {
    hide CsiEnd, StringEnd;
    assert (code + u)[..|code|] == code && (code + u)[|code|..] == u;
    if CSI <= code {
      CsiEndStays(code, 2, u);
    } else {
      StringEndStays(code, 2, u);
    }
  }

  lemma {:induction false} CsiEndAlone(s: string, j: nat, n: nat)
    requires j <= n <= |s| && CsiEnd(s, j) == n > 0
    ensures CsiEnd(s[..n], j) == n
    decreases |s| - j
  {
    if !(s[j] in {'m', 'G', 'K', 'H', 'J'}) {
      CsiEndAlone(s, j + 1, n);
    }
  }

  lemma {:induction false} StringEndAlone(s: string, j: nat, n: nat)
    requires j <= n <= |s| && StringEnd(s, j) == n > 0
    ensures StringEnd(s[..n], j) == n
    decreases |s| - j
  {
    if s[j] != BEL && !(s[j] == ESC && j + 1 < |s| && s[j + 1] == '\\') {
      StringEndAlone(s, j + 1, n);
    }
  }

  lemma CodeAlone(text: string)
    requires CodeLength(text) > 0
    ensures IsCode(text[..CodeLength(text)])
  {
    hide CsiEnd, StringEnd;
    var n := CodeLength(text);
    if CSI <= text {
      CsiEndAlone(text, 2, n);
    } else {
      StringEndAlone(text, 2, n);
    }
  }

  /** A code is processed, then what follows it. */
  lemma TrackCode(s: Style, code: string, u: string)
    requires IsCode(code)
    ensures Track(s, code + u) == Track(Process(s, code), u)
  {
    hide CodeLength, Process;
    CodeStays(code, u);
    assert code + u != "";
  }

  lemma TrackNothing(s: Style, u: string)
    ensures Track(s, "" + u) == Track(s, u) && Track(s, "") == s
  {
    assert "" + u == u;
  }

  // ---------- Graphic rendition ----------

  /** Parameters that are taken together, whatever follows them. */
  predicate Whole(parts: seq<string>) {
    && parts != [] && Taken(parts) == |parts|
    && (|parts| == 1 ==> ParseInt(parts[0]) != Some(38) && ParseInt(parts[0]) != Some(48))
  }

  lemma WholeFirst(s: Style, parts: seq<string>, rest: seq<string>)
    requires Whole(parts)
    ensures Apply(s, parts + rest) == Apply(Apply(s, parts), rest)
  {
    hide Standard, ParseInt, Join;
    var all := parts + rest;
    assert all[0] == parts[0] && (|parts| > 1 ==> all[1] == parts[1]);
    assert Taken(all) == |parts| && all[..|parts|] == parts && all[|parts|..] == rest;
    assert parts[..|parts|] == parts && parts[|parts|..] == [];
    assert Apply(ApplyFirst(s, parts), []) == ApplyFirst(s, parts);
  }

  /** What a tracker stores as a colour: `base` is 38 or 48. */
  ghost predicate IsColor(c: string, base: nat) {
    var parts := SplitOn(c, ';');
    && (forall k :: 0 <= k < |c| ==> ParameterChar(c[k])) && c != ""
    && (if |parts| == 1 then exists n: nat :: IsBaseColor(n, base) && c == Decimal(n)
        else ParseInt(parts[0]) == Some(base) && Taken(parts) == |parts|)
  }

  predicate IsBaseColor(n: nat, base: nat) { if base == 38 then IsForeground(n) else IsBackground(n) }

  lemma DecimalParses(n: nat)
    requires 30 <= n <= 107
    ensures SplitOn(Decimal(n), ';') == [Decimal(n)] && ParseInt(Decimal(n)) == Some(n)
    ensures Decimal(n) != "" && forall k :: 0 <= k < |Decimal(n)| ==> ParameterChar(Decimal(n)[k])
  {
    hide DigitChar, Number, SplitOn;
    SmallDecimal(n / 10);
    OneMoreDigit(n);
    SplitOne(Decimal(n), ';');
  }

  lemma OneMoreDigit(n: nat)
    requires 10 <= n < 1000 && Digits(Decimal(n / 10)) && Number(Decimal(n / 10)) == n / 10
    ensures Digits(Decimal(n)) && Number(Decimal(n)) == n
  {
    hide DigitChar;
    var d := Decimal(n);
    assert d == Decimal(n / 10) + [DigitChar(n % 10)];
    assert d[..|d| - 1] == Decimal(n / 10) && d[|d| - 1] == DigitChar(n % 10);
  }

  lemma SmallDecimal(n: nat)
    requires n < 100
    ensures Digits(Decimal(n)) && Number(Decimal(n)) == n
  {
    if n >= 10 {
      OneDigit(n / 10);
      OneMoreDigit(n);
    } else {
      OneDigit(n);
    }
  }

  lemma OneDigit(n: nat)
    requires n < 10
    ensures Decimal(n) == [DigitChar(n)] && Digits(Decimal(n)) && Number(Decimal(n)) == n
  {
    hide DigitChar;
    assert [DigitChar(n)][..0] == "";
  }

  lemma ColorApplies(s: Style, c: string, base: nat)
    requires IsColor(c, base) && (base == 38 || base == 48)
    ensures Whole(SplitOn(c, ';')) && Apply(s, SplitOn(c, ';')) == SetColor(s, base, c)
  {
    hide Number, Join, SplitOn, Decimal;
    var parts := SplitOn(c, ';');
    JoinOfSplit(c, ';');
    if |parts| == 1 {
      var n: nat :| IsBaseColor(n, base) && c == Decimal(n);
      DecimalParses(n);
    } else {
      assert parts[..|parts|] == parts && parts[|parts|..] == [];
    }
    assert Apply(s, parts) == Apply(ApplyFirst(s, parts), parts[Taken(parts)..]);
  }

  lemma FlagApplies(s: Style, code: string, n: nat)
    requires |code| == 1 && Digit(code[0]) && n == code[0] as nat - '0' as nat
    ensures Whole(SplitOn(code, ';')) && Apply(s, SplitOn(code, ';')) == Standard(s, Some(n))
  {
    hide Standard;
    SplitOne(code, ';');
    assert Number(code[..0]) == 0;
    assert ParseInt(code) == Some(n);
    assert Apply(Standard(s, Some(n)), [code][1..]) == Standard(s, Some(n));
  }

  function ApplyAll(s: Style, codes: seq<string>): Style
    decreases |codes|
  {
    if codes == [] then s else ApplyAll(Apply(s, SplitOn(codes[0], ';')), codes[1..])
  }

  lemma {:induction false} ApplyAllConcat(s: Style, a: seq<string>, b: seq<string>)
    ensures ApplyAll(s, a + b) == ApplyAll(ApplyAll(s, a), b)
    decreases |a|
  {
    hide Apply, SplitOn;
    if a == [] {
      assert a + b == b;
    } else {
      assert (a + b)[0] == a[0] && (a + b)[1..] == a[1..] + b;
      ApplyAllConcat(Apply(s, SplitOn(a[0], ';')), a[1..], b);
    }
  }

  /** Codes joined by semicolons do what they do one by one. */
  lemma {:induction false} JoinedApply(s: Style, codes: seq<string>)
    requires codes != [] && forall c :: c in codes ==> Whole(SplitOn(c, ';'))
    ensures Apply(s, SplitOn(Join(codes, ";"), ';')) == ApplyAll(s, codes)
    decreases |codes|
  {
    hide Apply, SplitOn, Whole;
    assert codes[0] in codes;
    if |codes| == 1 {
      assert ApplyAll(Apply(s, SplitOn(codes[0], ';')), codes[1..]) == Apply(s, SplitOn(codes[0], ';'));
    } else {
      var rest := Join(codes[1..], ";");
      assert forall c :: c in codes[1..] ==> c in codes;
      JoinedApply(Apply(s, SplitOn(codes[0], ';')), codes[1..]);
      SplitTwo(codes[0], ';', rest);
      WholeFirst(s, SplitOn(codes[0], ';'), SplitOn(rest, ';'));
    }
  }

  // ---------- Styles that a tracker can reach ----------

  predicate IsLink(link: Hyperlink) {
    && (link.terminator == [BEL] || link.terminator == TERMINATOR)
    && IsCode(FormatOsc8Hyperlink(link)) && ParseOsc8Hyperlink(FormatOsc8Hyperlink(link)) == Open(link)
  }

  ghost predicate Reachable(s: Style) {
    && (s.fgColor.Some? ==> IsColor(s.fgColor.value, 38))
    && (s.bgColor.Some? ==> IsColor(s.bgColor.value, 48))
    && (s.activeHyperlink.Some? ==> IsLink(s.activeHyperlink.value))
  }

  lemma {:induction false} StringEndsRight(s: string, j: nat)
    requires j <= |s| && StringEnd(s, j) == |s| && j < |s|
    ensures EndsWith(s, [BEL]) || EndsWith(s, TERMINATOR)
    decreases |s| - j
  {
    if s[j] != BEL && !(s[j] == ESC && j + 1 < |s| && s[j + 1] == '\\') {
      StringEndsRight(s, j + 1);
    }
  }

  lemma LinkCodeEnds(code: string)
    requires IsCode(code) && OSC8 <= code
    ensures EndsWith(code, [BEL]) || EndsWith(code, TERMINATOR)
  {
    hide StringEnd;
    assert code[1] == OSC8[1] == ']' && code[0] == OSC8[0] == ESC;
    assert OSC <= code && !(CSI <= code);
    StringEndsRight(code, 2);
  }

  /** A hyperlink code prints as it was read. */
  lemma FormatOfParse(code: string)
    requires IsCode(code) && ParseOsc8Hyperlink(code).Open?
    ensures FormatOsc8Hyperlink(ParseOsc8Hyperlink(code).link) == code
  {
    hide IsCode, IndexOf;
    LinkCodeEnds(code);
    var terminator := if EndsWith(code, [BEL]) then [BEL] else TERMINATOR;
    var body := code[4..|code| - |terminator|];
    CodeParts(code, terminator);
    BodyParts(body);
    var k := IndexOf(body, ";");
    Regroup(OSC8, body[..k], body[k + 1..], terminator);
  }

  lemma CodeParts(code: string, terminator: string)
    requires OSC8 <= code && EndsWith(code, terminator) && |code| - |terminator| >= 4
    ensures code == OSC8 + code[4..|code| - |terminator|] + terminator
  {
  }

  lemma Regroup(a: string, b: string, c: string, d: string)
    ensures a + b + ";" + c + d == a + (b + ";" + c) + d
  {
  }

  lemma BodyParts(body: string)
    ensures var k := IndexOf(body, ";"); k != -1 ==> body == body[..k] + ";" + body[k + 1..]
  {
    var k := IndexOf(body, ";");
    if k != -1 {
      assert body[k..k + 1] == ";";
    }
  }

  predicate IsPart(p: string) { Digits(p) && ';' !in p }

  lemma ApplyFirstReachable(s: Style, parts: seq<string>)
    requires parts != [] && (forall p :: p in parts ==> IsPart(p)) && Reachable(s)
    ensures Reachable(ApplyFirst(s, parts))
  {
    hide IsLink, Number, SplitOn, Join, Decimal, IsColor, Standard, IsPart;
    var code := ParseInt(parts[0]);
    if Taken(parts) > 1 {
      ColorStored(parts[..Taken(parts)], code.value);
    } else {
      StandardReachable(s, code);
    }
  }

  lemma StandardReachable(s: Style, code: Option<nat>)
    requires Reachable(s)
    ensures Reachable(Standard(s, code))
  {
    hide IsLink, Decimal, IsColor, LookAfter;
    if code.Some? && (IsBaseColor(code.value, 38) || IsBaseColor(code.value, 48)) {
      BaseColorStored(code.value);
    }
  }

  lemma ColorStored(parts: seq<string>, base: nat)
    requires |parts| > 1 && ParseInt(parts[0]) == Some(base) && Taken(parts) == |parts| && forall p :: p in parts ==>
               IsPart(p)
    ensures IsColor(Join(parts, ";"), base)
  {
    hide Number;
    SplitOfJoin(parts, ';');
    JoinedChars(parts);
  }

  lemma {:induction false} JoinedChars(parts: seq<string>)
    requires forall p :: p in parts ==> forall k :: 0 <= k < |p| ==> ParameterChar(p[k])
    ensures forall k :: 0 <= k < |Join(parts, ";")| ==> ParameterChar(Join(parts, ";")[k])
    ensures parts != [] && (|parts| > 1 || parts[0] != "") ==> Join(parts, ";") != ""
    decreases |parts|
  {
    if parts != [] {
      assert parts[0] in parts;
      assert forall p :: p in parts[1..] ==> p in parts;
      JoinedChars(parts[1..]);
    }
  }

  lemma BaseColorStored(n: nat)
    requires IsBaseColor(n, 38) || IsBaseColor(n, 48)
    ensures IsBaseColor(n, 38) ==> IsColor(Decimal(n), 38)
    ensures IsBaseColor(n, 48) ==> IsColor(Decimal(n), 48)
  {
    hide SplitOn, Decimal, Number;
    DecimalParses(n);
  }

  lemma {:induction false} ApplyReachable(s: Style, parts: seq<string>)
    requires (forall p :: p in parts ==> IsPart(p)) && Reachable(s)
    ensures Reachable(Apply(s, parts))
    decreases |parts|
  {
    hide ApplyFirst, Reachable, IsPart, ParseInt;
    if parts != [] {
      ApplyFirstReachable(s, parts);
      assert forall p :: p in parts[Taken(parts)..] ==> p in parts;
      ApplyReachable(ApplyFirst(s, parts), parts[Taken(parts)..]);
    }
  }

  lemma {:induction false} ParametersAreParameters(code: string)
    ensures SgrParameters(code).Some? ==> forall c :: c in SgrParameters(code).value ==> ParameterChar(c)
    decreases |code|
  {
    if code != "" {
      ParametersAreParameters(code[1..]);
    }
  }

  lemma ProcessReachable(s: Style, code: string)
    requires IsCode(code) && Reachable(s)
    ensures Reachable(Process(s, code))
  {
    hide IsColor, Apply, SplitOn, SgrParameters, ParseOsc8Hyperlink, IsCode;
    if ParseOsc8Hyperlink(code).Open? {
      FormatOfParse(code);
      LinkEnds(code);
    }
    ParametersAreParameters(code);
    if SgrParameters(code).Some? {
      var params := SgrParameters(code).value;
      PartsHaveNoSeparator(params, ';');
      forall p | p in SplitOn(params, ';') ensures IsPart(p) {
        forall c | c in p ensures Digit(c) {
          assert c in params && c != ';';
        }
      }
      ApplyReachable(s, SplitOn(params, ';'));
    }
  }

  lemma LinkEnds(code: string)
    ensures ParseOsc8Hyperlink(code).Open? ==>
              var t := ParseOsc8Hyperlink(code).link.terminator; t == [BEL] || t == TERMINATOR
  {
    hide IndexOf;
  }

  lemma {:induction false} TrackReachable(s: Style, text: string)
    requires Reachable(s)
    ensures Reachable(Track(s, text))
    decreases |text|
  {
    hide Reachable, Process, CodeLength, IsCode;
    if text != "" {
      var n := CodeLength(text);
      if n > 0 {
        CodeAlone(text);
        ProcessReachable(s, text[..n]);
        TrackReachable(Process(s, text[..n]), text[n..]);
      } else {
        TrackReachable(s, text[1..]);
      }
    }
  }

  // ---------- Printing a style ----------

  lemma {:induction false} CsiEndsAt(s: string, j: nat)
    requires j < |s| && s[|s| - 1] == 'm' && forall k :: j <= k < |s| - 1 ==> ParameterChar(s[k])
    ensures CsiEnd(s, j) == |s|
    decreases |s| - j
  {
    if j < |s| - 1 {
      CsiEndsAt(s, j + 1);
    }
  }

  lemma {:induction false} ParametersEndAt(s: string, j: nat)
    requires j < |s| && s[|s| - 1] == 'm' && forall k :: j <= k < |s| - 1 ==> ParameterChar(s[k])
    ensures ParametersFrom(s, j) == |s| - 1
    decreases |s| - j
  {
    if j < |s| - 1 {
      ParametersEndAt(s, j + 1);
    }
  }

  predicate IsSgr(codes: seq<string>) {
    && codes != [] && codes[0] != ""
    && forall c :: c in codes ==> Whole(SplitOn(c, ';')) && forall k :: 0 <= k < |c| ==> ParameterChar(c[k])
  }

  /** A printed graphic rendition is one code, and does what its parts do. */
  lemma SgrCodeWorks(s: Style, codes: seq<string>)
    requires IsSgr(codes)
    ensures IsCode(SgrCode(codes)) && Process(s, SgrCode(codes)) == ApplyAll(s, codes)
  {
    hide Apply, Whole, CsiEnd, ParametersFrom, ApplyAll, SplitOn;
    var params, code := Join(codes, ";"), SgrCode(codes);
    JoinedChars(codes);
    forall k | 2 <= k < |code| - 1 ensures ParameterChar(code[k]) {
      assert code[k] == params[k - 2];
    }
    CsiEndsAt(code, 2);
    ParametersEndAt(code, 2);
    assert code[2..|code| - 1] == params && code[|code| - 1..] == "m";
    assert code[1] == '[' && OSC8[1] == ']';
    JoinedApply(s, codes);
    ZeroResets(s);
    assert SgrParameters(code) == Some(params);
  }

  lemma ZeroResets(s: Style)
    ensures Apply(s, SplitOn("0", ';')) == PLAIN.(activeHyperlink := s.activeHyperlink)
  {
    FlagApplies(s, "0", 0);
  }

  lemma FlagStep(s: Style, done: seq<string>, on: bool, code: string, n: nat)
    requires |code| == 1 && Digit(code[0]) && n == code[0] as nat - '0' as nat
    requires forall c :: c in done ==> IsSgr([c])
    ensures ApplyAll(s, done + Flag(on, code)) == if on then Standard(ApplyAll(s, done), Some(n)) else ApplyAll(s, done)
    ensures forall c :: c in done + Flag(on, code) ==> IsSgr([c])
  {
    hide Apply, SplitOn, Standard, Whole;
    ApplyAllConcat(s, done, Flag(on, code));
    FlagApplies(ApplyAll(s, done), code, n);
    OneCode(ApplyAll(s, done), code);
  }

  lemma OneCode(s: Style, code: string)
    ensures ApplyAll(s, [code]) == Apply(s, SplitOn(code, ';')) && ApplyAll(s, []) == s
  {
    assert [code][1..] == [];
  }

  lemma ColorStep(s: Style, done: seq<string>, c: Option<string>, base: nat)
    requires (base == 38 || base == 48) && (c.Some? ==> IsColor(c.value, base))
    requires forall d :: d in done ==> IsSgr([d])
    ensures ApplyAll(s, done + Color(c))
            == if c.Some? then SetColor(ApplyAll(s, done), base, c.value) else ApplyAll(s, done)
    ensures forall d :: d in done + Color(c) ==> IsSgr([d])
  {
    hide Apply, SplitOn, Whole;
    ApplyAllConcat(s, done, Color(c));
    if c.Some? {
      ColorApplies(ApplyAll(s, done), c.value, base);
      OneCode(ApplyAll(s, done), c.value);
    } else {
      OneCode(ApplyAll(s, done), "");
    }
  }

  // ---------- The theorems ----------

  /** Some codes give a cleared tracker this look. */
  predicate Gives(codes: seq<string>, l: Look) {
    ApplyAll(PLAIN, codes) == PLAIN.(look := l) && forall d :: d in codes ==> IsSgr([d])
  }

  lemma GivesMore(codes: seq<string>, l: Look, on: bool, code: string, n: nat)
    requires Gives(codes, l) && |code| == 1 && Digit(code[0]) && n == code[0] as nat - '0' as nat && 0 < n
    ensures Gives(codes + Flag(on, code), if on then LookAfter(l, n) else l)
  {
    hide ApplyAll, IsSgr, LookAfter, Flag;
    FlagStep(PLAIN, codes, on, code, n);
  }

  lemma GivesNothing()
    ensures Gives([], NO_LOOK)
  {
  }

  lemma CodesRestoreHalf(l: Look)
    ensures Gives(Flag(l.bold, "1") + Flag(l.dim, "2") + Flag(l.italic, "3") + Flag(l.underline, "4"),
                  Look(l.bold, l.dim, l.italic, l.underline, false, false, false, false))
  {
    hide Gives, Flag;
    GivesNothing();
    var f1 := Flag(l.bold, "1");
    GivesMore([], NO_LOOK, l.bold, "1", 1);
    assert [] + f1 == f1;
    GivesMore(f1, NO_LOOK.(bold := l.bold), l.dim, "2", 2);
    var f2 := f1 + Flag(l.dim, "2");
    GivesMore(f2, NO_LOOK.(bold := l.bold, dim := l.dim), l.italic, "3", 3);
    var f3 := f2 + Flag(l.italic, "3");
    GivesMore(f3, NO_LOOK.(bold := l.bold, dim := l.dim, italic := l.italic), l.underline, "4", 4);
  }

  lemma CodesRestoreLook(l: Look)
    ensures Gives(AttributeCodes(l), l)
  {
    hide Gives, Flag;
    CodesRestoreHalf(l);
    var f4 := Flag(l.bold, "1") + Flag(l.dim, "2") + Flag(l.italic, "3") + Flag(l.underline, "4");
    var half := Look(l.bold, l.dim, l.italic, l.underline, false, false, false, false);
    GivesMore(f4, half, l.blink, "5", 5);
    var f5 := f4 + Flag(l.blink, "5");
    GivesMore(f5, half.(blink := l.blink), l.inverse, "7", 7);
    var f7 := f5 + Flag(l.inverse, "7");
    GivesMore(f7, half.(blink := l.blink, inverse := l.inverse), l.hidden, "8", 8);
    var f8 := f7 + Flag(l.hidden, "8");
    GivesMore(f8, half.(blink := l.blink, inverse := l.inverse, hidden := l.hidden), l.strikethrough, "9", 9);
  }

  lemma ColorsRestore(flags: seq<string>, s: Style)
    requires Reachable(s) && Gives(flags, s.look)
    ensures ApplyAll(PLAIN, flags + Color(s.fgColor) + Color(s.bgColor)) == s.(activeHyperlink := None)
    ensures forall d :: d in flags + Color(s.fgColor) + Color(s.bgColor) ==> IsSgr([d])
  {
    hide ApplyAll, IsSgr, IsColor, IsLink, Color;
    ColorStep(PLAIN, flags, s.fgColor, 38);
    ColorStep(PLAIN, flags + Color(s.fgColor), s.bgColor, 48);
  }

  lemma CodesRestore(s: Style)
    requires Reachable(s)
    ensures ApplyAll(PLAIN, Codes(s)) == s.(activeHyperlink := None) && forall d :: d in Codes(s) ==> IsSgr([d])
  {
    hide ApplyAll, IsSgr, AttributeCodes, Color, Gives, Reachable;
    CodesRestoreLook(s.look);
    ColorsRestore(AttributeCodes(s.look), s);
    GivesSgr(AttributeCodes(s.look), s.look);
  }

  lemma GivesSgr(codes: seq<string>, l: Look)
    requires Gives(codes, l)
    ensures forall d :: d in codes ==> IsSgr([d])
  {
  }

  lemma EachIsSgr(codes: seq<string>)
    requires codes != [] && forall d :: d in codes ==> IsSgr([d])
    ensures IsSgr(codes)
  {
    hide Whole, SplitOn;
    assert codes[0] in codes && [codes[0]][0] == codes[0];
    forall c | c in codes ensures Whole(SplitOn(c, ';')) && forall k :: 0 <= k < |c| ==> ParameterChar(c[k]) {
      assert c in [c];
    }
  }

  lemma TrackLink(s: Style, link: Hyperlink, u: string)
    requires IsLink(link)
    ensures Track(s, FormatOsc8Hyperlink(link) + u) == Track(s.(activeHyperlink := Some(link)), u)
  {
    hide FormatOsc8Hyperlink, ParseOsc8Hyperlink, IsCode;
    TrackCode(s, FormatOsc8Hyperlink(link), u);
  }

  /** Whatever text led to a style, its active codes lead a cleared tracker to the same style, and so does
      every text that follows them. */
  lemma ActiveCodesReplay(s: Style, u: string)
    requires Reachable(s)
    ensures Track(PLAIN, ActiveCodes(s) + u) == Track(s, u)
    ensures Track(PLAIN, ActiveCodes(s)) == s
  {
    ActiveCodesReplayThen(s, u);
    ActiveCodesReplayThen(s, "");
    assert ActiveCodes(s) + "" == ActiveCodes(s);
    TrackNothing(s, "");
  }

  lemma ActiveCodesReplayThen(s: Style, u: string)
    requires Reachable(s)
    ensures Track(PLAIN, ActiveCodes(s) + u) == Track(s, u)
  {
    hide Track, Codes, SgrCode, FormatOsc8Hyperlink, ApplyAll, IsSgr, Process, IsCode, IsLink, IsColor;
    CodesRestore(s);
    var rest := if s.activeHyperlink.Some? then FormatOsc8Hyperlink(s.activeHyperlink.value) else "";
    var look := s.(activeHyperlink := None);
    if s.activeHyperlink.Some? {
      TrackLink(look, s.activeHyperlink.value, u);
    } else {
      TrackNothing(look, u);
    }
    if Codes(s) != [] {
      EachIsSgr(Codes(s));
      SgrCodeWorks(PLAIN, Codes(s));
      TrackCode(PLAIN, SgrCode(Codes(s)), rest + u);
      assert ActiveCodes(s) + u == SgrCode(Codes(s)) + (rest + u);
    } else {
      OneCode(PLAIN, "");
      assert ActiveCodes(s) + u == rest + u;
    }
  }

  /** At a line break the whole history of a text can be replaced by the codes active there. */
  lemma HistoryReplaced(text: string, u: string)
    ensures Track(PLAIN, ActiveCodes(Track(PLAIN, text)) + u) == Track(Track(PLAIN, text), u)
  {
    TrackReachable(PLAIN, text);
    ActiveCodesReplay(Track(PLAIN, text), u);
  }

  /** What is written at the end of a line ends the underline and the hyperlink, and nothing else. */
  lemma LineEndResets(s: Style)
    requires Reachable(s)
    ensures Track(s, LineEndReset(s)) == s.(look := s.look.(underline := false), activeHyperlink := None)
  {
    hide Track, SgrCode, FormatOsc8Close, ApplyAll, IsSgr, Process, IsCode, IsColor, IsLink;
    var rest := if s.activeHyperlink.Some? then FormatOsc8Close(s.activeHyperlink.value.terminator) else "";
    var plain := s.(look := s.look.(underline := false));
    CloseCloses(s);
    CloseCloses(plain);
    if s.look.underline {
      UnderlineEnds(s);
      TrackCode(s, SgrCode(["24"]), rest);
      if rest == "" {
        TrackNothing(plain, "");
      }
    } else {
      TrackNothing(s, "");
      assert LineEndReset(s) == "" + rest == rest && plain == s;
    }
  }

  lemma UnderlineEnds(s: Style)
    ensures IsCode(SgrCode(["24"])) && Process(s, SgrCode(["24"])) == s.(look := s.look.(underline := false))
  {
    hide IsSgr, Apply, SplitOn, Process, IsCode, ApplyAll, Standard;
    TwentyFour();
    OneParameter(s, "24", 24);
    SgrCodeWorks(s, ["24"]);
    StandardUnderlineOff(s);
  }

  lemma StandardUnderlineOff(s: Style)
    ensures Standard(s, Some(24)) == s.(look := s.look.(underline := false))
  {
  }

  lemma OneParameter(s: Style, code: string, n: nat)
    requires ParseInt(code) == Some(n) && n != 38 && n != 48
    ensures IsSgr([code]) && ApplyAll(s, [code]) == Standard(s, Some(n))
  {
    hide Standard, Number;
    assert forall k :: 0 <= k < |code| ==> code[k] in code;
    SplitOne(code, ';');
    OneCode(s, code);
    assert Apply(ApplyFirst(s, [code]), [code][1..]) == ApplyFirst(s, [code]);
  }

  lemma TwentyFour()
    ensures ParseInt("24") == Some(24)
  {
    SmallDecimal(24);
    assert Decimal(24) == "24";
  }

  lemma CloseCloses(s: Style)
    ensures s.activeHyperlink.Some? && IsLink(s.activeHyperlink.value) ==>
              Track(s, FormatOsc8Close(s.activeHyperlink.value.terminator)) == s.(activeHyperlink := None)
  {
    if s.activeHyperlink.Some? && IsLink(s.activeHyperlink.value) {
      var code := FormatOsc8Close(s.activeHyperlink.value.terminator);
      CloseIsCode(s.activeHyperlink.value.terminator);
      TrackCode(s, code, "");
      assert code + "" == code;
      TrackNothing(s.(activeHyperlink := None), "");
    }
  }

  lemma CloseIsCode(terminator: string)
    requires terminator == [BEL] || terminator == TERMINATOR
    ensures IsCode(FormatOsc8Close(terminator)) && ParseOsc8Hyperlink(FormatOsc8Close(terminator)) == Close
  {
    var code := FormatOsc8Close(terminator);
    assert code == OSC8 + ";" + terminator;
    assert code[0] == ESC
           && code[1] == ']' && code[2] == '8' && code[3] == ';' && code[4] == ';' && code[5] == terminator[0];
    assert !(CSI <= code) && OSC <= code;
    assert StringEnd(code, 5) == |code|;
    assert StringEnd(code, 3) == StringEnd(code, 4) == StringEnd(code, 5);
    assert StringEnd(code, 2) == StringEnd(code, 3);
    assert code[4..5] == ";";
    assert IndexOf(";", ";") == 0;
  }
}
