/** The tracker that carries styles across line breaks. */
module AnsiTracker {
  import opened Options
  import opened Text
  import opened AnsiStyles
  import opened AnsiProofs

  class AnsiCodeTracker {
    var bold: bool
    var dim: bool
    var italic: bool
    var underline: bool
    var blink: bool
    var inverse: bool
    var hidden: bool
    var strikethrough: bool
    var fgColor: Option<string>
    var bgColor: Option<string>
    var activeHyperlink: Option<Hyperlink>

    function Value(): Style
      reads this
    {
      Style(Look(bold, dim, italic, underline, blink, inverse, hidden, strikethrough), fgColor, bgColor,
            activeHyperlink)
    }

    ghost predicate Valid()
      reads this
    {
      Reachable(Value())
    }

    constructor ()
      ensures Valid() && Value() == PLAIN
    {
      bold, dim, italic, underline := false, false, false, false;
      blink, inverse, hidden, strikethrough := false, false, false, false;
      fgColor, bgColor, activeHyperlink := None, None, None;
    }

    method Reset()
      modifies this
      ensures Value() == PLAIN.(activeHyperlink := old(activeHyperlink))
    {
      bold, dim, italic, underline := false, false, false, false;
      blink, inverse, hidden, strikethrough := false, false, false, false;
      fgColor, bgColor := None, None;
    }

    method Clear()
      modifies this
      ensures Valid() && Value() == PLAIN
    {
      Reset();
      activeHyperlink := None;
    }

    method SetAttribute(code: nat)
      requires 1 <= code < 10
      modifies this`bold, this`dim, this`italic, this`underline, this`blink, this`inverse, this`hidden
      modifies this`strikethrough
      ensures bold == (Switch(old(bold), code, 1, 22) && code != 21)
      ensures dim == Switch(old(dim), code, 2, 22)
      ensures italic == Switch(old(italic), code, 3, 23)
      ensures underline == Switch(old(underline), code, 4, 24)
      ensures blink == Switch(old(blink), code, 5, 25)
      ensures inverse == Switch(old(inverse), code, 7, 27)
      ensures hidden == Switch(old(hidden), code, 8, 28)
      ensures strikethrough == Switch(old(strikethrough), code, 9, 29)
    {
      match code {
        case 1 => bold := true;
        case 2 => dim := true;
        case 3 => italic := true;
        case 4 => underline := true;
        case 5 => blink := true;
        case 7 => inverse := true;
        case 8 => hidden := true;
        case 9 => strikethrough := true;
        case _ =>
      }
    }

    method ClearAttribute(code: nat)
      requires 10 <= code < 30
      modifies this`bold, this`dim, this`italic, this`underline, this`blink, this`inverse, this`hidden
      modifies this`strikethrough
      ensures bold == (Switch(old(bold), code, 1, 22) && code != 21)
      ensures dim == Switch(old(dim), code, 2, 22)
      ensures italic == Switch(old(italic), code, 3, 23)
      ensures underline == Switch(old(underline), code, 4, 24)
      ensures blink == Switch(old(blink), code, 5, 25)
      ensures inverse == Switch(old(inverse), code, 7, 27)
      ensures hidden == Switch(old(hidden), code, 8, 28)
      ensures strikethrough == Switch(old(strikethrough), code, 9, 29)
    {
      match code {
        case 21 => bold := false;
        case 22 => bold, dim := false, false;
        case 23 => italic := false;
        case 24 => underline := false;
        case 25 => blink := false;
        case 27 => inverse := false;
        case 28 => hidden := false;
        case 29 => strikethrough := false;
        case _ =>
      }
    }

    method SetStandardColor(code: nat)
      requires 30 <= code
      modifies this`fgColor, this`bgColor
      ensures Value() == Standard(old(Value()), Some(code))
    {
      hide Decimal;
      if code == 39 {
        fgColor := None;
      } else if code == 49 {
        bgColor := None;
      } else if 30 <= code <= 37 || 90 <= code <= 97 {
        fgColor := Some(Decimal(code));
      } else if 40 <= code <= 47 || 100 <= code <= 107 {
        bgColor := Some(Decimal(code));
      }
    }

    /** One parameter that stands for itself. */
    method ApplyStandard(code: Option<nat>)
      modifies this
      ensures Value() == Standard(old(Value()), code)
    {
      hide Switch, Decimal;
      if code.Some? {
        if code.value == 0 {
          Reset();
          ResetsAll(old(Value()));
        } else if code.value < 10 {
          SetAttribute(code.value);
        } else if code.value < 30 {
          ClearAttribute(code.value);
        } else {
          SetStandardColor(code.value);
        }
      }
    }

    method ApplyParts(parts: seq<string>)
      modifies this
      ensures Value() == Apply(old(Value()), parts)
    {
      hide Standard, ParseInt;
      var i := 0;
      while i < |parts|
        invariant 0 <= i <= |parts|
        invariant Apply(Value(), parts[i..]) == Apply(old(Value()), parts)
        decreases |parts| - i
      {
        PartsFrom(Value(), parts, i);
        var code := ParseInt(parts[i]);
        if code == Some(38) || code == Some(48) {
          if i + 2 < |parts| && parts[i + 1] == "5" {
            ThreeJoined(parts, i);
            var colorCode := parts[i] + ";" + parts[i + 1] + ";" + parts[i + 2];
            if code == Some(38) { fgColor := Some(colorCode); } else { bgColor := Some(colorCode); }
            i := i + 3;
            continue;
          } else if i + 4 < |parts| && parts[i + 1] == "2" {
            FiveJoined(parts, i);
            var colorCode := parts[i] + ";" + parts[i + 1] + ";" + parts[i + 2] + ";" + parts[i + 3] + ";"
                             + parts[i + 4];
            if code == Some(38) { fgColor := Some(colorCode); } else { bgColor := Some(colorCode); }
            i := i + 5;
            continue;
          }
        }
        ApplyStandard(code);
        i := i + 1;
      }
    }

    method Process(code: string)
      modifies this
      ensures Value() == AnsiStyles.Process(old(Value()), code)
      ensures old(Valid()) && IsCode(code) ==> Valid()
    {
      hide Apply, SplitOn, SgrParameters, ParseOsc8Hyperlink, IsCode, Reachable;
      if IsCode(code) {
        ProcessKeeps(Value(), code);
      }
      var hyperlink := ParseOsc8Hyperlink(code);
      if !hyperlink.NoLink? {
        activeHyperlink := if hyperlink.Open? then Some(hyperlink.link) else None;
        return;
      }
      if !EndsWith(code, "m") {
        return;
      }
      var found := SgrParameters(code);
      if found.None? {
        return;
      }
      var params := found.value;
      if params == "" || params == "0" {
        Reset();
        return;
      }
      ApplyParts(SplitOn(params, ';'));
    }

    method UpdateTrackerFromText(text: string)
      requires Valid()
      modifies this
      ensures Valid() && Value() == Track(old(Value()), text)
    {
      hide AnsiStyles.Process, CodeLength, Reachable, IsCode;
      var i := 0;
      assert text[0..] == text;
      while i < |text|
        invariant 0 <= i <= |text| && Valid()
        invariant Track(Value(), text[i..]) == Track(old(Value()), text)
        decreases |text| - i
      {
        var length := CodeLength(text[i..]);
        if length > 0 {
          CodeAlone(text[i..]);
          assert text[i..][..length] == text[i..i + length] && text[i..][length..] == text[i + length..];
          Process(text[i..i + length]);
          i := i + length;
        } else {
          assert text[i..][1..] == text[i + 1..];
          i := i + 1;
        }
      }
    }

    method GetAttributeCodes() returns (codes: seq<string>)
      ensures codes == AttributeCodes(Value().look)
    {
      hide Flag;
      codes := Flag(bold, "1");
      codes := codes + Flag(dim, "2");
      codes := codes + Flag(italic, "3");
      codes := codes + Flag(underline, "4");
      codes := codes + Flag(blink, "5");
      codes := codes + Flag(inverse, "7");
      codes := codes + Flag(hidden, "8");
      codes := codes + Flag(strikethrough, "9");
    }

    method GetActiveCodes() returns (result: string)
      ensures result == ActiveCodes(Value())
    {
      hide AttributeCodes, SgrCode, FormatOsc8Hyperlink;
      var codes := GetAttributeCodes();
      codes := codes + Color(fgColor);
      codes := codes + Color(bgColor);
      result := if |codes| > 0 then SgrCode(codes) else "";
      if activeHyperlink.Some? {
        result := result + FormatOsc8Hyperlink(activeHyperlink.value);
      }
    }

    method GetLineEndReset() returns (result: string)
      ensures result == LineEndReset(Value())
    {
      result := "";
      if underline {
        result := result + SgrCode(["24"]);
      }
      if activeHyperlink.Some? {
        result := result + FormatOsc8Close(activeHyperlink.value.terminator);
      }
    }
  }

  lemma ResetsAll(s: Style)
    ensures Standard(s, Some(0)) == PLAIN.(activeHyperlink := s.activeHyperlink)
  {
  }

  lemma ProcessKeeps(s: Style, code: string)
    requires IsCode(code)
    ensures Reachable(s) ==> Reachable(Process(s, code))
  {
    if Reachable(s) {
      ProcessReachable(s, code);
    }
  }

  lemma PartsFrom(s: Style, parts: seq<string>, i: nat)
    requires i < |parts|
    ensures var n := Taken(parts[i..]);
            Apply(s, parts[i..]) == Apply(ApplyFirst(s, parts[i..]), parts[i + n..])
  {
    hide ApplyFirst;
    assert parts[i..][Taken(parts[i..])..] == parts[i + Taken(parts[i..])..];
  }

  lemma ThreeJoined(parts: seq<string>, i: nat)
    requires i + 2 < |parts|
    ensures Join(parts[i..][..3], ";") == parts[i] + ";" + parts[i + 1] + ";" + parts[i + 2]
  {
    var a, b, c := parts[i], parts[i + 1], parts[i + 2];
    assert parts[i..][..3] == [a, b, c];
    assert [a, b, c][1..] == [b, c] && [b, c][1..] == [c];
    assert Join([b, c], ";") == b + ";" + c;
    assert Join([a, b, c], ";") == a + ";" + (b + ";" + c);
  }

  lemma FiveJoined(parts: seq<string>, i: nat)
    requires i + 4 < |parts|
    ensures Join(parts[i..][..5], ";")
         == parts[i] + ";" + parts[i + 1] + ";" + parts[i + 2] + ";" + parts[i + 3] + ";" + parts[i + 4]
  {
    ThreeJoined(parts, i + 2);
    var p := parts[i..][..5];
    assert p == [parts[i], parts[i + 1]] + parts[i + 2..][..3];
    assert p[1..] == [parts[i + 1]] + parts[i + 2..][..3] && p[1..][1..] == parts[i + 2..][..3];
  }

  /** Carrying a style over a line break: a fresh tracker that reads the codes printed at the break ends in
      the same state as one that read the whole text. */
  method AcrossLineBreak(text: string, next: string) returns (reader: AnsiCodeTracker, writer: AnsiCodeTracker)
    ensures fresh(reader) && fresh(writer) && reader.Valid()
            && reader.Value() == writer.Value() == Track(Track(PLAIN, text), next)
  {
    hide Track, ActiveCodes, Reachable;
    writer := new AnsiCodeTracker();
    writer.UpdateTrackerFromText(text);
    var codes := writer.GetActiveCodes();
    HistoryReplaced(text, next);
    reader := new AnsiCodeTracker();
    reader.UpdateTrackerFromText(codes + next);
    writer.UpdateTrackerFromText(next);
  }
}
