/** Repairing JSON string literals: raw control characters and invalid escapes. Characters stand for UTF-16
    code units; what a literal decodes to is given as numbers. */
module JsonRepair {
  import opened Options

  predicate ValidEscape(c: char) { c in {'"', '\\', '/', 'b', 'f', 'n', 'r', 't', 'u'} }

  predicate IsControl(c: char) { c as int <= 0x1F }

  predicate IsHex(c: char) { '0' <= c <= '9' || 'a' <= c <= 'f' || 'A' <= c <= 'F' }

  /** How many hexadecimal digits the text starts with. */
  function HexRun(s: string): nat {
    if s == "" || !IsHex(s[0]) then 0 else 1 + HexRun(s[1..])
  }

  /** ESC u with four hexadecimal digits, where ESC is a backslash. */
  predicate IsUnicodeEscape(s: string) { |s| >= 6 && s[0] == '\\' && s[1] == 'u' && HexRun(s[2..]) >= 4 }

  function HexDigit(n: nat): char
    requires n < 16
  {
    if n < 10 then '0' + n as char else 'a' + (n - 10) as char
  }

  function EscapeControl(c: char): string
    requires IsControl(c)
  {
    match c as int
    case 8 => "\\b"
    case 12 => "\\f"
    case 10 => "\\n"
    case 13 => "\\r"
    case 9 => "\\t"
    case n => "\\u00" + [HexDigit(n / 16), HexDigit(n % 16)]
  }

  datatype Piece = Piece(length: nat, text: string)

  /** What the next piece of a literal's content is, and what it becomes. */
  function FirstPiece(s: string): (p: Piece)
    requires s != "" && s[0] != '"'
    ensures 1 <= p.length <= |s| && p.length <= |p.text|
  {
    if s[0] == '\\' then
      if |s| == 1 then Piece(1, "\\\\")
      else if IsUnicodeEscape(s) then Piece(6, s[..6])
      else if ValidEscape(s[1]) then Piece(2, s[..2])
      else Piece(1, "\\\\")
    else Piece(1, if IsControl(s[0]) then EscapeControl(s[0]) else s[..1])
  }

  function Repair(s: string, inString: bool): string
    decreases |s|
  {
    if s == "" then ""
    else if !inString then s[..1] + Repair(s[1..], s[0] == '"')
    else if s[0] == '"' then s[..1] + Repair(s[1..], false)
    else
      var p := FirstPiece(s);
      p.text + Repair(s[p.length..], true)
  }

  // ---------- The loop ----------

  method RepairJson(json: string) returns (repaired: string)
    ensures repaired == Repair(json, false)
  {
    hide IsUnicodeEscape, EscapeControl;
    repaired := "";
    var inString := false;
    var index := 0;
    assert json[0..] == json;
    while index < |json|
      invariant 0 <= index <= |json|
      invariant repaired + Repair(json[index..], inString) == Repair(json, false)
      decreases |json| - index
    {
      var c, rest := json[index], json[index..];
      if !inString {
        OutsideStep(repaired, json, index);
        repaired := repaired + [c];
        if c == '"' {
          inString := true;
        }
        index := index + 1;
        continue;
      }
      if c == '"' {
        ClosingStep(repaired, json, index);
        repaired := repaired + [c];
        inString := false;
        index := index + 1;
        continue;
      }
      PieceStep(repaired, json, index);
      if c == '\\' {
        if index + 1 == |json| {
          repaired := repaired + "\\\\";
          index := index + 1;
          continue;
        }
        var nextChar := json[index + 1];
        if nextChar == 'u' && IsUnicodeEscape(rest) {
          repaired := repaired + rest[..6];
          index := index + 6;
          continue;
        }
        NoUnicodeEscape(rest);
        if ValidEscape(nextChar) {
          assert rest[..2] == [c, nextChar];
          repaired := repaired + [c, nextChar];
          index := index + 2;
          continue;
        }
        repaired := repaired + "\\\\";
        index := index + 1;
        continue;
      }
      assert rest[..1] == [c];
      repaired := repaired + (if IsControl(c) then EscapeControl(c) else [c]);
      index := index + 1;
    }
  }

  lemma NoUnicodeEscape(s: string)
    ensures IsUnicodeEscape(s) ==> |s| >= 6 && s[1] == 'u'
  {
  }

  lemma OutsideStep(done: string, json: string, i: nat)
    requires i < |json|
    ensures done + [json[i]] + Repair(json[i + 1..], json[i] == '"') == done + Repair(json[i..], false)
  {
    assert json[i..][1..] == json[i + 1..] && json[i..][..1] == [json[i]];
    var rest := Repair(json[i + 1..], json[i] == '"');
    assert done + ([json[i]] + rest) == done + [json[i]] + rest;
  }

  lemma ClosingStep(done: string, json: string, i: nat)
    requires i < |json| && json[i] == '"'
    ensures done + [json[i]] + Repair(json[i + 1..], false) == done + Repair(json[i..], true)
  {
    assert json[i..][1..] == json[i + 1..] && json[i..][..1] == [json[i]];
    assert done + ([json[i]] + Repair(json[i + 1..], false)) == done + [json[i]] + Repair(json[i + 1..], false);
  }

  lemma PieceStep(done: string, json: string, i: nat)
    requires i < |json| && json[i] != '"'
    ensures var p := FirstPiece(json[i..]);
            done + p.text + Repair(json[i + p.length..], true) == done + Repair(json[i..], true)
  {
    hide FirstPiece;
    var p := FirstPiece(json[i..]);
    assert json[i..][p.length..] == json[i + p.length..];
    assert done + (p.text + Repair(json[i + p.length..], true)) == done + p.text + Repair(json[i + p.length..], true);
  }

  // ---------- Repairing is idempotent ----------

  // Repairing keeps the hexadecimal digits at the front, and lets nothing else become one.
  lemma {:induction false} HexRunKept(s: string)
    ensures HexRun(Repair(s, true)) == HexRun(s)
    decreases |s|
  {
    if s != "" && s[0] != '"' {
      var p := FirstPiece(s);
      var r := Repair(s, true);
      if IsHex(s[0]) {
        HexRunKept(s[1..]);
        assert p == Piece(1, s[..1]);
        assert r[0] == s[0] && r[1..] == Repair(s[1..], true);
      } else {
        assert r[0] == p.text[0];
        PieceStartsAlike(s);
      }
    }
  }

  lemma PieceStartsAlike(s: string)
    requires s != "" && s[0] != '"'
    ensures var t := FirstPiece(s).text; t != "" && t[0] != '"' && (t[0] == s[0] || t[0] == '\\')
  {
  }

  /** A repaired piece is a piece that needs no repair. */
  lemma PieceIsStable(s: string)
    requires s != "" && s[0] != '"'
    ensures var p := FirstPiece(s);
            var all := p.text + Repair(s[p.length..], true);
            all != "" && all[0] != '"' && FirstPiece(all) == Piece(|p.text|, p.text)
  {
    hide Repair;
    var p := FirstPiece(s);
    var r := Repair(s[p.length..], true);
    PieceStartsAlike(s);
    assert (p.text + r)[..|p.text|] == p.text;
    if s[0] == '\\' {
      BackslashIsStable(s, r);
    } else if IsControl(s[0]) {
      ControlIsStable(s[0], r);
    }
  }

  lemma BackslashIsStable(s: string, r: string)
    requires s != "" && s[0] == '\\' && r == Repair(s[FirstPiece(s).length..], true)
    ensures var p := FirstPiece(s); FirstPiece(p.text + r) == Piece(|p.text|, p.text)
  {
    hide Repair;
    var p := FirstPiece(s);
    assert (p.text + r)[..|p.text|] == p.text;
    if |s| > 1 && IsUnicodeEscape(s) {
      SixCharacters(s, r);
    } else if |s| > 1 && s[1] == 'u' {
      HexRunKept(s[2..]);
      assert (p.text + r)[2..] == r;
      ShortRun(s[2..]);
    }
  }

  lemma ShortRun(s: string)
    ensures HexRun(s) >= 4 ==> |s| >= 4
  {
    if s != "" && s[1..] != "" && s[2..] != "" {
      assert s[1..][1..] == s[2..] && s[2..][1..] == s[3..];
    }
  }

  lemma SixCharacters(s: string, r: string)
    requires IsUnicodeEscape(s)
    ensures IsUnicodeEscape(s[..6] + r)
  {
    var t := s[..6] + r;
    FourDigits(s[2..]);
    FourDigits(t[2..]);
    assert t[2] == s[2] && t[3] == s[3] && t[4] == s[4] && t[5] == s[5];
  }

  lemma FourDigits(s: string)
    requires |s| >= 4
    ensures HexRun(s) >= 4 <==> IsHex(s[0]) && IsHex(s[1]) && IsHex(s[2]) && IsHex(s[3])
  {
    assert s[1..][1..] == s[2..] && s[2..][1..] == s[3..];
    assert HexRun(s[2..]) >= 2 <==> IsHex(s[2]) && IsHex(s[3]);
    assert HexRun(s[1..]) >= 3 <==> IsHex(s[1]) && HexRun(s[2..]) >= 2;
  }

  lemma ControlIsStable(c: char, r: string)
    requires IsControl(c)
    ensures EscapeControl(c)[0] == '\\'
            && FirstPiece(EscapeControl(c) + r) == Piece(|EscapeControl(c)|, EscapeControl(c))
  {
    var t := EscapeControl(c);
    assert (t + r)[..|t|] == t;
    if |t| == 6 {
      FourDigits((t + r)[2..]);
    }
  }

  lemma {:induction false} RepairIsIdempotent(s: string, inString: bool)
    ensures Repair(Repair(s, inString), inString) == Repair(s, inString)
    decreases |s|
  {
    hide FirstPiece;
    if s != "" {
      var r := Repair(s, inString);
      if !inString || s[0] == '"' {
        var rest := Repair(s[1..], !inString && s[0] == '"');
        RepairIsIdempotent(s[1..], !inString && s[0] == '"');
        assert r == s[..1] + rest && r[1..] == rest && r[..1] == s[..1];
      } else {
        var p := FirstPiece(s);
        var rest := Repair(s[p.length..], true);
        PieceIsStable(s);
        RepairIsIdempotent(s[p.length..], true);
        assert r == p.text + rest && r[|p.text|..] == rest;
      }
    }
  }

  // ---------- What is left alone ----------

  /** Nothing to repair: no raw control character in a literal, and no backslash without a valid escape. */
  predicate Clean(s: string, inString: bool)
    decreases |s|
  {
    if s == "" then true
    else if !inString then Clean(s[1..], s[0] == '"')
    else if s[0] == '"' then Clean(s[1..], false)
    else if s[0] == '\\' then
      |s| > 1 && ValidEscape(s[1]) && Clean(s[if IsUnicodeEscape(s) then 6 else 2..], true)
    else !IsControl(s[0]) && Clean(s[1..], true)
  }

  lemma {:induction false} RepairNeverShrinks(s: string, inString: bool)
    ensures |Repair(s, inString)| >= |s|
    decreases |s|
  {
    hide FirstPiece;
    if s != "" {
      if !inString || s[0] == '"' {
        RepairNeverShrinks(s[1..], !inString && s[0] == '"');
      } else {
        RepairNeverShrinks(s[FirstPiece(s).length..], true);
      }
    }
  }

  lemma PieceOfClean(s: string)
    requires s != "" && s[0] != '"'
    ensures var p := FirstPiece(s);
            && (p.length == |p.text| <==> p.text == s[..p.length])
            && (Clean(s, true) <==> p.length == |p.text| && Clean(s[p.length..], true))
  {
    hide IsUnicodeEscape, EscapeControl;
    NoUnicodeEscape(s);
    LongerThanOne(s[0]);
  }

  lemma LongerThanOne(c: char)
    ensures IsControl(c) ==> |EscapeControl(c)| > 1
  {
  }

  /** A text is unchanged exactly if there is nothing to repair. */
  lemma {:induction false} UnchangedIffClean(s: string, inString: bool)
    ensures Repair(s, inString) == s <==> Clean(s, inString)
    decreases |s|
  {
    hide FirstPiece, IsUnicodeEscape;
    if s != "" {
      if !inString || s[0] == '"' {
        var rest := Repair(s[1..], !inString && s[0] == '"');
        UnchangedIffClean(s[1..], !inString && s[0] == '"');
        assert Repair(s, inString)[1..] == rest && s == s[..1] + s[1..];
      } else {
        var p := FirstPiece(s);
        var rest := Repair(s[p.length..], true);
        PieceOfClean(s);
        UnchangedIffClean(s[p.length..], true);
        RepairNeverShrinks(s[p.length..], true);
        assert Repair(s, true) == p.text + rest && s == s[..p.length] + s[p.length..];
        assert p.length == |p.text| ==> (p.text + rest)[p.length..] == rest;
      }
    }
  }

  // ---------- Boundaries and control characters ----------

  /** What stands outside the literals, with the quotes that delimit them. */
  function Skeleton(s: string, inString: bool): string
    decreases |s|
  {
    if s == "" then ""
    else if !inString then s[..1] + Skeleton(s[1..], s[0] == '"')
    else if s[0] == '"' then s[..1] + Skeleton(s[1..], false)
    else if s[0] == '\\' && |s| > 1 then Skeleton(s[2..], true)
    else Skeleton(s[1..], true)
  }

  /** No control character stands raw in a literal (section 7 of RFC 8259). */
  predicate NoRawControl(s: string, inString: bool)
    decreases |s|
  {
    if s == "" then true
    else if !inString then NoRawControl(s[1..], s[0] == '"')
    else if s[0] == '"' then NoRawControl(s[1..], false)
    else if s[0] == '\\' && |s| > 1 then !IsControl(s[1]) && NoRawControl(s[2..], true)
    else !IsControl(s[0]) && NoRawControl(s[1..], true)
  }

  // Characters of a literal that neither end it nor escape anything are passed over.
  lemma {:induction false} PassOver(t: string, r: string)
    requires forall k :: 0 <= k < |t| ==> t[k] != '"' && t[k] != '\\' && !IsControl(t[k])
    ensures Skeleton(t + r, true) == Skeleton(r, true) && (NoRawControl(t + r, true) <==> NoRawControl(r, true))
    decreases |t|
  {
    if t == "" {
      assert t + r == r;
    } else {
      assert (t + r)[1..] == t[1..] + r;
      PassOver(t[1..], r);
    }
  }

  lemma PassEscape(c: char, t: string, r: string)
    requires !IsControl(c) && forall k :: 0 <= k < |t| ==> t[k] != '"' && t[k] != '\\' && !IsControl(t[k])
    ensures Skeleton(['\\', c] + t + r, true) == Skeleton(r, true)
    ensures NoRawControl(['\\', c] + t + r, true) <==> NoRawControl(r, true)
  {
    assert (['\\', c] + t + r)[2..] == t + r;
    PassOver(t, r);
  }

  // A repaired piece is passed over, and the skeleton of what it came from is that of what follows.
  lemma PieceIsPassed(s: string, r: string)
    requires s != "" && s[0] != '"'
    ensures var p := FirstPiece(s);
            Skeleton(p.text + r, true) == Skeleton(r,
                                                   true) && (NoRawControl(p.text + r, true) <==> NoRawControl(r, true))
  {
    hide Skeleton, NoRawControl;
    var p := FirstPiece(s);
    if s[0] == '\\' {
      if |s| > 1 && IsUnicodeEscape(s) {
        FourDigits(s[2..]);
        assert s[..6] == ['\\', 'u'] + s[2..6];
        PassEscape('u', s[2..6], r);
      } else if |s| > 1 && ValidEscape(s[1]) {
        assert s[..2] == ['\\', s[1]] + "";
        PassEscape(s[1], "", r);
      } else {
        assert p.text == ['\\', '\\'] + "";
        PassEscape('\\', "", r);
      }
    } else if IsControl(s[0]) {
      var t := EscapeControl(s[0]);
      assert t == ['\\', t[1]] + t[2..];
      PassEscape(t[1], t[2..], r);
    } else {
      PassOver(s[..1], r);
    }
  }

  /** The four kinds of pieces. */
  lemma PieceKinds(s: string)
    requires s != "" && s[0] != '"'
    ensures s[0] != '\\' ==> FirstPiece(s).length == 1
    ensures s[0] == '\\' && IsUnicodeEscape(s) ==> |s| >= 6 && FirstPiece(s) == Piece(6, s[..6])
    ensures s[0] == '\\' && !IsUnicodeEscape(s) && |s| > 1 && ValidEscape(s[1]) ==> FirstPiece(s) == Piece(2, s[..2])
    ensures s[0] == '\\' && !IsUnicodeEscape(s) && (|s| == 1 || !ValidEscape(s[1])) ==>
              FirstPiece(s) == Piece(1, "\\\\")
  {
    hide EscapeControl;
  }

  /** The text behind a unicode escape: four characters that are neither quotes nor backslashes, and the rest. */
  lemma UnicodeText(s: string)
    requires IsUnicodeEscape(s)
    ensures s[2..] == s[2..6] + s[6..] && Plain(s[2..6]) && forall k :: 2 <= k < 6 ==> !IsControl(s[k])
  {
    FourDigits(s[2..]);
  }

  lemma InvalidText(s: string)
    requires |s| > 1 && !ValidEscape(s[1])
    ensures s[1..] == s[1..2] + s[2..] && Plain(s[1..2])
  {
  }

  predicate Plain(t: string) { forall k :: 0 <= k < |t| ==> t[k] != '"' && t[k] != '\\' }

  lemma {:induction false} PlainSkeleton(t: string, r: string)
    requires Plain(t)
    ensures Skeleton(t + r, true) == Skeleton(r, true)
    decreases |t|
  {
    if t == "" {
      assert t + r == r;
    } else {
      assert (t + r)[1..] == t[1..] + r;
      PlainSkeleton(t[1..], r);
    }
  }

  lemma PieceOfSkeleton(s: string)
    requires s != "" && s[0] != '"'
    ensures Skeleton(s, true) == Skeleton(s[FirstPiece(s).length..], true)
  {
    hide FirstPiece, IsUnicodeEscape, ValidEscape, Plain;
    PieceKinds(s);
    if s[0] == '\\' && |s| > 1 {
      if IsUnicodeEscape(s) {
        UnicodeText(s);
        PlainSkeleton(s[2..6], s[6..]);
      } else if !ValidEscape(s[1]) {
        InvalidText(s);
        PlainSkeleton(s[1..2], s[2..]);
      }
    }
  }

  /** Repairing keeps everything outside the literals and where they begin and end, and leaves no raw control
      character in them. */
  lemma {:induction false} RepairKeepsBoundaries(s: string, inString: bool)
    ensures Skeleton(Repair(s, inString), inString) == Skeleton(s, inString)
    ensures NoRawControl(Repair(s, inString), inString)
    decreases |s|
  {
    hide FirstPiece;
    if s != "" {
      if !inString || s[0] == '"' {
        var rest := Repair(s[1..], !inString && s[0] == '"');
        RepairKeepsBoundaries(s[1..], !inString && s[0] == '"');
        assert Repair(s, inString)[1..] == rest && Repair(s, inString)[0] == s[0];
      } else {
        var p := FirstPiece(s);
        RepairKeepsBoundaries(s[p.length..], true);
        PieceIsPassed(s, Repair(s[p.length..], true));
        PieceOfSkeleton(s);
      }
    }
  }

  // ---------- What a literal means ----------

  function HexValue(c: char): nat
    requires IsHex(c)
  {
    if c <= '9' then c as int - '0' as int else if c <= 'F' then c as int - 'A' as int + 10
    else c as int - 'a' as int + 10
  }

  function CodeUnit(s: string): nat
    requires IsUnicodeEscape(s)
  {
    FourDigits(s[2..]);
    ((HexValue(s[2]) * 16 + HexValue(s[3])) * 16 + HexValue(s[4])) * 16 + HexValue(s[5])
  }

  function EscapeValue(c: char): nat
    requires ValidEscape(c) && c != 'u'
  {
    match c
    case 'b' => 8
    case 'f' => 12
    case 'n' => 10
    case 'r' => 13
    case 't' => 9
    case other => other as int
  }

  function Cons(unit: nat, rest: Option<seq<nat>>): Option<seq<nat>> {
    if rest.Some? then Some([unit] + rest.value) else None
  }

  /** The meaning of a literal's content as section 7 of RFC 8259 has it; None if it is malformed. */
  function Decode(s: string): Option<seq<nat>> {
    if s == "" then Some([])
    else if s[0] == '"' || IsControl(s[0]) then None
    else if s[0] != '\\' then Cons(s[0] as int, Decode(s[1..]))
    else if IsUnicodeEscape(s) then Cons(CodeUnit(s), Decode(s[6..]))
    else if |s| > 1 && ValidEscape(s[1]) && s[1] != 'u' then Cons(EscapeValue(s[1]), Decode(s[2..]))
    else None
  }

  /** The lenient reading: raw control characters, and backslashes that escape nothing, stand for themselves. */
  function Lenient(s: string): seq<nat> {
    if s == "" then []
    else if s[0] != '\\' then [s[0] as int] + Lenient(s[1..])
    else if IsUnicodeEscape(s) then [CodeUnit(s)] + Lenient(s[6..])
    else if |s| > 1 && ValidEscape(s[1]) && s[1] != 'u' then [EscapeValue(s[1])] + Lenient(s[2..])
    else ['\\' as int] + Lenient(s[1..])
  }

  /** The content of a literal: no quote that is not escaped. */
  predicate IsContent(s: string) {
    if s == "" then true
    else if s[0] == '"' then false
    else if s[0] == '\\' && |s| > 1 then IsContent(s[2..])
    else IsContent(s[1..])
  }

  /** Somewhere \u is not followed by four hexadecimal digits. */
  predicate HasBadUnicode(s: string)
    requires IsContent(s)
    decreases |s|
  {
    if s == "" then false
    else if s[0] != '\\' || |s| == 1 then HasBadUnicode(s[1..])
    else if s[1] == 'u' && !IsUnicodeEscape(s) then true
    else HasBadUnicode(s[2..])
  }

  lemma HexDigitValue(n: nat)
    requires n < 16
    ensures IsHex(HexDigit(n)) && HexValue(HexDigit(n)) == n
  {
  }

  lemma DecodeControl(c: char, r: string)
    requires IsControl(c)
    ensures Decode(EscapeControl(c) + r) == Cons(c as int, Decode(r))
  {
    hide Decode, HexValue;
    var t := EscapeControl(c);
    if |t| == 6 {
      HexDigitValue(0);
      HexDigitValue(c as int / 16);
      HexDigitValue(c as int % 16);
      FourDigits((t + r)[2..]);
      assert HexDigit(0) == '0' && t[2] == '0' && t[3] == '0';
      assert CodeUnit(t + r) == c as int;
      DecodeUnicode(t, r);
    } else {
      DecodeShort(t[1], r);
      assert t == ['\\', t[1]];
    }
  }

  lemma DecodeUnicode(t: string, r: string)
    requires |t| == 6 && IsUnicodeEscape(t + r)
    ensures Decode(t + r) == Cons(CodeUnit(t + r), Decode(r))
  {
    assert (t + r)[6..] == r;
  }

  lemma DecodeShort(c: char, r: string)
    requires ValidEscape(c) && c != 'u'
    ensures Decode(['\\', c] + r) == Cons(EscapeValue(c), Decode(r))
  {
    assert (['\\', c] + r)[2..] == r;
  }

  lemma DecodePlain(c: char, r: string)
    requires c != '"' && c != '\\' && !IsControl(c)
    ensures Decode([c] + r) == Cons(c as int, Decode(r))
  {
    assert ([c] + r)[1..] == r;
  }

  // \u without four digits stays malformed, whatever is repaired after it.
  lemma DecodeBadUnicode(s: string)
    requires |s| > 1 && s[0] == '\\' && s[1] == 'u' && !IsUnicodeEscape(s)
    ensures Decode(s[..2] + Repair(s[2..], true)) == None
  {
    hide Repair;
    HexRunKept(s[2..]);
    ShortRun(s[2..]);
    assert (s[..2] + Repair(s[2..], true))[2..] == Repair(s[2..], true);
  }

  lemma {:induction false} PlainIsContent(t: string, r: string)
    requires Plain(t)
    ensures IsContent(t + r) <==> IsContent(r)
    ensures IsContent(r) ==> IsContent(t + r) && (HasBadUnicode(t + r) <==> HasBadUnicode(r))
    decreases |t|
  {
    if t == "" {
      assert t + r == r;
    } else {
      assert (t + r)[1..] == t[1..] + r;
      PlainIsContent(t[1..], r);
    }
  }

  /** What the first piece means, and whether it is a malformed \u. */
  predicate MalformedFirst(s: string) { |s| > 1 && s[0] == '\\' && s[1] == 'u' && !IsUnicodeEscape(s) }

  lemma ContentAfterPiece(s: string)
    requires s != "" && IsContent(s)
    ensures s[0] != '"'
    ensures IsContent(s[FirstPiece(s).length..])
    ensures HasBadUnicode(s) <==> MalformedFirst(s) || HasBadUnicode(s[FirstPiece(s).length..])
  {
    hide FirstPiece, IsUnicodeEscape, ValidEscape, Plain;
    PieceKinds(s);
    UIsValid();
    if s[0] == '\\' && |s| > 1 {
      if IsUnicodeEscape(s) {
        UnicodeText(s);
        PlainIsContent(s[2..6], s[6..]);
      } else if !ValidEscape(s[1]) {
        InvalidText(s);
        PlainIsContent(s[1..2], s[2..]);
      }
    }
  }

  lemma UIsValid()
    ensures ValidEscape('u')
  {
  }

  lemma DecodePiece(s: string, r: string)
    requires s != "" && s[0] != '"' && !MalformedFirst(s)
    ensures Lenient(s) == [Lenient(s)[0]] + Lenient(s[FirstPiece(s).length..])
    ensures Decode(FirstPiece(s).text + r) == Cons(Lenient(s)[0], Decode(r))
  {
    hide Decode, EscapeControl;
    if s[0] == '\\' {
      if |s| > 1 && IsUnicodeEscape(s) {
        SixCharacters(s, r);
        DecodeUnicode(s[..6], r);
        assert CodeUnit(s[..6] + r) == CodeUnit(s);
      } else if |s| > 1 && ValidEscape(s[1]) {
        DecodeShort(s[1], r);
        assert s[..2] == ['\\', s[1]];
      } else {
        DecodeShort('\\', r);
        assert "\\\\" == ['\\', '\\'];
      }
    } else if IsControl(s[0]) {
      DecodeControl(s[0], r);
    } else {
      DecodePlain(s[0], r);
      assert s[..1] == [s[0]];
    }
  }

  /** A repaired literal means what the original means when read leniently, exactly if every \u in it is
      followed by four hexadecimal digits; otherwise it stays malformed. */
  lemma {:induction false} RepairedMeansLenient(s: string)
    requires IsContent(s)
    ensures Decode(Repair(s, true)) == if HasBadUnicode(s) then None else Some(Lenient(s))
    decreases |s|
  {
    hide FirstPiece, Decode, Lenient, IsUnicodeEscape, HasBadUnicode;
    if s == "" {
      DecodeNothing();
    } else {
      var p := FirstPiece(s);
      var rest := Repair(s[p.length..], true);
      ContentAfterPiece(s);
      RepairedMeansLenient(s[p.length..]);
      if MalformedFirst(s) {
        MalformedPiece(s);
        DecodeBadUnicode(s);
      } else {
        DecodePiece(s, rest);
      }
    }
  }

  lemma DecodeNothing()
    ensures Decode("") == Some([]) && Lenient("") == [] && !HasBadUnicode("")
  {
  }

  lemma MalformedPiece(s: string)
    requires MalformedFirst(s)
    ensures FirstPiece(s) == Piece(2, s[..2])
  {
  }

  /** No backslash is left at the end with nothing to escape. */
  predicate Closed(s: string) {
    if s == "" then true
    else if s[0] == '\\' then |s| > 1 && Closed(s[2..])
    else Closed(s[1..])
  }

  lemma {:induction false} HexRunBeforeQuote(s: string, rest: string)
    ensures HexRun(s + "\"" + rest) == HexRun(s)
    decreases |s|
  {
    if s != "" {
      assert (s + "\"" + rest)[1..] == s[1..] + "\"" + rest;
      HexRunBeforeQuote(s[1..], rest);
    }
  }

  lemma PieceBeforeQuote(s: string, rest: string)
    requires s != "" && s[0] != '"' && Closed(s)
    ensures FirstPiece(s + "\"" + rest) == FirstPiece(s)
    ensures (s + "\"" + rest)[FirstPiece(s).length..] == s[FirstPiece(s).length..] + "\"" + rest
  {
    hide FirstPiece, IsUnicodeEscape, ValidEscape, EscapeControl;
    var t := s + "\"" + rest;
    assert t[0] == s[0];
    if s[0] == '\\' {
      assert |s| > 1 && t[1] == s[1];
      SameEscape(s, rest);
      PieceKinds(s);
      PieceKinds(t);
    } else {
      PlainPiece(s, t);
    }
  }

  lemma PlainPiece(s: string, t: string)
    requires s != "" && t != "" && s[0] == t[0] && s[0] != '"' && s[0] != '\\'
    ensures FirstPiece(s) == FirstPiece(t)
  {
    assert s[..1] == t[..1];
  }

  lemma SameEscape(s: string, rest: string)
    requires |s| > 1
    ensures IsUnicodeEscape(s + "\"" + rest) <==> IsUnicodeEscape(s)
  {
    var t := s + "\"" + rest;
    assert t[2..] == s[2..] + "\"" + rest;
    HexRunBeforeQuote(s[2..], rest);
    ShortRun(s[2..]);
  }

  lemma {:induction false} PlainClosed(t: string, r: string)
    requires Plain(t)
    ensures Closed(t + r) <==> Closed(r)
    decreases |t|
  {
    if t == "" {
      assert t + r == r;
    } else {
      assert (t + r)[1..] == t[1..] + r;
      PlainClosed(t[1..], r);
    }
  }

  lemma ClosedAfterPiece(s: string)
    requires s != "" && s[0] != '"' && Closed(s)
    ensures Closed(s[FirstPiece(s).length..])
  {
    hide FirstPiece, IsUnicodeEscape, ValidEscape, Plain;
    PieceKinds(s);
    if s[0] == '\\' {
      if IsUnicodeEscape(s) {
        UnicodeText(s);
        PlainClosed(s[2..6], s[6..]);
      } else if !ValidEscape(s[1]) {
        InvalidText(s);
        PlainClosed(s[1..2], s[2..]);
      }
    }
  }

  /** A text is repaired literal by literal. */
  lemma {:induction false} LiteralIsRepairedAlone(content: string, rest: string)
    requires IsContent(content) && Closed(content)
    ensures Repair(content + "\"" + rest, true) == Repair(content, true) + "\"" + Repair(rest, false)
    decreases |content|
  {
    hide FirstPiece, Closed;
    var all := content + "\"" + rest;
    if content == "" {
      assert all[0] == '"' && all[1..] == rest && all[..1] == "\"";
      assert "" + "\"" + Repair(rest, false) == "\"" + Repair(rest, false);
    } else {
      ContentAfterPiece(content);
      PieceBeforeQuote(content, rest);
      ClosedAfterPiece(content);
      var p := FirstPiece(content);
      LiteralIsRepairedAlone(content[p.length..], rest);
      assert all != "" && all[0] == content[0];
      assert p.text + (Repair(content[p.length..], true) + "\"" + Repair(rest, false))
          == p.text + Repair(content[p.length..], true) + "\"" + Repair(rest, false);
    }
  }

  /** A backslash and u without four digits is not repaired: the literal stays malformed. */
  lemma BadUnicodeStaysMalformed()
    ensures IsContent("\\uZZ") && Decode(Repair("\\uZZ", true)) == None
  {
    hide Repair, Decode, Lenient;
    var s := "\\uZZ";
    assert s[2..] == "ZZ" && "ZZ"[1..] == "Z" && "Z"[1..] == "";
    assert IsContent("Z") && IsContent("ZZ");
    assert HasBadUnicode(s);
    RepairedMeansLenient(s);
  }

  // ---------- The escapes of JSON ----------

  /** The letters that may follow a backslash, and the code units they stand for (section 7 of RFC 8259). */
  const ESCAPES: map<char, nat> :=
    map['"' := 0x22, '\\' := 0x5C, '/' := 0x2F, 'b' := 0x08, 'f' := 0x0C, 'n' := 0x0A, 'r' := 0x0D, 't' := 0x09]

  /** A backslash and a letter mean what the list says and stay as they are; with any other letter, that of a
      unicode escape apart, they mean nothing and the backslash is doubled. */
  lemma EscapeMeans(c: char, rest: string)
    requires c != 'u'
    ensures var s := ['\\', c] + rest;
            if c in ESCAPES
            then Repair(s, true) == ['\\', c] + Repair(rest, true) && Decode(s) == Cons(ESCAPES[c], Decode(rest))
            else Repair(s, true) == ['\\', '\\'] + Repair([c] + rest, true) && Decode(s) == None
  {
    var s := ['\\', c] + rest;
    NoUnicodeEscape(s);
    assert s[..2] == ['\\', c] && s[2..] == rest && s[1..] == [c] + rest;
  }
}
