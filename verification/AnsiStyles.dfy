/** Terminal styles as text: what escape codes do to a style, and the codes that bring it back. */
module AnsiStyles {
  import opened Options
  import opened Text

  datatype Hyperlink = Hyperlink(params: string, url: string, terminator: string)

  datatype Look = Look(bold: bool, dim: bool, italic: bool, underline: bool, blink: bool, inverse: bool,
                       hidden: bool, strikethrough: bool)

  datatype Style = Style(look: Look, fgColor: Option<string>, bgColor: Option<string>,
                         activeHyperlink: Option<Hyperlink>)

  const NO_LOOK := Look(false, false, false, false, false, false, false, false)
  const PLAIN := Style(NO_LOOK, None, None, None)

  const CSI := [ESC, '[']
  const OSC := [ESC, ']']
  const APC := [ESC, '_']
  const OSC8 := [ESC, ']', '8', ';']

  // ---------- Codes in a text ----------

  /** The length of the text up to and including the first final letter at or after `j`; 0 if there is none. */
  function CsiEnd(s: string, j: nat): (n: nat)
    requires j <= |s|
    ensures n == 0 || j < n <= |s|
    decreases |s| - j
  {
    if j == |s| then 0 else if s[j] in {'m', 'G', 'K', 'H', 'J'} then j + 1 else CsiEnd(s, j + 1)
  }

  /** The length of the text up to and including the first BEL or ESC \ at or after `j`; 0 if there is none. */
  function StringEnd(s: string, j: nat): (n: nat)
    requires j <= |s|
    ensures n == 0 || j < n <= |s|
    decreases |s| - j
  {
    if j == |s| then 0
    else if s[j] == BEL then j + 1
    else if s[j] == ESC && j + 1 < |s| && s[j + 1] == '\\' then j + 2
    else StringEnd(s, j + 1)
  }

  /** The length of the escape code with which the text starts; 0 if it starts with none. */
  function CodeLength(s: string): (n: nat)
    ensures n <= |s|
  {
    if CSI <= s then CsiEnd(s, 2)
    else if OSC <= s || APC <= s then StringEnd(s, 2)
    else 0
  }

  predicate IsCode(code: string) { code != "" && CodeLength(code) == |code| }

  // ---------- Hyperlinks ----------

  datatype LinkCode = NoLink | Close | Open(link: Hyperlink)

  function ParseOsc8Hyperlink(code: string): LinkCode {
    if !(OSC8 <= code) then NoLink
    else
      var terminator := if EndsWith(code, [BEL]) then [BEL] else TERMINATOR;
      var body := if |code| - |terminator| < 4 then "" else code[4..|code| - |terminator|];
      var separator := IndexOf(body, ";");
      if separator == -1 then NoLink
      else if body[separator + 1..] == "" then Close
      else Open(Hyperlink(body[..separator], body[separator + 1..], terminator))
  }

  function FormatOsc8Hyperlink(link: Hyperlink): string {
    OSC8 + link.params + ";" + link.url + link.terminator
  }

  function FormatOsc8Close(terminator: string): string {
    OSC8 + ";" + terminator
  }

  // ---------- Graphic rendition ----------

  predicate ParameterChar(c: char) { Digit(c) || c == ';' }

  function ParametersFrom(s: string, j: nat): (n: nat)
    requires j <= |s|
    ensures j <= n <= |s|
    ensures forall k :: j <= k < n ==> ParameterChar(s[k])
    ensures n < |s| ==> !ParameterChar(s[n])
    decreases |s| - j
  {
    if j == |s| || !ParameterChar(s[j]) then j else ParametersFrom(s, j + 1)
  }

  /** The parameters of the first ESC [ ... m in a code. */
  function SgrParameters(code: string): Option<string> {
    if code == "" then None
    else if CSI <= code && ParametersFrom(code, 2) < |code| && code[ParametersFrom(code, 2)] == 'm'
    then Some(code[2..ParametersFrom(code, 2)])
    else SgrParameters(code[1..])
  }

  function ParseInt(part: string): Option<nat> {
    if part == "" || !Digits(part) then None else Some(Number(part))
  }

  function DigitChar(n: nat): (c: char)
    requires n < 10
    ensures Digit(c) && c as int - '0' as int == n
  {
    '0' + n as char
  }

  function Decimal(n: nat): string
    requires n < 1000
  {
    (if n >= 100 then [DigitChar(n / 100)] else "")
    + (if n >= 10 then [DigitChar(n / 10 % 10)] else "")
    + [DigitChar(n % 10)]
  }

  function Switch(on: bool, n: nat, sets: nat, clears: nat): bool {
    if n == sets then true else if n == clears || n == 0 then false else on
  }

  /** What a single parameter does to each attribute and colour. */
  function LookAfter(l: Look, n: nat): Look {
    Look(Switch(l.bold, n, 1, 22) && n != 21, Switch(l.dim, n, 2, 22), Switch(l.italic, n, 3, 23),
         Switch(l.underline, n, 4, 24), Switch(l.blink, n, 5, 25), Switch(l.inverse, n, 7, 27),
         Switch(l.hidden, n, 8, 28), Switch(l.strikethrough, n, 9, 29))
  }

  predicate IsForeground(n: nat) { 30 <= n <= 37 || 90 <= n <= 97 }

  predicate IsBackground(n: nat) { 40 <= n <= 47 || 100 <= n <= 107 }

  function FgAfter(fg: Option<string>, n: nat): Option<string> {
    if n == 0 || n == 39 then None else if IsForeground(n) then Some(Decimal(n)) else fg
  }

  function BgAfter(bg: Option<string>, n: nat): Option<string> {
    if n == 0 || n == 49 then None else if IsBackground(n) then Some(Decimal(n)) else bg
  }

  function Standard(s: Style, code: Option<nat>): Style {
    if code.None? then s
    else
      Style(LookAfter(s.look, code.value), FgAfter(s.fgColor, code.value), BgAfter(s.bgColor, code.value),
            s.activeHyperlink)
  }

  function SetColor(s: Style, code: nat, color: string): Style {
    if code == 38 then s.(fgColor := Some(color)) else s.(bgColor := Some(color))
  }

  /** How many parameters the first one takes: 38 and 48 take a palette index or three components. */
  function Taken(parts: seq<string>): (n: nat)
    requires parts != []
    ensures 1 <= n <= |parts|
  {
    var code := ParseInt(parts[0]);
    if code != Some(38) && code != Some(48) then 1
    else if |parts| >= 3 && parts[1] == "5" then 3
    else if |parts| >= 5 && parts[1] == "2" then 5
    else 1
  }

  function ApplyFirst(s: Style, parts: seq<string>): Style
    requires parts != []
  {
    var code := ParseInt(parts[0]);
    if Taken(parts) > 1 then SetColor(s, code.value, Join(parts[..Taken(parts)], ";")) else Standard(s, code)
  }

  function Apply(s: Style, parts: seq<string>): Style
    decreases |parts|
  {
    if parts == [] then s else Apply(ApplyFirst(s, parts), parts[Taken(parts)..])
  }

  function Process(s: Style, code: string): Style {
    var link := ParseOsc8Hyperlink(code);
    if !link.NoLink? then s.(activeHyperlink := if link.Open? then Some(link.link) else None)
    else if !EndsWith(code, "m") then s
    else
      match SgrParameters(code)
      case None => s
      case Some(params) =>
        if params == "" || params == "0" then PLAIN.(activeHyperlink := s.activeHyperlink)
        else Apply(s, SplitOn(params, ';'))
  }

  /** The style after all the codes of a text. */
  function Track(s: Style, text: string): Style
    decreases |text|
  {
    if text == "" then s
    else
      var n := CodeLength(text);
      if n > 0 then Track(Process(s, text[..n]), text[n..]) else Track(s, text[1..])
  }

  // ---------- The codes of a style ----------

  function Flag(on: bool, code: string): seq<string> { if on then [code] else [] }

  function Color(c: Option<string>): seq<string> { if c.Some? then [c.value] else [] }

  function AttributeCodes(l: Look): seq<string> {
    Flag(l.bold, "1") + Flag(l.dim, "2") + Flag(l.italic, "3") + Flag(l.underline, "4")
    + Flag(l.blink, "5") + Flag(l.inverse, "7") + Flag(l.hidden, "8") + Flag(l.strikethrough, "9")
  }

  function Codes(s: Style): seq<string> {
    AttributeCodes(s.look) + Color(s.fgColor) + Color(s.bgColor)
  }

  function SgrCode(codes: seq<string>): string { CSI + Join(codes, ";") + "m" }

  function ActiveCodes(s: Style): string {
    (if Codes(s) != [] then SgrCode(Codes(s)) else "")
    + (if s.activeHyperlink.Some? then FormatOsc8Hyperlink(s.activeHyperlink.value) else "")
  }

  function LineEndReset(s: Style): string {
    (if s.look.underline then SgrCode(["24"]) else "")
    + (if s.activeHyperlink.Some? then FormatOsc8Close(s.activeHyperlink.value.terminator) else "")
  }
}
