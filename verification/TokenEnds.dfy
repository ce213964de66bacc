/** Where each kind of terminal sequence ends, and the tokenizer measured by it. */
module TokenEnds {
  import opened Text
  import opened Options
  import opened StdinSplitter
  import StdinBuffer

  ghost predicate IsNumber(s: string) { s != "" && forall c :: c in s ==> '0' <= c <= '9' }

  /** Three numbers with semicolons between them, and then M or m. */
  ghost predicate IsMouse(s: string) {
    exists a, b, c, k ::
      s == MouseText(a, b, c, k) && IsNumber(a) && IsNumber(b) && IsNumber(c) && (k == 'M' || k == 'm')
  }

  function MouseText(a: string, b: string, c: string, k: char): string { a + ";" + b + ";" + c + [k] }

  /** An escape sequence ends behind its first `n` characters. ESC O takes one more character and ESC [ M
      three; a mouse report ends with its third number and letter, any other control sequence with a byte
      from 0x40 to 0x7E (section 5.4 of ECMA-48); an operating system command ends with BEL or ESC \, a
      device control string and an application program command with ESC \ only; ESC and any other
      character are a pair. */
  ghost predicate EndsAt(s: string, n: nat)
    requires 2 <= |s| && s[0] == ESC && n <= |s|
  {
    && 2 <= n
    && match s[1]
       case 'O' => n == 3
       case '[' =>
         && 3 <= n
         && (if s[2] == 'M' then n == 6 else if s[2] == '<' then IsMouse(s[3..n]) else '@' <= s[n - 1] <= '~')
       case ']' => 3 <= n && (s[n - 1] == BEL || (s[n - 2] == ESC && s[n - 1] == '\\'))
       case 'P' => s[n - 2] == ESC && s[n - 1] == '\\'
       case '_' => s[n - 2] == ESC && s[n - 1] == '\\'
       case _ => n == 2
  }

  ghost predicate FirstEnd(s: string, n: nat)
    requires 2 <= |s| && s[0] == ESC && n <= |s|
  {
    EndsAt(s, n) && forall k :: 0 <= k < n ==> !EndsAt(s, k)
  }

  /** Nothing in the input ends the sequence that it starts with. */
  ghost predicate Unfinished(s: string)
    requires s != "" && s[0] == ESC
  {
    |s| == 1 || forall k :: 0 <= k <= |s| ==> !EndsAt(s, k)
  }

  /** ESC ESC is a key of its own, except before a character that opens a sequence with the second ESC. */
  predicate OnlyEsc(s: string) {
    |s| >= 3 && s[0] == ESC && s[1] == ESC && s[2] in {'[', ']', 'O', 'P', '_'}
  }

  /** An input, the tokens that it consists of, and what is left. */
  ghost predicate Tokenized(s: string, tokens: seq<string>, rest: string)
    decreases |tokens|
  {
    if tokens == [] then rest == s && (s == "" || (s[0] == ESC && Unfinished(s)))
    else
      var n := |tokens[0]|;
      && 1 <= n <= |s| && tokens[0] == s[..n]
      && (if s[0] != ESC || OnlyEsc(s) then n == 1 else 2 <= |s| && FirstEnd(s, n))
      && Tokenized(s[n..], tokens[1..], rest)
  }

  // ---------- Mouse reports ----------

  lemma NumbersAreDigits(s: string)
    ensures IsNumber(s) <==> s != "" && Digits(s)
    ensures IsNumber(s) ==> ';' !in s
  {
  }

  lemma MouseIsReport(s: string)
    ensures IsMouse(s) <==> MouseReport("<" + s)
    ensures IsMouse(s) ==> s != "" && (s[|s| - 1] == 'M' || s[|s| - 1] == 'm')
  {
    var t := "<" + s;
    assert t[1..] == s;
    if |s| >= 1 {
      assert t[1..|t| - 1] == s[..|s| - 1];
    }
    if IsMouse(s) {
      var a, b, c, k :|
        s == MouseText(a, b, c, k) && IsNumber(a) && IsNumber(b) && IsNumber(c) && (k == 'M' || k == 'm');
      MouseParts(a, b, c);
      assert s[..|s| - 1] == a + ";" + b + ";" + c;
      NumbersAreDigits(a);
      NumbersAreDigits(b);
      NumbersAreDigits(c);
    }
    if MouseReport(t) {
      ReportIsMouse(s);
    }
  }

  lemma MouseParts(a: string, b: string, c: string)
    requires IsNumber(a) && IsNumber(b) && IsNumber(c)
    ensures SplitOn(a + ";" + b + ";" + c, ';') == [a, b, c]
  {
    hide SplitOn, IsNumber;
    NumbersAreDigits(a);
    NumbersAreDigits(b);
    NumbersAreDigits(c);
    SplitOne(a, ';');
    SplitOne(b, ';');
    SplitOne(c, ';');
    SplitTwo(b, ';', c);
    SplitTwo(a, ';', b + ";" + c);
    assert a + ";" + b + ";" + c == a + ";" + (b + ";" + c);
  }

  lemma ReportIsMouse(s: string)
    requires MouseReport("<" + s)
    ensures IsMouse(s)
  {
    hide SplitOn, IsNumber;
    var t := "<" + s;
    var k, middle := s[|s| - 1], s[..|s| - 1];
    assert t[1..|t| - 1] == middle;
    var parts := SplitOn(middle, ';');
    JoinOfSplit(middle, ';');
    var a, b, c := parts[0], parts[1], parts[2];
    assert parts == [a, b, c];
    JoinThree(a, b, c);
    NumbersAreDigits(a);
    NumbersAreDigits(b);
    NumbersAreDigits(c);
    assert a in parts && b in parts && c in parts;
    assert s == middle + [k] == MouseText(a, b, c, k);
  }

  lemma JoinThree(a: string, b: string, c: string)
    ensures Join([a, b, c], ";") == a + ";" + b + ";" + c
  {
    assert [a, b, c][1..] == [b, c] && [b, c][1..] == [c];
    assert Join([b, c], ";") == b + ";" + c;
    assert a + ";" + (b + ";" + c) == a + ";" + b + ";" + c;
  }

  // ---------- Single sequences ----------

  // A prefix counts as complete where the sequence ends; those that end after a fixed length stay complete.
  ghost predicate CompleteAt(s: string, n: nat)
    requires 2 <= |s| && s[0] == ESC && n <= |s|
  {
    var status := IsCompleteSequence(s[..n]);
    && (status.NotEscape? <==> n == 0)
    && (EndsAt(s, n) ==> status.Complete?)
    && (status.Complete? ==> EndsAt(s, n) || exists k :: 0 <= k < n && EndsAt(s, k))
  }

  lemma PairCompletes(s: string, n: nat)
    requires 2 <= |s| && s[0] == ESC && 2 <= n <= |s| && s[1] !in {'[', ']', 'P', '_'}
    ensures CompleteAt(s, n)
  {
    assert s[..n][0] == s[0] && s[..n][1] == s[1];
    if s[1] == 'O' && n > 3 {
      assert EndsAt(s, 3);
    } else if s[1] != 'O' && n > 2 {
      assert EndsAt(s, 2);
    }
  }

  lemma StringCompletes(s: string, n: nat)
    requires 2 <= |s| && s[0] == ESC && 2 <= n <= |s| && (s[1] == ']' || s[1] == 'P' || s[1] == '_')
    ensures CompleteAt(s, n)
  {
    var t := s[..n];
    assert t[0] == s[0] && t[1] == s[1];
    assert t[|t| - 2..] == [s[n - 2], s[n - 1]] && t[|t| - 1..] == [s[n - 1]];
  }

  lemma ControlCompletes(s: string, n: nat)
    requires 2 <= |s| && s[0] == ESC && 2 <= n <= |s| && s[1] == '['
    ensures CompleteAt(s, n)
  {
    hide MouseReport, IsMouse;
    var t := s[..n];
    assert t[0] == s[0] && t[1] == s[1];
    if n >= 3 {
      assert t[2] == s[2];
      if s[2] == 'M' {
        if n > 6 {
          assert EndsAt(s, 6);
        }
      } else {
        assert t[2..][|t| - 3] == s[n - 1] && t[2..][0] == s[2];
        if s[2] == '<' {
          MouseIsReport(s[3..n]);
          assert t[2..] == "<" + s[3..n];
        }
      }
    }
  }

  lemma CompleteIff(s: string, n: nat)
    requires 2 <= |s| && s[0] == ESC && n <= |s|
    ensures CompleteAt(s, n)
  {
    if n < 2 {
      assert n == 1 ==> s[..n] == [ESC];
    } else if s[1] == '[' {
      ControlCompletes(s, n);
    } else if s[1] == ']' || s[1] == 'P' || s[1] == '_' {
      StringCompletes(s, n);
    } else {
      PairCompletes(s, n);
    }
  }

  lemma EndIsFirst(s: string)
    requires 2 <= |s| && s[0] == ESC
    ensures var end := SequenceEnd(s, 1); if end <= |s| then FirstEnd(s, end) else Unfinished(s)
  {
    hide IsCompleteSequence, EndsAt;
    var end := SequenceEnd(s, 1);
    forall k: nat | k < end && k <= |s| ensures !EndsAt(s, k) {
      CompleteIff(s, k);
      NothingEndsAtOnce(s);
    }
    if end <= |s| {
      CompleteIff(s, end);
    }
  }

  lemma NothingEndsAtOnce(s: string)
    requires 2 <= |s| && s[0] == ESC
    ensures !EndsAt(s, 0) && !EndsAt(s, 1)
  {
  }

  // ---------- The tokenizer ----------

  lemma FirstTokenIs(s: string)
    requires s != "" && s[0] == ESC && SequenceEnd(s, 1) <= |s|
    ensures var n := TokenLength(s); |s| >= 2 && (if OnlyEsc(s) then n == 1 else FirstEnd(s, n))
  {
    hide SequenceEnd, EndsAt;
    OneIsUnfinished(s);
    EndIsFirst(s);
    EscPair(s);
  }

  lemma OneIsUnfinished(s: string)
    requires s != "" && s[0] == ESC
    ensures SequenceEnd(s, 1) <= |s| ==> |s| >= 2
  {
    assert s[..1] == [ESC];
  }

  lemma EscPair(s: string)
    requires 2 <= |s| && s[0] == ESC
    ensures SequenceEnd(s, 1) <= |s| ==> (s[..SequenceEnd(s, 1)] == ESC_ESC <==> s[1] == ESC)
    ensures s[1] == ESC ==> SequenceEnd(s, 1) == 2
  {
    hide SequenceEnd;
    EndIsFirst(s);
    if s[1] == ESC {
      assert EndsAt(s, 2);
      assert s[..2] == ESC_ESC;
    }
  }

  /** The tokenizer yields exactly the tokens of its input, each as long as its kind, and keeps back exactly
      what is unfinished. */
  lemma {:induction false} ExtractTokenizes(s: string, tokens: seq<string>, rest: string)
    ensures Extract(s) == (tokens, rest) <==> Tokenized(s, tokens, rest)
    decreases |s|
  {
    hide SequenceEnd, EndsAt, TokenLength, Unfinished, FirstEnd;
    if s == "" {
    } else if s[0] != ESC {
      if tokens != [] { ExtractTokenizes(s[1..], tokens[1..], rest); }
      assert tokens != [] && Extract(s[1..]) == (tokens[1..], rest) && tokens[0] == s[..1] ==>
          tokens == [s[..1]] + tokens[1..];
    } else if SequenceEnd(s, 1) > |s| {
      NoTokenYet(s);
    } else {
      var n := TokenLength(s);
      FirstTokenIs(s);
      NotUnfinished(s);
      if tokens != [] {
        ExtractTokenizes(s[n..], tokens[1..], rest);
        if Tokenized(s, tokens, rest) && !OnlyEsc(s) {
          OneFirstEnd(s, n, |tokens[0]|);
        }
        assert tokens == [tokens[0]] + tokens[1..];
      }
    }
  }

  lemma OneFirstEnd(s: string, n: nat, m: nat)
    requires 2 <= |s| && s[0] == ESC && n <= |s| && m <= |s| && FirstEnd(s, n) && FirstEnd(s, m)
    ensures n == m
  {
    hide EndsAt;
  }

  lemma NotUnfinished(s: string)
    requires s != "" && s[0] == ESC && SequenceEnd(s, 1) <= |s|
    ensures !Unfinished(s)
  {
    hide SequenceEnd, EndsAt;
    OneIsUnfinished(s);
    EndIsFirst(s);
  }

  lemma NoTokenYet(s: string)
    requires s != "" && s[0] == ESC && SequenceEnd(s, 1) > |s|
    ensures Unfinished(s) && !OnlyEsc(s) && (|s| >= 2 ==> forall n: nat :: n <= |s| ==> !FirstEnd(s, n))
  {
    hide SequenceEnd, EndsAt;
    if |s| >= 2 {
      EndIsFirst(s);
      EscPair(s);
    }
  }

  // ---------- Key reports ----------

  function ReportText(code: string, more: string): string { [ESC, '['] + code + more + "u" }

  /** Up to two further numbers behind colons, the first of them possibly left out. */
  ghost predicate FurtherNumbers(more: string) {
    || more == ""
    || (exists d :: Digits(d) && more == ":" + d)
    || (exists d, e :: Digits(d) && IsNumber(e) && more == ":" + d + ":" + e)
  }

  /** A key report of a printable character: its code, in decimal. */
  ghost predicate IsReportOf(s: string, n: int) {
    exists code, more ::
      s == ReportText(code, more) && IsNumber(code) && Digits(code) && Number(code) == n >= 32 && FurtherNumbers(more)
  }

  lemma NoColon(s: string)
    requires Digits(s)
    ensures SplitOn(s, ':') == [s]
  {
    SplitOne(s, ':');
  }

  lemma ReportParts(code: string, more: string)
    requires Digits(code) && FurtherNumbers(more)
    ensures var parts := SplitOn(code + more, ':');
            && parts[0] == code && |parts| <= 3 && (|parts| == 3 ==> parts[2] != "")
            && forall p :: p in parts ==> Digits(p)
  {
    hide SplitOn;
    if more == "" {
      NoColon(code);
      assert code + more == code;
    } else if d :| Digits(d) && more == ":" + d {
      OneFurther(code, d);
    } else {
      var d, e :| Digits(d) && IsNumber(e) && more == ":" + d + ":" + e;
      TwoFurther(code, d, e);
    }
  }

  lemma OneFurther(code: string, d: string)
    requires Digits(code) && Digits(d)
    ensures SplitOn(code + (":" + d), ':') == [code, d]
  {
    hide SplitOn;
    NoColon(code);
    NoColon(d);
    SplitTwo(code, ':', d);
    assert code + (":" + d) == code + ":" + d;
  }

  lemma TwoFurther(code: string, d: string, e: string)
    requires Digits(code) && Digits(d) && IsNumber(e)
    ensures SplitOn(code + (":" + d + ":" + e), ':') == [code, d, e] && Digits(e) && e != ""
  {
    hide SplitOn, IsNumber;
    NumbersAreDigits(e);
    OneFurther(d, e);
    NoColon(code);
    SplitTwo(code, ':', d + (":" + e));
    assert code + (":" + d + ":" + e) == code + ":" + (d + (":" + e));
  }

  lemma PartsAreReport(text: string)
    requires var parts := SplitOn(text, ':');
             |parts| <= 3 && (forall p :: p in parts ==> Digits(p)) && (|parts| == 3 ==> parts[2] != "")
    ensures SplitOn(text, ':')[0] <= text && FurtherNumbers(text[|SplitOn(text, ':')[0]|..])
  {
    hide SplitOn;
    var parts := SplitOn(text, ':');
    JoinOfSplit(text, ':');
    var code := parts[0];
    if |parts| == 1 {
      assert text == code;
    } else if |parts| == 2 {
      assert parts == [code, parts[1]] && parts[1..] == [parts[1]];
      assert text == code + (":" + parts[1]) && parts[1] in parts;
      assert text[|code|..] == ":" + parts[1];
    } else {
      JoinThreeColons(code, parts[1], parts[2]);
      assert parts == [code, parts[1], parts[2]] && parts[1] in parts && parts[2] in parts;
      NumbersAreDigits(parts[2]);
      assert text == code + (":" + parts[1] + ":" + parts[2]);
      assert text[|code|..] == ":" + parts[1] + ":" + parts[2];
    }
  }

  lemma JoinThreeColons(a: string, b: string, c: string)
    ensures Join([a, b, c], ":") == a + ":" + b + ":" + c
  {
    assert [a, b, c][1..] == [b, c] && [b, c][1..] == [c];
    assert Join([b, c], ":") == b + ":" + c;
    assert a + ":" + (b + ":" + c) == a + ":" + b + ":" + c;
  }

  /** Which sequences count as key reports, and of which character. */
  lemma KittyPrintableMeans(s: string, n: StdinBuffer.PrintableCode)
    ensures StdinBuffer.KittyPrintable(s) == Some(n) <==> IsReportOf(s, n)
  {
    hide SplitOn, FurtherNumbers, Number;
    if IsReportOf(s, n) {
      var code, more :|
        && s == ReportText(code, more) && IsNumber(code) && Digits(code) && Number(code) == n >= 32
        && FurtherNumbers(more);
      assert s[2..|s| - 1] == code + more;
      ReportParts(code, more);
    }
    if StdinBuffer.KittyPrintable(s) == Some(n) {
      var text := s[2..|s| - 1];
      PartsAreReport(text);
      var code := SplitOn(text, ':')[0];
      var more := text[|code|..];
      assert text == code + more && code in SplitOn(text, ':');
      NumbersAreDigits(code);
      assert s == ReportText(code, more);
    }
  }
}
