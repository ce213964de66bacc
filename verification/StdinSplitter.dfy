/** Splitting terminal input into key and escape sequences: the tokenizer of the stdin buffer. */
module StdinSplitter {
  import opened Text

  const ESC_ESC := [ESC, ESC]

  datatype Status = Complete | Incomplete | NotEscape

  // A mouse report with three numbers: <B;X;Y followed by M or m.
  predicate MouseReport(payload: string) {
    && |payload| >= 2 && payload[0] == '<' && payload[|payload| - 1] in {'M', 'm'}
    && var parts := SplitOn(payload[1..|payload| - 1], ';');
       |parts| == 3 && forall p :: p in parts ==> p != "" && Digits(p)
  }

  /** A control sequence ends with a byte from 0x40 to 0x7E; a mouse report only with its full shape. */
  function CsiStatus(data: string): Status
    requires |data| >= 2
  {
    if |data| < 3 then Incomplete
    else
      var payload := data[2..];
      if 0x40 <= payload[|payload| - 1] as int <= 0x7E && (payload[0] != '<' || MouseReport(payload))
      then Complete else Incomplete
  }

  function IsCompleteSequence(data: string): Status {
    if data == "" || data[0] != ESC then NotEscape
    else if |data| == 1 then Incomplete
    else if data[1] == '[' then
      if |data| >= 3 && data[2] == 'M' then (if |data| >= 6 then Complete else Incomplete) else CsiStatus(data)
    else if data[1] == ']' then
      if EndsWith(data, TERMINATOR) || EndsWith(data, [BEL]) then Complete else Incomplete
    else if data[1] == 'P' || data[1] == '_' then
      if EndsWith(data, TERMINATOR) then Complete else Incomplete
    else if data[1] == 'O' then (if |data| >= 3 then Complete else Incomplete)
    else Complete
  }

  predicate OpensSequence(c: char) { c == '[' || c == ']' || c == 'O' || c == 'P' || c == '_' }

  /** The length of the shortest prefix, of at least `n` characters, that is not incomplete; one more
      than the length of the input if there is none. */
  function SequenceEnd(s: string, n: nat): (end: nat)
    requires n <= |s| + 1
    ensures n <= end <= |s| + 1
    ensures end <= |s| ==> !IsCompleteSequence(s[..end]).Incomplete?
    ensures forall k :: n <= k < end ==> IsCompleteSequence(s[..k]).Incomplete?
    decreases |s| + 1 - n
  {
    if n > |s| then n
    else if !IsCompleteSequence(s[..n]).Incomplete? then n
    else SequenceEnd(s, n + 1)
  }

  /** The length of the first token of an input that starts with ESC, once the token is complete. ESC ESC
      gives way to a sequence that its second ESC opens. */
  function TokenLength(s: string): (n: nat)
    requires s != "" && s[0] == ESC && SequenceEnd(s, 1) <= |s|
    ensures 1 <= n <= |s|
  {
    var end := SequenceEnd(s, 1);
    if s[..end] == ESC_ESC && end < |s| && OpensSequence(s[end]) then 1 else end
  }

  function Extract(buffer: string): (r: (seq<string>, string))
    decreases |buffer|
  {
    if buffer == "" then ([], "")
    else if buffer[0] != ESC then
      var (sequences, remainder) := Extract(buffer[1..]);
      ([buffer[..1]] + sequences, remainder)
    else if SequenceEnd(buffer, 1) > |buffer| then ([], buffer)
    else
      var n := TokenLength(buffer);
      var (sequences, remainder) := Extract(buffer[n..]);
      ([buffer[..n]] + sequences, remainder)
  }

  function Concat(parts: seq<string>): string {
    if parts == [] then "" else parts[0] + Concat(parts[1..])
  }

  // ---------- Nothing is lost, and what is kept back is one unfinished sequence ----------

  lemma ConcatFirst(first: string, rest: seq<string>, remainder: string)
    ensures Concat([first] + rest) + remainder == first + (Concat(rest) + remainder)
  {
    assert ([first] + rest)[1..] == rest;
  }

  lemma {:induction false} ExtractIsLossless(buffer: string)
    ensures var (sequences, remainder) := Extract(buffer);
            && Concat(sequences) + remainder == buffer
            && (forall s :: s in sequences ==> s != "")
            && Extract(remainder) == ([], remainder)
            && (remainder != "" ==> remainder[0] == ESC && SequenceEnd(remainder, 1) > |remainder|)
    decreases |buffer|
  {
    hide IsCompleteSequence, SequenceEnd, TokenLength, Concat;
    var (sequences, remainder) := Extract(buffer);
    if buffer == "" {
      assert sequences == [];
      NothingConcats();
    } else if buffer[0] != ESC {
      ExtractIsLossless(buffer[1..]);
      ConcatFirst(buffer[..1], Extract(buffer[1..]).0, remainder);
    } else if SequenceEnd(buffer, 1) <= |buffer| {
      var n := TokenLength(buffer);
      ExtractIsLossless(buffer[n..]);
      ConcatFirst(buffer[..n], Extract(buffer[n..]).0, remainder);
    } else {
      NothingConcats();
    }
  }

  lemma NothingConcats()
    ensures Concat([]) == ""
  {
  }

  // ---------- What a token is ----------

  /** A single character, or an escape sequence that is complete and was incomplete before its last
      character. */
  ghost predicate Token(t: string) {
    || |t| == 1
    || (|t| > 1 && t[0] == ESC && IsCompleteSequence(t).Complete?
        && forall k :: 1 <= k < |t| ==> IsCompleteSequence(t[..k]).Incomplete?)
  }

  lemma {:induction false} ExtractsTokens(buffer: string)
    ensures forall t :: t in Extract(buffer).0 ==> Token(t)
    decreases |buffer|
  {
    hide SequenceEnd, TokenLength;
    if buffer != "" && buffer[0] != ESC {
      ExtractsTokens(buffer[1..]);
    } else if buffer != "" && SequenceEnd(buffer, 1) <= |buffer| {
      ExtractsTokens(buffer[TokenLength(buffer)..]);
      FirstIsToken(buffer);
    }
  }

  lemma FirstIsToken(s: string)
    requires s != "" && s[0] == ESC && SequenceEnd(s, 1) <= |s|
    ensures Token(s[..TokenLength(s)])
  {
    hide SequenceEnd;
    var end := SequenceEnd(s, 1);
    assert end > 1 by { assert s[..1] == [ESC]; }
    forall k | 1 <= k < end ensures IsCompleteSequence(s[..end][..k]).Incomplete? {
      assert s[..end][..k] == s[..k];
    }
  }

  /** A control sequence other than a mouse report ends at its first byte from 0x40 to 0x7E
      (section 5.4 of ECMA-48). */
  lemma CsiTokenEndsAtFinalByte(t: string)
    requires Token(t) && |t| >= 3 && t[1] == '[' && t[2] != 'M' && t[2] != '<'
    ensures 0x40 <= t[|t| - 1] as int <= 0x7E
    ensures forall i :: 2 <= i < |t| - 1 ==> !(0x40 <= t[i] as int <= 0x7E)
  {
    forall i | 2 <= i < |t| - 1 ensures !(0x40 <= t[i] as int <= 0x7E) {
      assert IsCompleteSequence(t[..i + 1]).Incomplete?;
      assert t[..i + 1][2..][i - 2] == t[i] && t[..i + 1][2..][0] == t[2];
    }
  }

  // ---------- Splitting the input into chunks ----------

  lemma {:induction false} CompleteStaysComplete(a: string, b: string, n: nat)
    requires n <= |a| + 1 && SequenceEnd(a, n) <= |a|
    ensures SequenceEnd(a + b, n) == SequenceEnd(a, n)
    decreases |a| + 1 - n
  {
    assert (a + b)[..n] == a[..n];
    if IsCompleteSequence(a[..n]).Incomplete? {
      CompleteStaysComplete(a, b, n + 1);
    }
  }

  /** The input seen so far ends exactly on an ESC ESC token, and what comes next opens a sequence. */
  predicate CutsEscEsc(sequences: seq<string>, remainder: string, next: string) {
    && remainder == "" && sequences != [] && sequences[|sequences| - 1] == ESC_ESC
    && next != "" && OpensSequence(next[0])
  }

  ghost predicate CutIsHarmless(a: string, b: string) {
    var (before, kept) := Extract(a);
    var (after, remainder) := Extract(kept + b);
    var (whole, rest) := Extract(a + b);
    if CutsEscEsc(before, kept, b)
    then
      && |whole| >= |before| && whole[..|before| - 1] == before[..|before| - 1]
      && whole[|before| - 1] == [ESC] && before[|before| - 1] == ESC_ESC
    else whole == before + after && rest == remainder
  }

  // Both inputs start with the same token.
  lemma CutAfterToken(a: string, n: nat, b: string)
    requires 1 <= n <= |a| && CutIsHarmless(a[n..], b)
    requires Extract(a) == ([a[..n]] + Extract(a[n..]).0, Extract(a[n..]).1)
    requires Extract(a + b) == ([a[..n]] + Extract(a[n..] + b).0, Extract(a[n..] + b).1)
    requires !(a[..n] == ESC_ESC && n == |a| && b != "" && OpensSequence(b[0]))
    ensures CutIsHarmless(a, b)
  {
    hide Extract, OpensSequence;
    var before, kept := Extract(a[n..]).0, Extract(a[n..]).1;
    NothingExtracted(a[n..]);
    if before != [] {
      SameEnd(a[..n], before, kept, b);
    }
    if CutsEscEsc(before, kept, b) {
      OneAhead(a[..n], before, Extract(a[n..] + b).0);
    } else {
      assert [a[..n]] + (before + Extract(kept + b).0) == [a[..n]] + before + Extract(kept + b).0;
    }
  }

  lemma SameEnd(first: string, before: seq<string>, kept: string, next: string)
    requires before != []
    ensures CutsEscEsc([first] + before, kept, next) <==> CutsEscEsc(before, kept, next)
  {
    hide OpensSequence;
    assert ([first] + before)[|before|] == before[|before| - 1];
  }

  lemma OneAhead(first: string, before: seq<string>, whole: seq<string>)
    requires before != [] && |whole| >= |before|
    ensures ([first] + before)[..|before|] == [first] + before[..|before| - 1]
    ensures ([first] + whole)[..|before|] == [first] + whole[..|before| - 1]
    ensures ([first] + whole)[|before|] == whole[|before| - 1]
  {
  }

  lemma NothingExtracted(s: string)
    ensures Extract(s) == ([], "") ==> s == ""
  {
    hide IsCompleteSequence, SequenceEnd, TokenLength;
  }

  lemma ExtractFirst(s: string, n: nat)
    requires s != "" && 1 <= n <= |s|
    requires if s[0] != ESC then n == 1 else SequenceEnd(s, 1) <= |s| && n == TokenLength(s)
    ensures Extract(s) == ([s[..n]] + Extract(s[n..]).0, Extract(s[n..]).1)
  {
    hide IsCompleteSequence, SequenceEnd, TokenLength;
  }

  /** Cutting the input anywhere changes nothing, unless the cut parts an ESC ESC token from a character
      that opens a sequence. In that case the last token before the cut comes out differently. */
  lemma {:induction false} CutAnywhere(a: string, b: string)
    ensures CutIsHarmless(a, b)
    decreases |a|
  {
    hide IsCompleteSequence, SequenceEnd, Extract, CutIsHarmless;
    if a == "" || (a[0] == ESC && SequenceEnd(a, 1) > |a|) {
      CutInUnfinished(a, b);
    } else if a[0] != ESC {
      CutAnywhere(a[1..], b);
      ExtractFirst(a, 1);
      ExtractFirst(a + b, 1);
      CutText(a, 1, b);
      CutAfterToken(a, 1, b);
    } else {
      CompleteStaysComplete(a, b, 1);
      var end := SequenceEnd(a, 1);
      CutText(a, end, b);
      if a[..end] == ESC_ESC && end == |a| && b != "" && OpensSequence(b[0]) {
        CutThroughEscEsc(a, b);
      } else {
        var n := TokenLength(a);
        CutText(a, n, b);
        assert TokenLength(a + b) == n;
        CutAnywhere(a[n..], b);
        ExtractFirst(a, n);
        ExtractFirst(a + b, n);
        CutAfterToken(a, n, b);
      }
    }
  }

  lemma CutText(a: string, n: nat, b: string)
    requires n <= |a|
    ensures (a + b)[n..] == a[n..] + b && (a + b)[..n] == a[..n]
  {
  }

  lemma CutInUnfinished(a: string, b: string)
    requires a == "" || (a[0] == ESC && SequenceEnd(a, 1) > |a|)
    ensures CutIsHarmless(a, b)
  {
    hide IsCompleteSequence, SequenceEnd, TokenLength;
    assert Extract(a) == ([], a);
  }

  lemma CutThroughEscEsc(a: string, b: string)
    requires a == ESC_ESC && SequenceEnd(a, 1) == 2 == SequenceEnd(a + b, 1) && b != "" && OpensSequence(b[0])
    ensures CutIsHarmless(a, b)
  {
    hide IsCompleteSequence, SequenceEnd, Extract;
    CutText(a, 2, b);
    assert (a + b)[..2] == ESC_ESC && TokenLength(a) == 2 && TokenLength(a + b) == 1;
    ExtractFirst(a, 2);
    ExtractFirst(a + b, 1);
    assert Extract(a[2..]) == ([], "") by { NothingLeft(); assert a[2..] == ""; }
    assert Extract(a).0 == [ESC_ESC];
    assert (a + b)[..1] == [ESC];
  }

  lemma NothingLeft()
    ensures Extract("") == ([], "")
  {
  }
}
