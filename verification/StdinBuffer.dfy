/** The stdin buffer: chunks of input in, key sequences and pastes out. */
module StdinBuffer {
  import opened Options
  import opened StdinSplitter
  import opened Text

  datatype Event = Data(sequence: string) | Paste(content: string)

  /** What a key report may stand for. */
  type PrintableCode = code: int | code >= 32 witness 32

  datatype Input = Input(buffer: string, pasteMode: bool, pasteBuffer: string, pending: Option<PrintableCode>)

  const PASTE_START := [ESC, '[', '2', '0', '0', '~']
  const PASTE_END := [ESC, '[', '2', '0', '1', '~']

  const EMPTY := Input("", false, "", None)

  // ---------- Emitting ----------

  /** The character that a plain Kitty key report stands for: ESC [ code u, with up to two further
      numbers after colons. */
  function KittyPrintable(sequence: string): Option<PrintableCode> {
    if !([ESC, '['] <= sequence) || |sequence| < 4 || sequence[|sequence| - 1] != 'u' then None
    else
      var parts := SplitOn(sequence[2..|sequence| - 1], ':');
      if |parts| <= 3 && (forall p :: p in parts ==> Digits(p)) && parts[0] != "" && (|parts| == 3 ==> parts[2] != "")
         && Number(parts[0]) >= 32
      then Some(Number(parts[0])) else None
  }

  /** A key report that was already delivered in its Kitty form is not delivered again as a plain character. */
  function EmitOne(sequence: string, pending: Option<PrintableCode>): (seq<Event>, Option<PrintableCode>) {
    if |sequence| == 1 && pending.Some? && pending.value == sequence[0] as int then ([], None)
    else ([Data(sequence)], KittyPrintable(sequence))
  }

  function EmitAll(sequences: seq<string>, pending: Option<PrintableCode>): (seq<Event>, Option<PrintableCode>) {
    if sequences == [] then ([], pending)
    else
      var (first, next) := EmitOne(sequences[0], pending);
      var (rest, last) := EmitAll(sequences[1..], next);
      (first + rest, last)
  }

  /** A plain Kitty report of a character followed by the character itself is delivered once, as the report;
      any other sequence after it is delivered too. The next occurrence of the character is delivered again. */
  lemma ReportedKeyArrivesOnce(report: string, next: string, pending: Option<PrintableCode>)
    requires KittyPrintable(report).Some?
    ensures var same := |next| == 1 && KittyPrintable(report).value == next[0] as int;
            && EmitAll([report, next], pending).0 == (if same then [Data(report)] else [Data(report), Data(next)])
            && (same ==> EmitAll([report, next, next], pending).0 == [Data(report), Data(next)])
  {
    hide KittyPrintable;
    ReportIsLong(report);
    assert [report, next, next][1..] == [next, next] && [next, next][1..] == [next] == [report, next][1..];
    assert [next][1..] == [];
    var after := KittyPrintable(report);
    assert EmitOne(report, pending) == ([Data(report)], after);
    assert EmitAll([next], None).0 == [Data(next)] + [];
    assert EmitAll([next], after).0 == EmitOne(next, after).0 + [];
  }

  lemma ReportIsLong(report: string)
    requires KittyPrintable(report).Some?
    ensures |report| >= 4
  {
  }

  // ---------- One chunk ----------

  function Size(st: Input): nat { |st.buffer| + |st.pasteBuffer| }

  function PasteStep(pasteBuffer: string, pending: Option<PrintableCode>): (Input, seq<Event>)
    decreases |pasteBuffer|, 0
  {
    var end := IndexOf(pasteBuffer, PASTE_END);
    if end == -1 then (Input("", true, pasteBuffer, pending), [])
    else
      var remaining := pasteBuffer[end + |PASTE_END|..];
      var (st, events) := if remaining == "" then (EMPTY, []) else Process(EMPTY, remaining);
      (st, [Paste(pasteBuffer[..end])] + events)
  }

  function Process(st: Input, chunk: string): (Input, seq<Event>)
    decreases Size(st) + |chunk|, 1
  {
    if chunk == "" && st.buffer == "" then
      var (events, pending) := EmitOne("", st.pending);
      (st.(pending := pending), events)
    else
      var buffer := st.buffer + chunk;
      if st.pasteMode then PasteStep(st.pasteBuffer + buffer, st.pending)
      else
        var start := IndexOf(buffer, PASTE_START);
        if start == -1 then
          var (sequences, remainder) := Extract(buffer);
          var (events, pending) := EmitAll(sequences, st.pending);
          (Input(remainder, false, st.pasteBuffer, pending), events)
        else
          var before := EmitAll(Extract(buffer[..start]).0, st.pending).0;
          var (next, events) := PasteStep(buffer[start + |PASTE_START|..], None);
          (next, before + events)
  }

  function Feed(st: Input, chunks: seq<string>): (Input, seq<Event>)
    decreases |chunks|
  {
    if chunks == [] then (st, [])
    else
      var (next, events) := Process(st, chunks[0]);
      var (last, more) := Feed(next, chunks[1..]);
      (last, events + more)
  }

  // ---------- Chunks do not matter ----------

  predicate Occurs(part: string, s: string) { IndexOf(s, part) != -1 }

  lemma {:induction false} EmitAllConcat(a: seq<string>, b: seq<string>, pending: Option<PrintableCode>)
    ensures var (first, middle) := EmitAll(a, pending);
            var (second, last) := EmitAll(b, middle);
            EmitAll(a + b, pending) == (first + second, last)
    decreases |a|
  {
    hide EmitOne;
    if a == [] {
      assert a + b == b && [] + EmitAll(b, pending).0 == EmitAll(b, pending).0;
    } else {
      assert (a + b)[1..] == a[1..] + b && (a + b)[0] == a[0];
      var (events, next) := EmitOne(a[0], pending);
      EmitAllConcat(a[1..], b, next);
      var (first, middle) := EmitAll(a[1..], next);
      assert events + (first + EmitAll(b, middle).0) == events + first + EmitAll(b, middle).0;
    }
  }

  lemma NotInSuffix(part: string, front: string, s: string)
    requires !Occurs(part, front + s)
    ensures !Occurs(part, s)
  {
    StillAt(part, front, s, "", IndexOf(s, part));
    assert front + s + "" == front + s;
  }

  lemma StillAt(part: string, front: string, s: string, back: string, k: int)
    ensures At(s, part, k) ==> At(front + s + back, part, |front| + k)
  {
    if At(s, part, k) {
      assert (front + s + back)[|front| + k..|front| + k + |part|] == s[k..k + |part|];
    }
  }

  lemma NotInPrefix(part: string, s: string, back: string)
    requires !Occurs(part, s + back)
    ensures !Occurs(part, s)
  {
    StillAt(part, "", s, back, IndexOf(s, part));
    assert "" + s + back == s + back;
  }

  // Without a paste in sight, one chunk is tokenized and its tokens are emitted.
  lemma ProcessPlain(st: Input, chunk: string)
    requires !st.pasteMode && chunk != "" && !Occurs(PASTE_START, st.buffer + chunk)
    ensures var (sequences, remainder) := Extract(st.buffer + chunk);
            var (events, pending) := EmitAll(sequences, st.pending);
            Process(st, chunk) == (Input(remainder, false, st.pasteBuffer, pending), events)
  {
  }

  lemma ConcatNonEmpty(chunks: seq<string>)
    requires chunks != [] && chunks[0] != ""
    ensures Concat(chunks) != "" && Concat(chunks)[0] == chunks[0][0]
  {
  }

  lemma ProcessPaste(st: Input, chunk: string)
    requires st.pasteMode && chunk != ""
    ensures Process(st, chunk) == PasteStep(st.pasteBuffer + (st.buffer + chunk), st.pending)
  {
  }

  lemma ProcessMarked(st: Input, chunk: string)
    requires !st.pasteMode && Occurs(PASTE_START, st.buffer + chunk)
    ensures var buffer := st.buffer + chunk;
            var start := IndexOf(buffer, PASTE_START);
            var (next, events) := PasteStep(buffer[start + 6..], None);
            Process(st, chunk) == (next, EmitAll(Extract(buffer[..start]).0, st.pending).0 + events)
  {
    hide IndexOf;
  }

  lemma FoundStays(s: string, part: string, b: string)
    requires Occurs(part, s)
    ensures IndexOf(s + b, part) == IndexOf(s, part)
  {
    hide IndexOf;
    var i := IndexOf(s, part);
    assert (s + b)[i..i + |part|] == s[i..i + |part|];
    assert At(s + b, part, i);
    var j := IndexOf(s + b, part);
    assert s[j..j + |part|] == (s + b)[j..j + |part|];
    assert At(s, part, j);
  }

  lemma FoundLater(front: string, s: string, part: string)
    requires IndexOf(front + s, part) >= |front|
    ensures IndexOf(s, part) == IndexOf(front + s, part) - |front|
  {
    hide IndexOf;
    var k := IndexOf(front + s, part) - |front|;
    assert (front + s)[|front| + k..|front| + k + |part|] == s[k..k + |part|];
    assert At(s, part, k);
    var j := IndexOf(s, part);
    assert (front + s)[|front| + j..|front| + j + |part|] == s[j..j + |part|];
    assert At(front + s, part, |front| + j);
  }

  /** When it makes no difference that input arrives as `a` and then `b`: outside pastes, no ESC ESC token is
      parted from a character that opens a sequence; and if a start marker is parted, no unfinished
      sequence before it swallows its first half. */
  predicate Harmless(st: Input, a: string, b: string)
    decreases Size(st) + |a|, 1
  {
    var text := st.buffer + a;
    if st.pasteMode then HarmlessPaste(st.pasteBuffer + text, b)
    else if Occurs(PASTE_START, text) then HarmlessPaste(text[IndexOf(text, PASTE_START) + |PASTE_START|..], b)
    else HarmlessPlain(text, b)
  }

  predicate HarmlessPlain(text: string, b: string) {
    var (sequences, kept) := Extract(text);
    var start := IndexOf(text + b, PASTE_START);
    if start == -1 then !CutsEscEsc(sequences, kept, b)
    else if start >= |text| then !CutsEscEsc(sequences, kept, b[..start - |text|])
    else StaysOpen(Extract(text[..start]).1, text[start..])
  }

  /** Nothing is unfinished, or it still is after `part`. */
  predicate StaysOpen(unfinished: string, part: string) {
    unfinished == "" || SequenceEnd(unfinished + part, 1) > |unfinished + part|
  }

  predicate HarmlessPaste(pasteBuffer: string, b: string)
    decreases |pasteBuffer|, 0
  {
    var end := IndexOf(pasteBuffer, PASTE_END);
    end == -1 || pasteBuffer[end + |PASTE_END|..] == "" || Harmless(EMPTY, pasteBuffer[end + |PASTE_END|..], b)
  }

  /** The effect of two chunks, one after the other. */
  function Then(st: Input, a: string, b: string): (Input, seq<Event>) {
    var (middle, first) := Process(st, a);
    var (last, second) := Process(middle, b);
    (last, first + second)
  }

  lemma PasteInTwo(pasteBuffer: string, b: string, pending: Option<PrintableCode>)
    requires b != "" && HarmlessPaste(pasteBuffer, b)
    ensures var (middle, first) := PasteStep(pasteBuffer, pending);
            var (last, second) := Process(middle, b);
            PasteStep(pasteBuffer + b, pending) == (last, first + second)
    decreases |pasteBuffer|, 0
  {
    hide IndexOf, Extract, EmitAll, HarmlessPlain;
    var end := IndexOf(pasteBuffer, PASTE_END);
    if end == -1 {
      ProcessPaste(Input("", true, pasteBuffer, pending), b);
      assert "" + b == b && [] + PasteStep(pasteBuffer + b, pending).1 == PasteStep(pasteBuffer + b, pending).1;
    } else {
      FoundStays(pasteBuffer, PASTE_END, b);
      var remaining := pasteBuffer[end + 6..];
      assert (pasteBuffer + b)[end + 6..] == remaining + b && (pasteBuffer + b)[..end] == pasteBuffer[..end];
      var paste := [Paste(pasteBuffer[..end])];
      if remaining == "" {
        assert remaining + b == b && paste + [] == paste;
      } else {
        HarmlessCut(EMPTY, remaining, b);
        var middle := Process(EMPTY, remaining);
        assert paste + (middle.1 + Process(middle.0, b).1) == paste + middle.1 + Process(middle.0, b).1;
      }
    }
  }

  // A harmless cut changes nothing.
  lemma HarmlessCut(st: Input, a: string, b: string)
    requires a != "" && b != "" && Harmless(st, a, b)
    ensures Process(st, a + b) == Then(st, a, b)
    decreases Size(st) + |a|, 1
  {
    hide IndexOf, Extract, EmitAll, Process, HarmlessPlain, HarmlessPaste, PasteStep;
    var text := st.buffer + a;
    assert text + b == st.buffer + (a + b);
    if st.pasteMode {
      ProcessPaste(st, a);
      ProcessPaste(st, a + b);
      PasteInTwo(st.pasteBuffer + text, b, st.pending);
      assert st.pasteBuffer + text + b == st.pasteBuffer + (text + b);
    } else if Occurs(PASTE_START, text) {
      var start := IndexOf(text, PASTE_START);
      FoundStays(text, PASTE_START, b);
      ProcessMarked(st, a);
      ProcessMarked(st, a + b);
      PasteInTwo(text[start + 6..], b, None);
      assert (text + b)[start + 6..] == text[start + 6..] + b && (text + b)[..start] == text[..start];
      var before, middle := EmitAll(Extract(text[..start]).0, st.pending).0, PasteStep(text[start + 6..], None);
      assert before + (middle.1 + Process(middle.0, b).1) == before + middle.1 + Process(middle.0, b).1;
    } else {
      TwoPlainChunks(st, a, b);
    }
  }

  lemma TwoPlainChunks(st: Input, a: string, b: string)
    requires a != "" && b != "" && !st.pasteMode && !Occurs(PASTE_START, st.buffer + a)
             && HarmlessPlain(st.buffer + a, b)
    ensures Process(st, a + b) == Then(st, a, b)
  {
    hide IndexOf, Extract, EmitAll, Process, PasteStep, CutsEscEsc;
    var text := st.buffer + a;
    assert text + b == st.buffer + (a + b);
    var start := IndexOf(text + b, PASTE_START);
    if start == -1 {
      BothPlain(st, a, b);
    } else if start >= |text| {
      MarkerInSecond(st, a, b);
    } else {
      MarkerParted(st, a, b);
    }
  }

  lemma BothPlain(st: Input, a: string, b: string)
    requires a != "" && b != "" && !st.pasteMode && !Occurs(PASTE_START, st.buffer + a + b)
    requires var (sequences, kept) := Extract(st.buffer + a); !CutsEscEsc(sequences, kept, b)
    ensures Process(st, a + b) == Then(st, a, b)
  {
    hide IndexOf, Occurs, Extract, EmitAll, Process, CutsEscEsc;
    var text := st.buffer + a;
    var sequences, kept := Extract(text).0, Extract(text).1;
    assert text + b == st.buffer + (a + b);
    NotInPrefix(PASTE_START, text, b);
    ProcessPlain(st, a);
    KeptIsSuffix(text);
    assert text + b == Concat(sequences) + (kept + b);
    NotInSuffix(PASTE_START, Concat(sequences), kept + b);
    ProcessPlain(Process(st, a).0, b);
    ProcessPlain(st, a + b);
    CutAnywhere(text, b);
    EmitAllConcat(sequences, Extract(kept + b).0, st.pending);
  }

  lemma MarkerInSecond(st: Input, a: string, b: string)
    requires a != "" && b != "" && !st.pasteMode && !Occurs(PASTE_START, st.buffer + a)
    requires IndexOf(st.buffer + a + b, PASTE_START) >= |st.buffer + a|
    requires var (sequences, kept) := Extract(st.buffer + a);
             !CutsEscEsc(sequences, kept, b[..IndexOf(st.buffer + a + b, PASTE_START) - |st.buffer + a|])
    ensures Process(st, a + b) == Then(st, a, b)
  {
    hide IndexOf, Extract, EmitAll, Process, PasteStep, CutsEscEsc;
    var text := st.buffer + a;
    var sequences, kept := Extract(text).0, Extract(text).1;
    var k := IndexOf(text + b, PASTE_START) - |text|;
    assert text + b == st.buffer + (a + b);
    ProcessPlain(st, a);
    ProcessMarked(st, a + b);
    KeptIsSuffix(text);
    assert text + b == Concat(sequences) + (kept + b);
    FoundLater(Concat(sequences), kept + b, PASTE_START);
    var middle := Process(st, a).0;
    ProcessMarked(middle, b);
    assert (kept + b)[..|kept| + k] == kept + b[..k] && (kept + b)[|kept| + k + 6..] == b[k + 6..];
    assert (text + b)[..|text| + k] == text + b[..k] && (text + b)[|text| + k + 6..] == b[k + 6..];
    CutAnywhere(text, b[..k]);
    EmitAllConcat(sequences, Extract(kept + b[..k]).0, st.pending);
    var first := EmitAll(sequences, st.pending);
    var second, rest := EmitAll(Extract(kept + b[..k]).0, first.1).0, PasteStep(b[k + 6..], None).1;
    assert first.0 + second + rest == first.0 + (second + rest);
  }

  // When the cut parts a start marker, the tokens of the first chunk are those of the text before the
  // marker, and one that swallows the first part of the marker unless what is unfinished stays so.
  lemma PartedTokens(text: string, b: string)
    requires !Occurs(PASTE_START, text) && 0 <= IndexOf(text + b, PASTE_START) < |text|
    ensures var start := IndexOf(text + b, PASTE_START);
            var (before, unfinished) := Extract(text[..start]);
            var swallowed := Extract(unfinished + text[start..]).0;
            && Extract(text).0 == before + swallowed
            && (StaysOpen(unfinished, text[start..]) <==> swallowed == [])
            && (swallowed != [] ==> swallowed[0] != "" && swallowed[0][0] == ESC)
  {
    hide IndexOf, Extract, SequenceEnd, IsCompleteSequence;
    var start := IndexOf(text + b, PASTE_START);
    var before, part := text[..start], text[start..];
    var unfinished := Extract(before).1;
    assert text == before + part;
    PartOfMarker(text, b);
    CutAnywhere(before, part);
    ExtractIsLossless(before);
    StartMarkerKept(|part|);
    assert "" + part == part;
    if unfinished != "" {
      FirstToken(unfinished + part);
    }
  }

  lemma AtInside(s: string, b: string, part: string, i: nat)
    ensures At(s + b, part, i) && i + |part| <= |s| ==> At(s, part, i)
  {
    if i + |part| <= |s| {
      assert s[i..i + |part|] == (s + b)[i..i + |part|];
    }
  }

  lemma PartOfMarker(text: string, b: string)
    requires !Occurs(PASTE_START, text) && 0 <= IndexOf(text + b, PASTE_START) < |text|
    ensures var part := text[IndexOf(text + b, PASTE_START)..];
            0 < |part| < 6 && part == PASTE_START[..|part|] && part[0] == ESC
  {
    hide IndexOf;
    var start := IndexOf(text + b, PASTE_START);
    var part := text[start..];
    assert (text + b)[start..start + 6] == PASTE_START;
    AtInside(text, b, PASTE_START, start);
    assert part == (text + b)[start..|text|] == (text + b)[start..start + 6][..|part|];
  }

  lemma FirstToken(s: string)
    requires s != "" && s[0] == ESC
    ensures Extract(s).0 == [] <==> SequenceEnd(s, 1) > |s|
    ensures Extract(s).0 != [] ==> Extract(s).0[0] != "" && Extract(s).0[0][0] == ESC
  {
    hide SequenceEnd, IsCompleteSequence, TokenLength;
  }

  lemma MarkerParted(st: Input, a: string, b: string)
    requires a != "" && b != "" && !st.pasteMode && !Occurs(PASTE_START, st.buffer + a)
    requires 0 <= IndexOf(st.buffer + a + b, PASTE_START) < |st.buffer + a| && HarmlessPlain(st.buffer + a, b)
    ensures Process(st, a + b) == Then(st, a, b)
  {
    hide IndexOf, Extract, EmitAll, Process, PasteStep, StaysOpen;
    var text := st.buffer + a;
    var sequences, kept := Extract(text).0, Extract(text).1;
    var start := IndexOf(text + b, PASTE_START);
    assert text + b == st.buffer + (a + b);
    PartedTokens(text, b);
    assert Extract(text[..start]).0 + [] == Extract(text[..start]).0;
    ProcessPlain(st, a);
    ProcessMarked(st, a + b);
    KeptIsSuffix(text);
    KeptIsSuffix(text[..start]);
    ExtractIsLossless(text[..start]);
    var consumed, open := |Concat(sequences)|, Extract(text[..start]).1;
    PartedText(Concat(sequences), kept, b, start);
    FoundLater(Concat(sequences), kept + b, PASTE_START);
    ProcessMarked(Process(st, a).0, b);
    assert text == Concat(sequences) + kept && text[..start] == Concat(sequences) + open;
    SameRest(Concat(sequences), open, (kept + b)[..start - consumed]);
    EmitNothing(EmitAll(sequences, st.pending).1);
    var rest := PasteStep((text + b)[start + 6..], None).1;
    assert [] + rest == rest;
  }

  lemma SameRest(front: string, a: string, b: string)
    requires front + a == front + b
    ensures a == b
  {
    assert (front + a)[|front|..] == a && (front + b)[|front|..] == b;
  }

  lemma PartedText(front: string, kept: string, b: string, start: nat)
    requires |front| <= start <= |front + kept| && start + 6 <= |front + kept + b|
    ensures front + kept + b == front + (kept + b)
    ensures (front + kept + b)[..start] == (front + kept)[..start] == front + (kept + b)[..start - |front|]
    ensures (front + kept + b)[start + 6..] == (kept + b)[start - |front| + 6..]
  {
  }

  lemma EmitNothing(pending: Option<PrintableCode>)
    ensures EmitAll([], pending) == ([], pending)
  {
  }

  // ---------- A cut that is not harmless ----------

  // A sequence that starts with ESC is always delivered, behind what the sequences before it deliver.
  lemma EscIsDelivered(sequences: seq<string>, n: nat, pending: Option<PrintableCode>)
    requires n < |sequences| && sequences[n] != "" && sequences[n][0] == ESC
    ensures var head, events := EmitAll(sequences[..n], pending).0, EmitAll(sequences, pending).0;
            |head| < |events| && events[..|head|] == head && events[|head|] == Data(sequences[n])
  {
    hide EmitAll, KittyPrintable;
    var middle := EmitAll(sequences[..n], pending).1;
    EmitAllConcat(sequences[..n], sequences[n..], pending);
    assert sequences[..n] + sequences[n..] == sequences;
    EmitFirst(sequences[n..], middle);
  }

  lemma EmitFirst(sequences: seq<string>, pending: Option<PrintableCode>)
    requires sequences != [] && sequences[0] != "" && sequences[0][0] == ESC
    ensures EmitAll(sequences, pending).0 != [] && EmitAll(sequences, pending).0[0] == Data(sequences[0])
  {
    hide KittyPrintable;
  }

  lemma PasteComesFirst(pasteBuffer: string, pending: Option<PrintableCode>)
    ensures PasteStep(pasteBuffer, pending).1 != [] ==> PasteStep(pasteBuffer, pending).1[0].Paste?
  {
    hide IndexOf, Process;
  }

  // Two lists that differ after a common head: neither begins with the other, nor goes on from it.
  lemma DifferAt(head: seq<Event>, first: seq<Event>, whole: seq<Event>)
    requires |head| < |first| && first[..|head|] == head <= whole
    requires |head| < |whole| ==> whole[|head|] != first[|head|]
    ensures !(first <= whole)
  {
  }

  // The first chunk delivers ESC ESC as one key, the whole input a lone ESC in its place.
  lemma EscEscParted(text: string, next: string, pending: Option<PrintableCode>, more: seq<Event>)
    requires CutsEscEsc(Extract(text).0, Extract(text).1, next)
    ensures !(EmitAll(Extract(text).0, pending).0 <= EmitAll(Extract(text + next).0, pending).0 + more)
  {
    hide Extract, EmitAll;
    CutAnywhere(text, next);
    var before, whole := Extract(text).0, Extract(text + next).0;
    var n := |before| - 1;
    EscIsDelivered(before, n, pending);
    EscIsDelivered(whole, n, pending);
    DifferAt(EmitAll(before[..n], pending).0, EmitAll(before, pending).0, EmitAll(whole, pending).0 + more);
  }

  lemma HarmfulPlain(st: Input, a: string, b: string)
    requires a != "" && b != "" && !st.pasteMode && !Occurs(PASTE_START, st.buffer + a)
             && !HarmlessPlain(st.buffer + a, b)
    ensures !(Process(st, a).1 <= Process(st, a + b).1)
  {
    hide IndexOf, Extract, EmitAll, Process, PasteStep, CutsEscEsc, StaysOpen;
    var text := st.buffer + a;
    assert text + b == st.buffer + (a + b);
    var start := IndexOf(text + b, PASTE_START);
    ProcessPlain(st, a);
    if start == -1 {
      ProcessPlain(st, a + b);
      EscEscParted(text, b, st.pending, []);
      assert EmitAll(Extract(text + b).0, st.pending).0 + [] == EmitAll(Extract(text + b).0, st.pending).0;
    } else {
      ProcessMarked(st, a + b);
      if start >= |text| {
        var next := b[..start - |text|];
        assert (text + b)[..start] == text + next;
        EscEscParted(text, next, st.pending, PasteStep((text + b)[start + 6..], None).1);
      } else {
        var before, events := Extract(text[..start]).0, PasteStep((text + b)[start + 6..], None).1;
        assert (text + b)[..start] == text[..start];
        PartedTokens(text, b);
        assert Extract(text).0[..|before|] == before;
        EscIsDelivered(Extract(text).0, |before|, st.pending);
        PasteComesFirst((text + b)[start + 6..], None);
        var head := EmitAll(before, st.pending).0;
        DifferAt(head, EmitAll(Extract(text).0, st.pending).0, head + events);
      }
    }
  }

  lemma HarmfulPaste(pasteBuffer: string, b: string, pending: Option<PrintableCode>)
    requires b != "" && !HarmlessPaste(pasteBuffer, b)
    ensures !(PasteStep(pasteBuffer, pending).1 <= PasteStep(pasteBuffer + b, pending).1)
    decreases |pasteBuffer|, 0
  {
    hide IndexOf, Extract, EmitAll, HarmlessPlain, Process, Harmless;
    var end := IndexOf(pasteBuffer, PASTE_END);
    FoundStays(pasteBuffer, PASTE_END, b);
    var remaining := pasteBuffer[end + 6..];
    assert (pasteBuffer + b)[end + 6..] == remaining + b && (pasteBuffer + b)[..end] == pasteBuffer[..end];
    HarmfulCut(EMPTY, remaining, b);
    Behind([Paste(pasteBuffer[..end])], Process(EMPTY, remaining).1, Process(EMPTY, remaining + b).1);
  }

  lemma Behind(head: seq<Event>, first: seq<Event>, whole: seq<Event>)
    ensures head + first <= head + whole <==> first <= whole
  {
    assert (head + first)[|head|..] == first && (head + whole)[|head|..] == whole;
    assert |first| <= |whole| ==> (head + whole)[..|head + first|] == head + whole[..|first|];
  }

  lemma HarmfulCut(st: Input, a: string, b: string)
    requires a != "" && b != "" && !Harmless(st, a, b)
    ensures !(Process(st, a).1 <= Process(st, a + b).1)
    decreases Size(st) + |a|, 1
  {
    hide IndexOf, Extract, EmitAll, Process, HarmlessPlain, HarmlessPaste, PasteStep;
    var text := st.buffer + a;
    assert text + b == st.buffer + (a + b);
    if st.pasteMode {
      ProcessPaste(st, a);
      ProcessPaste(st, a + b);
      HarmfulPaste(st.pasteBuffer + text, b, st.pending);
      assert st.pasteBuffer + text + b == st.pasteBuffer + (text + b);
    } else if Occurs(PASTE_START, text) {
      var start := IndexOf(text, PASTE_START);
      FoundStays(text, PASTE_START, b);
      ProcessMarked(st, a);
      ProcessMarked(st, a + b);
      HarmfulPaste(text[start + 6..], b, None);
      assert (text + b)[start + 6..] == text[start + 6..] + b && (text + b)[..start] == text[..start];
      Behind(EmitAll(Extract(text[..start]).0, st.pending).0, PasteStep(text[start + 6..], None).1,
             PasteStep(text[start + 6..] + b, None).1);
    } else {
      HarmfulPlain(st, a, b);
    }
  }

  /** Whatever the state and whatever the input: two chunks have the effect of their concatenation exactly if
      the cut is harmless. Otherwise the first chunk alone already delivers something else. */
  lemma TwoChunks(st: Input, a: string, b: string)
    requires a != "" && b != ""
    ensures Process(st, a + b) == Then(st, a, b) <==> Harmless(st, a, b)
    ensures Process(st, a).1 <= Process(st, a + b).1 <==> Harmless(st, a, b)
  {
    hide Process, Harmless;
    if Harmless(st, a, b) {
      HarmlessCut(st, a, b);
    } else {
      HarmfulCut(st, a, b);
    }
  }

  /** Every cut between the chunks is harmless in the state in which it falls. */
  predicate HarmlessCuts(st: Input, chunks: seq<string>)
    decreases |chunks|
  {
    |chunks| < 2
    || (Harmless(st, chunks[0], Concat(chunks[1..])) && HarmlessCuts(Process(st, chunks[0]).0, chunks[1..]))
  }

  /** Without flushes, input delivered in chunks gives the same events and leaves the same state as the same
      input delivered at once, pastes included, exactly if every cut is harmless. */
  lemma {:induction false} ChunksDoNotMatter(st: Input, chunks: seq<string>)
    requires chunks != [] && forall c :: c in chunks ==> c != ""
    ensures Feed(st, chunks) == Process(st, Concat(chunks)) <==> HarmlessCuts(st, chunks)
    decreases |chunks|
  {
    hide IndexOf, Extract, EmitAll, Process, Harmless;
    var first, rest := chunks[0], chunks[1..];
    assert first in chunks;
    var next := Process(st, first);
    if rest == [] {
      assert Concat(chunks) == first by { ConcatOne(first); assert chunks == [first]; }
      assert Feed(next.0, []) == (next.0, []) && next.1 + [] == next.1;
    } else {
      assert forall c :: c in rest ==> c in chunks;
      assert rest[0] in rest;
      ConcatNonEmpty(rest);
      ChunksDoNotMatter(next.0, rest);
      TwoChunks(st, first, Concat(rest));
      SameTail(next.1, Feed(next.0, rest).1, Process(next.0, Concat(rest)).1);
    }
  }

  lemma SameTail(head: seq<Event>, a: seq<Event>, b: seq<Event>)
    ensures head + a == head + b <==> a == b
    ensures head <= head + a
  {
    assert (head + a)[|head|..] == a && (head + b)[|head|..] == b;
  }

  /** With nothing unfinished before it, a start marker may be cut anywhere. */
  lemma CutInMarkerIsHarmless(st: Input, a: string, b: string)
    requires a != "" && b != "" && !st.pasteMode
    requires var text := st.buffer + a;
             0 <= IndexOf(text + b, PASTE_START) < |text| < IndexOf(text + b, PASTE_START) + 6
    requires Extract((st.buffer + a)[..IndexOf(st.buffer + a + b, PASTE_START)]).1 == ""
    ensures Process(st, a + b) == Then(st, a, b)
  {
    hide IndexOf, Extract, Process;
    var text := st.buffer + a;
    if Occurs(PASTE_START, text) {
      FoundStays(text, PASTE_START, b);
    }
    HarmlessCut(st, a, b);
  }

  lemma KeptIsSuffix(s: string)
    ensures s == Concat(Extract(s).0) + Extract(s).1
  {
    ExtractIsLossless(s);
  }

  lemma ConcatOne(s: string)
    ensures Concat([s]) == s
  {
    assert [s][1..] == [];
  }

  // ---------- Pastes ----------

  // The end marker starts with ESC and contains no other, so it cannot overlap itself.
  lemma NoStraddling(content: string, i: nat)
    requires |content| - 6 < i < |content|
    ensures !At(content + PASTE_END, PASTE_END, i)
  {
    var s, j := content + PASTE_END, |content| - i;
    assert 1 <= j <= 5 && s[i + j] == ESC && PASTE_END[j] != ESC;
    assert i + 6 <= |s| ==> s[i..i + 6][j] == s[i + j];
  }

  lemma NoEarlierEnd(content: string, i: nat)
    requires !Occurs(PASTE_END, content) && i < |content|
    ensures !At(content + PASTE_END, PASTE_END, i)
  {
    hide IndexOf;
    if i + 6 <= |content| {
      assert (content + PASTE_END)[i..i + 6] == content[i..i + 6];
      assert At(content, PASTE_END, i) ==> IndexOf(content, PASTE_END) != -1;
    } else {
      NoStraddling(content, i);
    }
  }

  lemma EndMarkerEndsPaste(content: string)
    requires !Occurs(PASTE_END, content)
    ensures IndexOf(content + PASTE_END, PASTE_END) == |content|
  {
    hide IndexOf, Occurs;
    var s := content + PASTE_END;
    assert s[|content|..|content| + 6] == PASTE_END;
    assert At(s, PASTE_END, |content|);
    forall i: nat | i < |content| ensures !At(s, PASTE_END, i) {
      NoEarlierEnd(content, i);
    }
  }

  lemma EndMarkerNotYet(content: string, n: nat)
    requires !Occurs(PASTE_END, content) && n < |content| + 6
    ensures !Occurs(PASTE_END, (content + PASTE_END)[..n])
  {
    var s := content + PASTE_END;
    EndMarkerEndsPaste(content);
    var i := IndexOf(s[..n], PASTE_END);
    if i != -1 {
      assert s[..n][i..i + 6] == s[i..i + 6];
      assert At(s, PASTE_END, i);
    }
  }

  // An unfinished start marker is kept back whole.
  lemma StartMarkerKept(n: nat)
    requires 0 < n < 6
    ensures Extract(PASTE_START[..n]) == ([], PASTE_START[..n])
    ensures !Occurs(PASTE_START, PASTE_START[..n])
  {
    var s := PASTE_START[..n];
    forall k | 1 <= k <= n ensures IsCompleteSequence(s[..k]).Incomplete? {
      assert s[..k] == PASTE_START[..k];
    }
    assert SequenceEnd(s, 1) > |s|;
  }

  /** The state after the first `n` characters of a paste. */
  function PasteSoFar(content: string, n: nat, pending: Option<PrintableCode>): Input
    requires n < |content| + 12
  {
    if n < 6 then Input(PASTE_START[..n], false, "", pending)
    else Input("", true, (content + PASTE_END)[..n - 6], None)
  }

  lemma MarkedText(content: string, n: nat, m: nat)
    requires n <= m <= |content| + 12
    ensures var all := PASTE_START + content + PASTE_END;
            && (m <= 6 ==> all[..m] == PASTE_START[..m])
            && (n <= 6 <= m ==> PASTE_START[..n] + all[n..m] == PASTE_START + (content + PASTE_END)[..m - 6])
            && (n >= 6 ==> (content + PASTE_END)[..n - 6] + all[n..m] == (content + PASTE_END)[..m - 6])
            && (m <= 6 ==> PASTE_START[..n] + all[n..m] == PASTE_START[..m])
  {
    var all, body := PASTE_START + content + PASTE_END, content + PASTE_END;
    assert all == PASTE_START + body;
  }

  lemma StartFound(rest: string)
    ensures IndexOf(PASTE_START + rest, PASTE_START) == 0 && (PASTE_START + rest)[6..] == rest
  {
    assert (PASTE_START + rest)[0..6] == PASTE_START;
    assert At(PASTE_START + rest, PASTE_START, 0);
  }

  lemma WholePaste(content: string, pending: Option<PrintableCode>)
    requires !Occurs(PASTE_END, content)
    ensures PasteStep(content + PASTE_END, pending) == (EMPTY, [Paste(content)])
  {
    EndMarkerEndsPaste(content);
    var s := content + PASTE_END;
    assert s[|content| + 6..] == "" && s[..|content|] == content;
    assert [Paste(content)] + [] == [Paste(content)];
  }

  lemma PartOfPaste(content: string, n: nat, pending: Option<PrintableCode>)
    requires !Occurs(PASTE_END, content) && n < |content| + 6
    ensures PasteStep((content + PASTE_END)[..n], pending) == (Input("", true, (content + PASTE_END)[..n], pending), [])
  {
    EndMarkerNotYet(content, n);
  }

  lemma ProcessStart(st: Input, chunk: string, rest: string)
    requires !st.pasteMode && st.buffer + chunk == PASTE_START + rest
    ensures Process(st, chunk) == PasteStep(rest, None)
  {
    hide IndexOf, PasteStep;
    StartFound(rest);
    assert (PASTE_START + rest)[..0] == "" && Extract("").0 == [];
    assert [] + PasteStep(rest, None).1 == PasteStep(rest, None).1;
  }

  /** The next chunk of a paste. */
  lemma PasteChunk(content: string, n: nat, m: nat, pending: Option<PrintableCode>)
    requires !Occurs(PASTE_END, content) && n < m <= |content| + 12
    ensures Process(PasteSoFar(content, n, pending), (PASTE_START + content + PASTE_END)[n..m])
            == if m == |content| + 12 then (EMPTY, [Paste(content)]) else (PasteSoFar(content, m, pending), [])
  {
    hide IndexOf, Occurs, Extract, PasteStep;
    var body := content + PASTE_END;
    var chunk := (PASTE_START + content + PASTE_END)[n..m];
    MarkedText(content, n, m);
    assert m == |content| + 12 ==> body[..m - 6] == body;
    if m < 6 {
      StartMarkerKept(m);
      ProcessPlain(PasteSoFar(content, n, pending), chunk);
    } else {
      if n < 6 {
        StartFound(body[..m - 6]);
        ProcessStart(PasteSoFar(content, n, pending), chunk, body[..m - 6]);
      } else {
        assert "" + chunk == chunk;
      }
      if m == |content| + 12 {
        WholePaste(content, None);
      } else {
        PartOfPaste(content, m - 6, None);
      }
    }
  }

  lemma {:induction false} RestOfPaste(content: string, n: nat, chunks: seq<string>, pending: Option<PrintableCode>)
    requires !Occurs(PASTE_END, content) && n < |content| + 12
    requires (forall c :: c in chunks ==> c != "") && Concat(chunks) == (PASTE_START + content + PASTE_END)[n..]
    ensures Feed(PasteSoFar(content, n, pending), chunks) == (EMPTY, [Paste(content)])
    decreases |chunks|
  {
    hide IndexOf, Occurs, Process;
    var all := PASTE_START + content + PASTE_END;
    if chunks != [] {
      assert chunks[0] in chunks;
      assert forall c :: c in chunks[1..] ==> c in chunks;
      var m := n + |chunks[0]|;
      assert Concat(chunks)[..|chunks[0]|] == chunks[0];
      assert chunks[0] == all[n..][..m - n] == all[n..m];
      PasteChunk(content, n, m, pending);
      assert Concat(chunks)[m - n..] == Concat(chunks[1..]) == all[m..];
      if m == |all| {
        NoChunksLeft(chunks[1..]);
        assert [Paste(content)] + [] == [Paste(content)];
      } else {
        RestOfPaste(content, m, chunks[1..], pending);
        assert [] + [Paste(content)] == [Paste(content)];
      }
    }
  }

  lemma NoChunksLeft(chunks: seq<string>)
    requires forall c :: c in chunks ==> c != ""
    ensures Concat(chunks) == "" ==> chunks == []
  {
    if chunks != [] {
      assert chunks[0] in chunks;
    }
  }

  /** A bracketed paste, delivered in any non-empty chunks to an empty buffer, is exactly one paste of its
      content and nothing else, and leaves an empty buffer. */
  lemma PasteArrivesOnce(content: string, chunks: seq<string>, pending: Option<PrintableCode>)
    requires !Occurs(PASTE_END, content)
    requires (forall c :: c in chunks ==> c != "") && Concat(chunks) == PASTE_START + content + PASTE_END
    ensures Feed(EMPTY.(pending := pending), chunks) == (EMPTY, [Paste(content)])
  {
    RestOfPaste(content, 0, chunks, pending);
  }

  /** What is delivered before a paste is everything before its marker, kept back or new, exactly if the
      tokenizer leaves no remainder there. The remainder is dropped. */
  lemma NothingLostBeforePaste(st: Input, chunk: string)
    requires !st.pasteMode && Occurs(PASTE_START, st.buffer + chunk)
    ensures var text := (st.buffer + chunk)[..IndexOf(st.buffer + chunk, PASTE_START)];
            var (sequences, remainder) := Extract(text);
            && Process(st, chunk).1
               == EmitAll(sequences, st.pending).0 + PasteStep((st.buffer + chunk)[|text| + 6..], None).1
            && Process(st, chunk).0 == PasteStep((st.buffer + chunk)[|text| + 6..], None).0
            && (Concat(sequences) == text <==> remainder == "")
  {
    hide IndexOf, Extract, EmitAll, PasteStep, Process;
    ProcessMarked(st, chunk);
    var text := (st.buffer + chunk)[..IndexOf(st.buffer + chunk, PASTE_START)];
    KeptIsSuffix(text);
    assert Extract(text).1 == "" ==> Concat(Extract(text).0) + "" == Concat(Extract(text).0);
  }

  /** The events for a text, a paste and nothing else, delivered at once. */
  lemma UnfinishedBeforePasteIsLost(before: string, content: string)
    requires !Occurs(PASTE_END, content) && IndexOf(before + PASTE_START + content + PASTE_END, PASTE_START) == |before|
    requires before != ""
    ensures Process(EMPTY, before + PASTE_START + content + PASTE_END)
            == (EMPTY, EmitAll(Extract(before).0, None).0 + [Paste(content)])
  {
    hide IndexOf, Occurs, Extract, PasteStep, EmitAll;
    var all := before + PASTE_START + content + PASTE_END;
    assert "" + all == all;
    assert all[..|before|] == before && all[|before| + 6..] == content + PASTE_END;
    WholePaste(content, None);
  }

  lemma EscIsUnfinished()
    ensures Extract([ESC]) == ([], [ESC]) && !Occurs(PASTE_END, "x")
    ensures IndexOf([ESC] + PASTE_START + "x" + PASTE_END, PASTE_START) == 1
    ensures IndexOf(PASTE_START + "x" + PASTE_END, PASTE_START) == 0
  {
    var paste := PASTE_START + "x" + PASTE_END;
    assert SequenceEnd([ESC], 1) == 2 by { assert [ESC][..1] == [ESC]; }
    assert paste == PASTE_START + ("x" + PASTE_END);
    StartFound("x" + PASTE_END);
    var all := [ESC] + PASTE_START + "x" + PASTE_END;
    assert all[1..] == paste && all[1] == ESC && PASTE_START[1] == '[';
    assert "x"[1..] == "" && IndexOf("", PASTE_END) == -1;
  }

  /** An Escape key right before a paste is lost, in the same chunk and kept back from an earlier one. */
  lemma EscBeforePasteIsLost()
    ensures Process(EMPTY, [ESC] + PASTE_START + "x" + PASTE_END) == (EMPTY, [Paste("x")])
    ensures Feed(EMPTY, [[ESC], PASTE_START + "x" + PASTE_END]) == (EMPTY, [Paste("x")])
  {
    hide IndexOf, Occurs, Extract, PasteStep, EmitAll, Process;
    EscIsUnfinished();
    var paste := PASTE_START + "x" + PASTE_END;
    UnfinishedBeforePasteIsLost([ESC], "x");
    EmitNothing(None);
    assert [] + [Paste("x")] == [Paste("x")];
    assert "" + [ESC] == [ESC];
    EscHasNoMarker();
    ProcessPlain(EMPTY, [ESC]);
    var kept := Input([ESC], false, "", None);
    assert Process(EMPTY, [ESC]) == (kept, []);
    assert [ESC] + paste == [ESC] + PASTE_START + "x" + PASTE_END;
    ProcessKept(kept, paste);
    FeedTwo(EMPTY, [ESC], paste);
  }

  lemma EscHasNoMarker()
    ensures !Occurs(PASTE_START, [ESC])
  {
    assert [ESC][1..] == "";
  }

  // A kept buffer counts as the beginning of the next chunk.
  lemma ProcessKept(st: Input, chunk: string)
    requires chunk != ""
    ensures Process(st, chunk) == Process(st.(buffer := ""), st.buffer + chunk)
  {
    hide IndexOf, Extract, PasteStep, EmitAll;
    assert "" + (st.buffer + chunk) == st.buffer + chunk;
  }

  lemma FeedTwo(st: Input, a: string, b: string)
    ensures Feed(st, [a, b]) == Then(st, a, b)
  {
    hide Process;
    assert [a, b][1..] == [b] && [b][1..] == [];
    var middle := Process(st, a);
    assert Feed(Process(middle.0, b).0, []) == (Process(middle.0, b).0, []);
    assert Process(middle.0, b).1 + [] == Process(middle.0, b).1;
    assert Feed(middle.0, [b]) == (Process(middle.0, b).0, Process(middle.0, b).1 + []);
  }

  /** No cut inside the text before a paste parts an ESC ESC token from a character that opens a sequence. */
  predicate CleanCutsWithin(kept: string, rest: string, chunks: seq<string>)
    decreases |chunks|
  {
    chunks == [] || |chunks[0]| > |rest|
    || (var (sequences, remainder) := Extract(kept + chunks[0]);
        !CutsEscEsc(sequences, remainder, rest[|chunks[0]|..])
        && CleanCutsWithin(remainder, rest[|chunks[0]|..], chunks[1..]))
  }

  /** A text with nothing unfinished at its end, and then a paste, in any chunks: the sequences of the text and
      one paste, as if delivered at once. */
  lemma {:induction false} TextThenPaste(kept: string, rest: string, content: string, chunks: seq<string>,
                                         pending: Option<PrintableCode>)
    requires Extract(kept + rest).1 == "" && !Occurs(PASTE_START, kept + rest) && !Occurs(PASTE_END, content)
    requires (forall c :: c in chunks ==> c != "") && Concat(chunks) == rest + PASTE_START + content + PASTE_END
    requires CleanCutsWithin(kept, rest, chunks)
    ensures Feed(Input(kept, false, "", pending), chunks)
            == (EMPTY, EmitAll(Extract(kept + rest).0, pending).0 + [Paste(content)])
    decreases |chunks|
  {
    hide IndexOf, Occurs, Extract, EmitAll, Process, CutsEscEsc, PasteSoFar;
    var paste := PASTE_START + content + PASTE_END;
    assert Concat(chunks) == rest + paste;
    var st := Input(kept, false, "", pending);
    var chunk, others := chunks[0], chunks[1..];
    assert chunk in chunks && forall c :: c in others ==> c in chunks;
    assert Concat(chunks)[..|chunk|] == chunk && Concat(chunks)[|chunk|..] == Concat(others);
    if |chunk| <= |rest| {
      var later := rest[|chunk|..];
      assert chunk == rest[..|chunk|] && rest == chunk + later && kept + rest == (kept + chunk) + later;
      assert Concat(others) == later + PASTE_START + content + PASTE_END;
      var sequences, remainder := Extract(kept + chunk).0, Extract(kept + chunk).1;
      NotInPrefix(PASTE_START, kept + chunk, later);
      ProcessPlain(st, chunk);
      KeptIsSuffix(kept + chunk);
      assert kept + rest == Concat(sequences) + (remainder + later);
      NotInSuffix(PASTE_START, Concat(sequences), remainder + later);
      CutAnywhere(kept + chunk, later);
      EmitAllConcat(sequences, Extract(remainder + later).0, pending);
      var first := EmitAll(sequences, pending);
      TextThenPaste(remainder, later, content, others, first.1);
      assert first.0 + (EmitAll(Extract(remainder + later).0, first.1).0 + [Paste(content)])
          == first.0 + EmitAll(Extract(remainder + later).0, first.1).0 + [Paste(content)];
    } else {
      ReachesPaste(kept, rest, content, chunk, others, pending);
    }
  }

  // The first chunk that contains some of the paste.
  lemma ReachesPaste(kept: string, rest: string, content: string, chunk: string, others: seq<string>,
                     pending: Option<PrintableCode>)
    requires Extract(kept + rest).1 == "" && !Occurs(PASTE_START, kept + rest) && !Occurs(PASTE_END, content)
    requires (forall c :: c in others ==> c != "") && |chunk| > |rest|
    requires chunk + Concat(others) == rest + (PASTE_START + content + PASTE_END)
    ensures var (next, events) := Process(Input(kept, false, "", pending), chunk);
            var (last, more) := Feed(next, others);
            (last, events + more) == (EMPTY, EmitAll(Extract(kept + rest).0, pending).0 + [Paste(content)])
  {
    hide IndexOf, Occurs, Extract, EmitAll, Process, PasteStep, PasteSoFar, Feed;
    var paste, m := PASTE_START + content + PASTE_END, |chunk| - |rest|;
    var st, before := Input(kept, false, "", pending), kept + rest;
    assert chunk == (rest + paste)[..|chunk|] == rest + paste[..m];
    assert Concat(others) == (rest + paste)[|chunk|..] == paste[m..];
    assert kept + chunk == before + paste[..m];
    var events := EmitAll(Extract(before).0, pending);
    PasteReached(st, before, content, chunk, m);
    if m == |paste| {
      NoChunksLeft(others);
      NothingToFeed(EMPTY);
      assert events.0 + [Paste(content)] + [] == events.0 + [Paste(content)];
    } else {
      RestOfPaste(content, m, others, if m < 6 then events.1 else None);
    }
  }

  lemma NothingToFeed(st: Input)
    ensures Feed(st, []) == (st, [])
  {
  }

  lemma PasteReached(st: Input, before: string, content: string, chunk: string, m: nat)
    requires !st.pasteMode && st.pasteBuffer == "" && Extract(before).1 == ""
    requires !Occurs(PASTE_START, before) && !Occurs(PASTE_END, content) && 0 < m <= |content| + 12
    requires st.buffer + chunk == before + (PASTE_START + content + PASTE_END)[..m] && chunk != ""
    ensures var events := EmitAll(Extract(before).0, st.pending);
            Process(st, chunk) == if m == |content| + 12 then (EMPTY, events.0 + [Paste(content)])
                                  else (PasteSoFar(content, m, if m < 6 then events.1 else None), events.0)
  {
    hide IndexOf, Extract, EmitAll, Process, PasteStep;
    var events := EmitAll(Extract(before).0, st.pending);
    MarkedText(content, 0, m);
    if m < 6 {
      MarkerNotYet(before, m);
      ProcessPlain(st, chunk);
      CutBeforeMarker(before, m);
    } else {
      var body := (content + PASTE_END)[..m - 6];
      assert st.buffer + chunk == before + PASTE_START + body;
      MarkerAfter(before, body);
      ProcessMarked(st, chunk);
      assert (st.buffer + chunk)[..|before|] == before && (st.buffer + chunk)[|before| + 6..] == body;
      if m == |content| + 12 {
        assert body == content + PASTE_END;
        WholePaste(content, None);
      } else {
        PartOfPaste(content, m - 6, None);
        assert events.0 + [] == events.0;
      }
    }
  }

  // A start marker has one ESC, its first character: it is not found across the end of a text.
  lemma MarkerNotAcross(before: string, after: string, i: nat)
    requires !Occurs(PASTE_START, before) && i < |before| && (after == "" || after[0] == ESC)
    ensures !At(before + after, PASTE_START, i)
  {
    hide IndexOf;
    var s, j := before + after, |before| - i;
    if i + 6 <= |before| {
      assert s[i..i + 6] == before[i..i + 6];
      assert At(before, PASTE_START, i) ==> IndexOf(before, PASTE_START) != -1;
    } else if i + 6 <= |s| {
      assert s[i..i + 6][j] == s[|before|] == ESC != PASTE_START[j];
    }
  }

  lemma MarkerNotYet(before: string, m: nat)
    requires !Occurs(PASTE_START, before) && m < 6
    ensures !Occurs(PASTE_START, before + PASTE_START[..m])
  {
    hide IndexOf;
    forall i: nat | i < |before| ensures !At(before + PASTE_START[..m], PASTE_START, i) {
      MarkerNotAcross(before, PASTE_START[..m], i);
    }
  }

  lemma MarkerAfter(before: string, body: string)
    requires !Occurs(PASTE_START, before)
    ensures IndexOf(before + PASTE_START + body, PASTE_START) == |before|
  {
    hide IndexOf, Occurs;
    var s := before + PASTE_START + body;
    assert s == before + (PASTE_START + body) && s[|before|..|before| + 6] == PASTE_START;
    assert At(s, PASTE_START, |before|);
    forall i: nat | i < |before| ensures !At(s, PASTE_START, i) {
      MarkerNotAcross(before, PASTE_START + body, i);
    }
  }

  lemma CutBeforeMarker(before: string, m: nat)
    requires Extract(before).1 == "" && 0 < m < 6
    ensures Extract(before + PASTE_START[..m]) == (Extract(before).0, PASTE_START[..m])
  {
    hide Extract, IndexOf;
    var marker := PASTE_START[..m];
    CutAnywhere(before, marker);
    StartMarkerKept(m);
    assert "" + marker == marker && Extract(before).0 + [] == Extract(before).0;
  }

  const OPEN_CSI := [ESC, '[', '1']

  /** Where the condition fails: after an unfinished control sequence, a cut inside the start marker lets that
      sequence swallow the marker's first half, and the content arrives as keys instead of a paste. */
  lemma CutMarkerIsSwallowed()
    ensures var a, b := OPEN_CSI + PASTE_START[..2], PASTE_START[2..] + "x" + PASTE_END;
            && Process(EMPTY, a + b) == (EMPTY, [Paste("x")])
            && Then(EMPTY, a, b).1 != [] && Then(EMPTY, a, b).1[0] == Data(a)
  {
    hide IndexOf, Occurs, Extract, PasteStep, EmitAll, Process;
    var a, b := OPEN_CSI + PASTE_START[..2], PASTE_START[2..] + "x" + PASTE_END;
    assert a + b == OPEN_CSI + PASTE_START + "x" + PASTE_END == OPEN_CSI + PASTE_START + ("x" + PASTE_END);
    OpenCsiIsUnfinished();
    EscIsUnfinished();
    MarkerAfter(OPEN_CSI, "x" + PASTE_END);
    UnfinishedBeforePasteIsLost(OPEN_CSI, "x");
    EmitNothing(None);
    assert [] + [Paste("x")] == [Paste("x")];
    assert "" + a == a;
    MarkerNotYet(OPEN_CSI, 2);
    ProcessPlain(EMPTY, a);
    EmitSwallowed(a);
  }

  lemma OpenCsiIsUnfinished()
    ensures Extract(OPEN_CSI) == ([], OPEN_CSI) && !Occurs(PASTE_START, OPEN_CSI)
    ensures Extract(OPEN_CSI + PASTE_START[..2]) == ([OPEN_CSI + PASTE_START[..2]], "")
  {
    var s := OPEN_CSI + PASTE_START[..2];
    assert s == [ESC, '[', '1', ESC, '['];
    assert s[..1] == [ESC]
           && s[..2] == [ESC, '['] && s[..3] == OPEN_CSI && s[..4] == [ESC, '[', '1', ESC] && s[..5] == s;
    assert SequenceEnd(s, 5) == 5;
    assert SequenceEnd(s, 3) == SequenceEnd(s, 4) == SequenceEnd(s, 5);
    assert SequenceEnd(s, 1) == SequenceEnd(s, 2) == SequenceEnd(s, 3);
    assert TokenLength(s) == 5 && s[5..] == "" && Extract(s[5..]) == ([], "");
    assert [s] + [] == [s];
    var t := OPEN_CSI;
    assert t[..1] == [ESC] && t[..2] == [ESC, '['] && t[..3] == t;
    assert SequenceEnd(t, 4) == 4 == SequenceEnd(t, 3);
    assert SequenceEnd(t, 1) == SequenceEnd(t, 2) == SequenceEnd(t, 3);
    assert t[1..][..1] == "[" && forall k :: At(t, PASTE_START, k) ==> false;
  }

  lemma EmitSwallowed(a: string)
    requires |a| == 5
    ensures EmitAll([a], None).0 == [Data(a)]
  {
    assert [a][1..] == [] && [Data(a)] + [] == [Data(a)];
  }

  // ---------- The tokenizer as it runs ----------

  lemma OneMore(s: string, n: nat)
    requires n <= |s| && IsCompleteSequence(s[..n]).Incomplete?
    ensures SequenceEnd(s, n) == SequenceEnd(s, n + 1)
  {
  }

  lemma ExtractStep(buffer: string, pos: nat, n: nat, sequences: seq<string>)
    requires pos < |buffer| && 1 <= n <= |buffer| - pos
    requires if buffer[pos] != ESC then n == 1
             else SequenceEnd(buffer[pos..], 1) <= |buffer| - pos && n == TokenLength(buffer[pos..])
    requires ExtractedSoFar(buffer, pos, sequences)
    ensures ExtractedSoFar(buffer, pos + n, sequences + [buffer[pos..][..n]])
  {
    hide Extract;
    ExtractFirst(buffer[pos..], n);
    assert buffer[pos..][n..] == buffer[pos + n..];
    assert sequences + ([buffer[pos..][..n]] + Extract(buffer[pos + n..]).0)
        == sequences + [buffer[pos..][..n]] + Extract(buffer[pos + n..]).0;
  }

  ghost predicate ExtractedSoFar(buffer: string, pos: nat, sequences: seq<string>)
    requires pos <= |buffer|
  {
    var rest := Extract(buffer[pos..]);
    Extract(buffer) == (sequences + rest.0, rest.1)
  }

  lemma NothingExtractedYet(buffer: string)
    ensures ExtractedSoFar(buffer, 0, [])
  {
    assert buffer[0..] == buffer;
    assert [] + Extract(buffer).0 == Extract(buffer).0;
  }

  lemma AllExtracted(buffer: string, pos: nat, sequences: seq<string>)
    requires pos <= |buffer| && ExtractedSoFar(buffer, pos, sequences)
    requires pos == |buffer| || (buffer[pos] == ESC && SequenceEnd(buffer[pos..], 1) > |buffer| - pos)
    ensures Extract(buffer) == (sequences, buffer[pos..])
  {
    hide IsCompleteSequence, SequenceEnd, TokenLength;
    var rest := buffer[pos..];
    if pos < |buffer| {
      assert rest != "" && rest[0] == ESC && |rest| == |buffer| - pos;
    }
    assert Extract(rest) == ([], rest);
    assert sequences + [] == sequences;
  }

  method ExtractCompleteSequences(buffer: string) returns (sequences: seq<string>, remainder: string)
    ensures (sequences, remainder) == Extract(buffer)
  {
    hide Extract, SequenceEnd, IsCompleteSequence, ExtractedSoFar;
    sequences := [];
    var pos := 0;
    NothingExtractedYet(buffer);
    while pos < |buffer|
      invariant 0 <= pos <= |buffer| && ExtractedSoFar(buffer, pos, sequences)
      decreases |buffer| - pos
    {
      var remaining := buffer[pos..];
      ghost var start := pos;
      if remaining[0] == ESC {
        var seqEnd := 1;
        while seqEnd <= |remaining|
          invariant 1 <= seqEnd <= |remaining| + 1 && SequenceEnd(remaining, seqEnd) == SequenceEnd(remaining, 1)
          invariant pos == start && ExtractedSoFar(buffer, pos, sequences)
          decreases |remaining| - seqEnd
        {
          var candidate := remaining[..seqEnd];
          if !IsCompleteSequence(candidate).Incomplete? {
            EndHere(remaining, seqEnd);
            if candidate == ESC_ESC && seqEnd < |remaining| && OpensSequence(remaining[seqEnd]) {
              ExtractStep(buffer, pos, 1, sequences);
              assert remaining[..1] == [ESC];
              sequences := sequences + [[ESC]];
              pos := pos + 1;
              break;
            }
            ExtractStep(buffer, pos, seqEnd, sequences);
            sequences := sequences + [candidate];
            pos := pos + seqEnd;
            break;
          } else {
            OneMore(remaining, seqEnd);
            seqEnd := seqEnd + 1;
          }
        }
        if seqEnd > |remaining| {
          NoEnd(remaining, seqEnd);
          AllExtracted(buffer, pos, sequences);
          return sequences, remaining;
        }
      } else {
        ExtractStep(buffer, pos, 1, sequences);
        assert remaining[..1] == [remaining[0]];
        sequences := sequences + [[remaining[0]]];
        pos := pos + 1;
      }
    }
    AllExtracted(buffer, pos, sequences);
    remainder := "";
  }

  lemma EndHere(s: string, n: nat)
    requires n <= |s| && !IsCompleteSequence(s[..n]).Incomplete?
    ensures SequenceEnd(s, n) == n
  {
  }

  lemma NoEnd(s: string, n: nat)
    requires n == |s| + 1
    ensures SequenceEnd(s, n) == n
  {
  }

  // ---------- The buffer ----------

  /** Events are appended to `events` where the original calls its listeners. */
  class Buffer {
    var buffer: string
    var timer: bool
    var pasteMode: bool
    var pasteBuffer: string
    var pending: Option<PrintableCode>
    var events: seq<Event>

    ghost function Value(): Input reads this { Input(buffer, pasteMode, pasteBuffer, pending) }

    /** Input is kept back outside a paste only while a timer runs that will flush it. */
    ghost predicate Valid() reads this {
      && (timer <==> buffer != "")
      && (if pasteMode then buffer == "" else pasteBuffer == "")
    }

    constructor ()
      ensures Valid() && Value() == EMPTY && events == []
    {
      buffer, timer, pasteMode, pasteBuffer, pending, events := "", false, false, "", None, [];
    }

    method EmitDataSequence(sequence: string)
      modifies this`pending, this`events
      ensures events == old(events) + EmitOne(sequence, old(pending)).0
      ensures pending == EmitOne(sequence, old(pending)).1
    {
      if |sequence| == 1 && pending.Some? && pending.value == sequence[0] as int {
        pending := None;
        return;
      }
      pending := KittyPrintable(sequence);
      events := events + [Data(sequence)];
    }

    method EmitEach(sequences: seq<string>)
      modifies this`pending, this`events
      ensures events == old(events) + EmitAll(sequences, old(pending)).0
      ensures pending == EmitAll(sequences, old(pending)).1
    {
      hide EmitOne, KittyPrintable;
      var i := 0;
      while i < |sequences|
        invariant 0 <= i <= |sequences|
        invariant events + EmitAll(sequences[i..], pending).0 == old(events) + EmitAll(sequences, old(pending)).0
        invariant EmitAll(sequences[i..], pending).1 == EmitAll(sequences, old(pending)).1
      {
        assert sequences[i..][0] == sequences[i] && sequences[i..][1..] == sequences[i + 1..];
        EmitDataSequence(sequences[i]);
        i := i + 1;
      }
    }

    method FinishPaste(endIndex: int)
      requires !timer && buffer == "" && pasteMode && endIndex == IndexOf(pasteBuffer, PASTE_END)
      modifies this
      ensures Valid() && Value() == PasteStep(old(pasteBuffer), old(pending)).0
      ensures events == old(events) + PasteStep(old(pasteBuffer), old(pending)).1
      decreases |pasteBuffer|, 0
    {
      hide IndexOf, Process;
      if endIndex != -1 {
        var pastedContent := pasteBuffer[..endIndex];
        var remaining := pasteBuffer[endIndex + |PASTE_END|..];
        pasteMode, pasteBuffer, pending := false, "", None;
        events := events + [Paste(pastedContent)];
        if |remaining| > 0 {
          TakeChunk(remaining);
        }
      }
    }

    /** Clears the timer, takes a chunk of input, and delivers what is complete. */
    method TakeChunk(chunk: string)
      requires Valid()
      modifies this
      ensures Valid() && Value() == Process(old(Value()), chunk).0
      ensures events == old(events) + Process(old(Value()), chunk).1
      decreases |buffer| + |pasteBuffer| + |chunk|, 1
    {
      hide IndexOf, Extract, EmitOne, EmitAll, PasteStep;
      timer := false;
      if chunk == "" && buffer == "" {
        EmitDataSequence("");
        return;
      }
      buffer := buffer + chunk;
      if pasteMode {
        pasteBuffer := pasteBuffer + buffer;
        buffer := "";
        var endIndex := IndexOf(pasteBuffer, PASTE_END);
        FinishPaste(endIndex);
        return;
      }
      var startIndex := IndexOf(buffer, PASTE_START);
      if startIndex != -1 {
        if startIndex > 0 {
          var sequences, _ := ExtractCompleteSequences(buffer[..startIndex]);
          EmitEach(sequences);
        } else {
          NothingBefore(buffer, pending);
        }
        pending := None;
        pasteMode, pasteBuffer, buffer := true, buffer[startIndex + |PASTE_START|..], "";
        var endIndex := IndexOf(pasteBuffer, PASTE_END);
        FinishPaste(endIndex);
        return;
      }
      var sequences, remainder := ExtractCompleteSequences(buffer);
      buffer := remainder;
      EmitEach(sequences);
      timer := |buffer| > 0;
    }

    /** Hands out whatever is kept back, complete or not. */
    method Flush() returns (sequences: seq<string>)
      requires Valid()
      modifies this`timer, this`buffer, this`pending
      ensures Valid() && buffer == ""
      ensures sequences == if old(buffer) == "" then [] else [old(buffer)]
      ensures pending == if old(buffer) == "" then old(pending) else None
    {
      timer := false;
      if |buffer| == 0 {
        return [];
      }
      sequences := [buffer];
      buffer := "";
      pending := None;
    }

    /** The timer of a kept-back remainder runs out: the remainder is delivered as one sequence. */
    method TimerFires()
      requires Valid() && timer
      modifies this
      ensures Valid() && !timer && buffer == "" && pasteMode == old(pasteMode) && pasteBuffer == old(pasteBuffer)
      ensures events == old(events) + [Data(old(buffer))]
      ensures pending == KittyPrintable(old(buffer))
    {
      var flushed := Flush();
      assert flushed == [old(buffer)] && flushed[1..] == [];
      EmitEach(flushed);
    }

    method Clear()
      modifies this
      ensures Valid() && Value() == EMPTY && events == old(events)
    {
      buffer, timer, pasteMode, pasteBuffer, pending := "", false, false, "", None;
    }
  }

  lemma NothingBefore(buffer: string, pending: Option<PrintableCode>)
    ensures EmitAll(Extract(buffer[..0]).0, pending) == ([], pending)
  {
    assert buffer[..0] == "";
  }
}
