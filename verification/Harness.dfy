/** The agent harness: session writes that wait while a turn is active. */
module Harness {
  import opened Basics
  import opened Options
  import opened AgentEvents

  datatype HarnessPhase = Idle | Turn | Compaction | BranchSummary

  datatype Write =
    | MessageWrite(message: Message)
    | ModelChange(provider: string, modelId: string)
    | ThinkingLevelChange(level: string)
    | ActiveToolsChange(names: seq<string>)

  /** An entry of the session log: a message of a run, or something written through the harness. */
  datatype Entry = FromTurn(message: Message) | FromWrite(write: Write)

  /** Where in the session the response of a finished turn and its tool results stand. */
  datatype Closed = Closed(start: nat, messages: seq<Message>)

  /** What is written while an event is handled: before it, by its listeners, in each step of the flush that
      follows, and, after a turn, in the flush that prepares the next one. */
  datatype Meanwhile = Meanwhile(before: seq<Write>, during: seq<Write>, flush: seq<seq<Write>>, between: seq<Write>,
                                 prepares: bool, prepare: seq<seq<Write>>)

  datatype Result = Done | Refused(reason: string)

  function Entries(messages: seq<Message>): (entries: seq<Entry>)
    ensures |entries| == |messages|
  {
    seq(|messages|, i requires 0 <= i < |messages| => FromTurn(messages[i]))
  }

  function Written(session: seq<Entry>): seq<Write> {
    if session == [] then []
    else Written(session[..|session| - 1])
         + (if session[|session| - 1].FromWrite? then [session[|session| - 1].write] else [])
  }

  /** The messages that came from runs. */
  function Transcript(session: seq<Entry>): seq<Message> {
    if session == [] then []
    else Transcript(session[..|session| - 1])
         + (if session[|session| - 1].FromTurn? then [session[|session| - 1].message] else [])
  }

  lemma WrittenMore(session: seq<Entry>, e: Entry)
    ensures Written(session + [e]) == Written(session) + (if e.FromWrite? then [e.write] else [])
    ensures Transcript(session + [e]) == Transcript(session) + (if e.FromTurn? then [e.message] else [])
  {
    assert (session + [e])[..|session|] == session;
  }

  /** What a turn closed with is still together in the session. */
  predicate Together(session: seq<Entry>, c: Closed) {
    c.start + |c.messages| <= |session| && session[c.start..c.start + |c.messages|] == Entries(c.messages)
  }

  lemma StillTogether(session: seq<Entry>, e: Entry, closed: seq<Closed>)
    requires forall c :: c in closed ==> Together(session, c)
    ensures forall c :: c in closed ==> Together(session + [e], c)
  {
    forall c | c in closed ensures Together(session + [e], c) {
      assert (session + [e])[c.start..c.start + |c.messages|] == session[c.start..c.start + |c.messages|];
    }
  }

  predicate Known(names: seq<string>, tools: seq<string>) { forall n :: n in names ==> n in tools }

  class AgentHarness {
    var phase: HarnessPhase
    var pendingSessionWrites: seq<Write>
    var session: seq<Entry>
    var model: (string, string)
    var thinkingLevel: string
    var tools: seq<string>
    var activeToolNames: seq<string>

    ghost var requested: seq<Write>
    ghost var reader: Reader
    ghost var mark: nat
    ghost var closed: seq<Closed>

    /** Every write asked for is in the session or waits: each exactly once. */
    ghost predicate Conserved()
      reads this`session, this`pendingSessionWrites, this`requested
    {
      multiset(Written(session)) + multiset(pendingSessionWrites) == multiset(requested)
    }

    /** And in the order in which they were asked for. */
    ghost predicate InOrder()
      reads this`session, this`pendingSessionWrites, this`requested
    {
      Written(session) + pendingSessionWrites == requested
    }

    /** The messages of the turn under way stand together at the end of the session, and so do, further up,
        the response and the tool results of each turn that ended. */
    ghost predicate TurnsTogether()
      reads this`session, this`reader, this`mark, this`closed
    {
      && (reader.phase == InTurn || reader.phase.InMessage? ==>
            mark + |reader.turn| == |session| && session[mark..] == Entries(reader.turn))
      && forall c :: c in closed ==> Together(session, c)
    }

    ghost predicate Valid()
      reads this`session, this`pendingSessionWrites, this`requested, this`reader, this`mark, this`closed, this`phase
    {
      Conserved() && TurnsTogether() && (phase == Idle ==> reader.phase == Before || reader.phase == Ended)
    }

    constructor (tools: seq<string>)
      requires Distinct(tools)
      ensures Valid() && InOrder() && phase == Idle && session == [] && pendingSessionWrites == [] && requested == []
    {
      phase, pendingSessionWrites, session := Idle, [], [];
      model, thinkingLevel := ("", ""), "off";
      this.tools, activeToolNames := tools, tools;
      requested, reader, mark, closed := [], UNREAD, 0, [];
    }

    // ---------- Writing ----------

    method AppendEntry(e: Entry)
      requires forall c :: c in closed ==> Together(session, c)
      modifies this`session
      ensures session == old(session) + [e]
      ensures Written(session) == old(Written(session)) + (if e.FromWrite? then [e.write] else [])
      ensures Transcript(session) == old(Transcript(session)) + (if e.FromTurn? then [e.message] else [])
      ensures forall c :: c in closed ==> Together(session, c)
    {
      hide Written, Transcript, Together;
      WrittenMore(session, e);
      StillTogether(session, e, closed);
      session := session + [e];
    }

    /** A write has gone to the session at once, as the harness was idle, or else waits. Nothing else has
        changed, and the writes are still in order unless a direct one has overtaken a different one. */
    twostate predicate Recorded(w: Write)
      reads this`session, this`pendingSessionWrites, this`requested
    {
      && requested == old(requested) + [w] && Transcript(session) == old(Transcript(session))
      && session == old(session) + (if old(phase) == Idle then [FromWrite(w)] else [])
      && pendingSessionWrites == old(pendingSessionWrites) + (if old(phase) == Idle then [] else [w])
      && (old(InOrder()) ==>
            (InOrder() <==> old(phase) != Idle || forall p :: p in old(pendingSessionWrites) ==> p == w))
    }

    /** Nothing is written and nothing waits that did not before. */
    twostate predicate NothingRecorded()
      reads this`session, this`pendingSessionWrites, this`requested
    {
      requested == old(requested) && session == old(session) && pendingSessionWrites == old(pendingSessionWrites)
    }

    method RecordWrite(w: Write)
      requires Valid()
      modifies this`session, this`pendingSessionWrites, this`requested
      ensures Valid() && Recorded(w)
    {
      hide Written, Transcript, Together;
      ghost var written, waiting := Written(session), pendingSessionWrites;
      Direct(written, waiting, requested, w);
      Deferred(written, waiting, requested, w);
      requested := requested + [w];
      if phase == Idle {
        AppendEntry(FromWrite(w));
      } else {
        pendingSessionWrites := pendingSessionWrites + [w];
      }
    }

    method RecordWrites(writes: seq<Write>)
      requires Valid() && phase != Idle
      modifies this`pendingSessionWrites, this`session, this`requested
      ensures Valid() && requested == old(requested) + writes && session == old(session)
      ensures pendingSessionWrites == old(pendingSessionWrites) + writes
      ensures old(InOrder()) ==> InOrder()
    {
      hide Written, Transcript, Together, Valid, InOrder;
      var i := 0;
      while i < |writes|
        invariant 0 <= i <= |writes|
        invariant Valid() && requested == old(requested) + writes[..i] && session == old(session)
        invariant pendingSessionWrites == old(pendingSessionWrites) + writes[..i]
        invariant old(InOrder()) ==> InOrder()
      {
        assert writes[..i + 1] == writes[..i] + [writes[i]];
        RecordWrite(writes[i]);
        i := i + 1;
      }
      assert writes[..i] == writes;
    }

    /** The oldest waiting write is applied. */
    method ApplyFirst()
      requires Valid() && phase != Idle && !reader.phase.InTurn? && !reader.phase.InMessage?
               && pendingSessionWrites != []
      modifies this`session, this`pendingSessionWrites
      ensures Valid() && pendingSessionWrites == old(pendingSessionWrites[1..])
              && Transcript(session) == old(Transcript(session))
      ensures old(InOrder()) ==> InOrder()
    {
      hide Written, Transcript, Together;
      Applied(Written(session), pendingSessionWrites, requested);
      AppendEntry(FromWrite(pendingSessionWrites[0]));
      pendingSessionWrites := pendingSessionWrites[1..];
    }

    /** Applies what waits, oldest first, including what is written meanwhile. */
    method FlushPendingSessionWrites(meanwhile: seq<seq<Write>>)
      requires Valid() && phase != Idle && !reader.phase.InTurn? && !reader.phase.InMessage?
      modifies this`session, this`pendingSessionWrites, this`requested
      ensures Valid() && pendingSessionWrites == [] && Transcript(session) == old(Transcript(session))
      ensures old(InOrder()) ==> InOrder()
    {
      hide Written, Transcript, Together, Valid, InOrder;
      var i := 0;
      while |pendingSessionWrites| > 0
        invariant 0 <= i <= |meanwhile| && Valid() && Transcript(session) == old(Transcript(session))
        invariant old(InOrder()) ==> InOrder()
        decreases |meanwhile| - i, |pendingSessionWrites|
      {
        if i < |meanwhile| {
          RecordWrites(meanwhile[i]);
          i := i + 1;
        }
        ApplyFirst();
      }
    }

    // ---------- Runs ----------

    /** What the harness does with an event of its run. */
    method HandleAgentEvent(e: Event, m: Meanwhile)
      requires Valid() && phase == Turn && CanRead(reader, e)
      modifies this`session, this`pendingSessionWrites, this`requested, this`reader, this`mark, this`closed, this`phase
      ensures Valid() && reader == Next(old(reader), e)
      ensures phase == (if e.AgentEnd? then Idle else Turn)
      ensures old(InOrder()) ==> InOrder()
      ensures e.AgentEnd? ==> pendingSessionWrites == []
      ensures Transcript(session) == old(Transcript(session)) + (if e.MessageEnd? then [e.message] else [])
      ensures |closed| == |old(closed)| + (if e.TurnEnd? then 1 else 0) && closed[..|old(closed)|] == old(closed)
      ensures e.TurnEnd? ==> closed[|old(closed)|].messages == [e.message] + e.toolResults
    {
      hide Written, Transcript, Together, Conserved, TurnsTogether, InOrder, CanRead, Next;
      RecordWrites(m.before);
      match e {
        case MessageEnd(message) =>
          AppendMessageOf(message);
          RecordWrites(m.during);
        case TurnEnd(_, _) =>
          RecordWrites(m.during);
          CloseTurn(e);
          FlushPendingSessionWrites(m.flush);
          if m.prepares {
            RecordWrites(m.between);
            FlushPendingSessionWrites(m.prepare);
          }
        case AgentEnd(_) =>
          Track(e);
          FlushPendingSessionWrites(m.flush);
          Rest();
          WriteDirectly(m.during);
        case _ =>
          Track(e);
          RecordWrites(m.during);
      }
    }

    ghost method Track(e: Event)
      requires Valid() && phase == Turn && CanRead(reader, e) && !e.MessageEnd? && !e.TurnEnd?
      modifies this`reader, this`mark
      ensures Valid() && reader == Next(old(reader), e) && (e.AgentEnd? ==> reader.phase == Ended)
      ensures old(InOrder()) ==> InOrder()
    {
      hide Written, Together, SameMessage, EndsWith, AnswersInOrder;
      reader := Next(reader, e);
      if e.TurnStart? {
        mark := |session|;
      }
    }

    method AppendMessageOf(message: Message)
      requires Valid() && phase == Turn && CanRead(reader, MessageEnd(message))
      modifies this`session, this`reader
      ensures Valid() && reader == Next(old(reader), MessageEnd(message))
      ensures Transcript(session) == old(Transcript(session)) + [message]
      ensures old(InOrder()) ==> InOrder()
    {
      hide Written, Transcript, Together, SameMessage;
      assert Entries(reader.turn + [message]) == Entries(reader.turn) + [FromTurn(message)];
      AppendEntry(FromTurn(message));
      reader := Next(reader, MessageEnd(message));
    }

    ghost method CloseTurn(e: Event)
      requires Valid() && phase == Turn && e.TurnEnd? && CanRead(reader, e)
      modifies this`reader, this`closed
      ensures Valid() && reader == Next(old(reader), e)
      ensures |closed| == |old(closed)| + 1 && closed[..|old(closed)|] == old(closed)
      ensures closed[|old(closed)|].messages == [e.message] + e.toolResults
      ensures reader.phase == Between && (old(InOrder()) ==> InOrder())
    {
      hide Written, AnswersInOrder;
      var last := [e.message] + e.toolResults;
      var k := |reader.turn| - |last|;
      assert Entries(reader.turn)[k..] == Entries(reader.turn[k..]);
      assert session[mark + k..] == session[mark..][k..];
      closed := closed + [Closed(mark + k, last)];
      assert Together(session, closed[|closed| - 1]);
      reader := Next(reader, e);
    }

    method Rest()
      requires Valid() && (reader.phase == Before || reader.phase == Ended)
      modifies this`phase
      ensures Valid() && phase == Idle && (old(InOrder()) ==> InOrder())
    {
      hide Written, Together;
      phase := Idle;
    }

    /** A run: `started` says whether the state of the turn could be created; `early` are the writes made
        before the first event. */
    method Prompt(started: bool, early: seq<Write>, trace: seq<Event>, meanwhile: nat -> Meanwhile)
      returns (result: Result)
      requires Valid() && WellFormed(trace) && Read(trace).value.phase == Ended
      modifies this
      ensures Valid() && (old(InOrder()) ==> InOrder())
      ensures result.Done? <==> old(phase) == Idle && started
      ensures old(phase) != Idle ==>
                phase == old(phase) && session == old(session) && pendingSessionWrites == old(pendingSessionWrites)
      ensures old(phase) == Idle ==> phase == Idle
      ensures old(phase) == Idle && !started ==>
                session == old(session) && pendingSessionWrites == old(pendingSessionWrites) + early
      ensures result.Done? ==> pendingSessionWrites == []
      ensures result.Done? ==> Transcript(session) == old(Transcript(session)) + MessagesOf(trace)
      ensures result.Done? ==> ClosedWith(closed, |old(closed)|, TurnsOf(trace))
    {
      hide Written, Transcript, Together, Conserved, TurnsTogether, InOrder, Read, MessagesOf, TurnsOf, CanRead, Next;
      if phase != Idle {
        return Refused("AgentHarness is busy");
      }
      Begin();
      RecordWrites(early);
      if !started {
        Rest();
        return Refused("unknown");
      }
      NothingRead();
      var i := 0;
      while i < |trace|
        invariant 0 <= i <= |trace| && Valid() && (old(InOrder()) ==> InOrder())
        invariant Read(trace[..i]).Some? && reader == Read(trace[..i]).value
        invariant phase == (if reader.phase == Ended then Idle else Turn)
        invariant reader.phase == Ended ==> pendingSessionWrites == []
        invariant Transcript(session) == old(Transcript(session)) + MessagesOf(trace[..i])
        invariant ClosedWith(closed, |old(closed)|, TurnsOf(trace[..i]))
      {
        ReadOne(trace, i);
        PhaseAfter(reader, trace[i]);
        HandleAgentEvent(trace[i], meanwhile(i));
        i := i + 1;
      }
      assert trace[..i] == trace;
      result := Done;
    }

    method Begin()
      requires Valid() && phase == Idle
      modifies this`phase, this`reader
      ensures Valid() && phase == Turn && reader == UNREAD && (old(InOrder()) ==> InOrder())
    {
      hide Written, Together;
      phase := Turn;
      reader := UNREAD;
    }

    // ---------- Other operations ----------

    /** compact() and navigateTree() keep the harness busy and do not flush what was written meanwhile. */
    method WhileBusy(kind: HarnessPhase, during: seq<Write>) returns (result: Result)
      requires Valid() && (kind == Compaction || kind == BranchSummary)
      modifies this`phase, this`pendingSessionWrites, this`session, this`requested
      ensures Valid() && phase == old(phase) && session == old(session) && (old(InOrder()) ==> InOrder())
      ensures pendingSessionWrites == old(pendingSessionWrites) + (if old(phase) == Idle then during else [])
      ensures result.Done? <==> old(phase) == Idle
    {
      hide Written, Transcript, Together;
      if phase != Idle {
        return Refused("busy");
      }
      phase := kind;
      RecordWrites(during);
      Rest();
      result := Done;
    }

    method AppendMessage(message: Message)
      requires Valid()
      modifies this`session, this`pendingSessionWrites, this`requested
      ensures Valid() && Recorded(MessageWrite(message))
    {
      hide Written, Transcript, Together;
      RecordWrite(MessageWrite(message));
    }

    method SetModel(provider: string, id: string)
      requires Valid()
      modifies this`session, this`pendingSessionWrites, this`requested, this`model
      ensures Valid() && Recorded(ModelChange(provider, id)) && model == (provider, id)
    {
      hide Written, Transcript, Together;
      RecordWrite(ModelChange(provider, id));
      model := (provider, id);
    }

    method SetThinkingLevel(level: string)
      requires Valid()
      modifies this`session, this`pendingSessionWrites, this`requested, this`thinkingLevel
      ensures Valid() && Recorded(ThinkingLevelChange(level)) && thinkingLevel == level
    {
      hide Written, Transcript, Together;
      RecordWrite(ThinkingLevelChange(level));
      thinkingLevel := level;
    }

    /** Names that are repeated or unknown are refused before anything is written. */
    method SetActiveTools(names: seq<string>) returns (result: Result)
      requires Valid()
      modifies this`session, this`pendingSessionWrites, this`requested, this`activeToolNames
      ensures Valid() && (result.Done? <==> Distinct(names) && Known(names, tools))
      ensures if result.Done? then Recorded(ActiveToolsChange(names)) else NothingRecorded()
      ensures activeToolNames == if result.Done? then names else old(activeToolNames)
    {
      hide Written, Transcript, Together;
      if !Distinct(names) || !Known(names, tools) {
        return Refused("invalid_argument");
      }
      RecordWrite(ActiveToolsChange(names));
      activeToolNames := names;
      result := Done;
    }

    /** With new tools, the active ones stay as they are unless others are named. */
    method SetTools(newTools: seq<string>, names: Option<seq<string>>) returns (result: Result)
      requires Valid()
      modifies this`session, this`pendingSessionWrites, this`requested, this`tools, this`activeToolNames
      ensures Valid()
      ensures var next := if names.Some? then names.value else old(activeToolNames);
              && (result.Done? <==> Distinct(newTools) && Distinct(next) && Known(next, newTools))
              && (if result.Done? then Recorded(ActiveToolsChange(next)) else NothingRecorded())
              && (result.Done? ==> tools == newTools && activeToolNames == next)
      ensures result.Refused? ==> tools == old(tools) && activeToolNames == old(activeToolNames)
    {
      hide Valid, Recorded, Distinct, Known;
      var next := if names.Some? then names.value else activeToolNames;
      if !Distinct(newTools) || !Distinct(next) || !Known(next, newTools) {
        return Refused("invalid_argument");
      }
      RecordWrite(ActiveToolsChange(next));
      tools, activeToolNames := newTools, next;
      result := Done;
    }

    /** Writes made while nothing runs and nothing waits. */
    method WriteDirectly(writes: seq<Write>)
      requires Valid() && phase == Idle && pendingSessionWrites == []
      modifies this`session, this`pendingSessionWrites, this`requested
      ensures Valid() && pendingSessionWrites == [] && Transcript(session) == old(Transcript(session))
      ensures old(InOrder()) ==> InOrder()
    {
      hide Written, Transcript, Together, Valid, InOrder;
      var i := 0;
      while i < |writes|
        invariant 0 <= i <= |writes|
        invariant Valid() && pendingSessionWrites == [] && Transcript(session) == old(Transcript(session))
        invariant old(InOrder()) ==> InOrder()
      {
        RecordWrite(writes[i]);
        i := i + 1;
      }
    }
  }

  /** The turns closed since `n` are these. */
  predicate ClosedWith(closed: seq<Closed>, n: nat, turns: seq<seq<Message>>) {
    |closed| == n + |turns| && forall k :: 0 <= k < |turns| ==> closed[n + k].messages == turns[k]
  }

  /** The response and the tool results of each turn. */
  function TurnsOf(trace: seq<Event>): seq<seq<Message>> {
    if trace == [] then []
    else
      var last := trace[|trace| - 1];
      TurnsOf(trace[..|trace| - 1]) + (if last.TurnEnd? then [[last.message] + last.toolResults] else [])
  }

  lemma NothingRead()
    ensures Read([]) == Some(UNREAD) && MessagesOf([]) == [] && TurnsOf([]) == []
  {
  }

  lemma ReadOne(trace: seq<Event>, i: nat)
    requires WellFormed(trace) && i < |trace|
    ensures Read(trace[..i]).Some? && CanRead(Read(trace[..i]).value, trace[i])
    ensures Read(trace[..i + 1]) == Some(Next(Read(trace[..i]).value, trace[i]))
    ensures MessagesOf(trace[..i + 1])
            == MessagesOf(trace[..i]) + (if trace[i].MessageEnd? then [trace[i].message] else [])
    ensures TurnsOf(trace[..i + 1])
         == TurnsOf(trace[..i]) + (if trace[i].TurnEnd? then [[trace[i].message] + trace[i].toolResults] else [])
  {
    hide CanRead, Next;
    PrefixIsWellFormed(trace, i + 1);
    assert trace[..i + 1][..i] == trace[..i] && trace[..i + 1][i] == trace[i];
  }

  lemma PhaseAfter(r: Reader, e: Event)
    requires CanRead(r, e)
    ensures r.phase != Ended && (Next(r, e).phase == Ended <==> e.AgentEnd?)
  {
    hide EndsWith, AnswersInOrder, SameMessage;
  }

  lemma Overtakes(first: Write, second: Write)
    requires first != second
    ensures [] + [FromWrite(second)] == [FromWrite(second)] && [] + [first] == [first]
            && [first] + [second] == [first, second]
    ensures Written([FromWrite(second)]) + [first] != [first, second]
  {
    assert Written([FromWrite(second)]) == [second];
    assert ([second] + [first])[0] == second;
  }

  /** A write that was deferred while the harness compacted is overtaken by one made after it: the deferral
      keeps the order only if nothing waits when a write is made at once. */
  method OvertakenAfterCompaction(first: string, second: string) returns (harness: AgentHarness)
    requires first != second
    ensures fresh(harness) && harness.Valid() && harness.phase == Idle && !harness.InOrder()
    ensures harness.requested == [ModelChange("", first), ModelChange("", second)]
    ensures harness.session == [FromWrite(ModelChange("", second))]
            && harness.pendingSessionWrites == [ModelChange("", first)]
  {
    hide AgentHarness.Valid, Written, Transcript;
    harness := new AgentHarness([]);
    var _ := harness.WhileBusy(Compaction, [ModelChange("", first)]);
    harness.SetModel("", second);
    Overtakes(ModelChange("", first), ModelChange("", second));
  }

  // A write can be moved from behind the waiting ones to before them only if they are all the same.
  lemma {:induction false} RotatesOnlySame(w: Write, waiting: seq<Write>)
    requires [w] + waiting == waiting + [w]
    ensures forall p :: p in waiting ==> p == w
    decreases |waiting|
  {
    if waiting != [] {
      assert ([w] + waiting)[0] == w && (waiting + [w])[0] == waiting[0];
      assert ([w] + waiting)[1..] == waiting && (waiting + [w])[1..] == waiting[1..] + [w];
      assert [w] + waiting[1..] == waiting;
      RotatesOnlySame(w, waiting[1..]);
    }
  }

  lemma SameRotates(w: Write, waiting: seq<Write>)
    requires forall p :: p in waiting ==> p == w
    ensures [w] + waiting == waiting + [w]
  {
    forall k | 0 <= k < |waiting| + 1 ensures ([w] + waiting)[k] == w == (waiting + [w])[k] {
      assert k < |waiting| ==> waiting[k] in waiting;
      assert k > 0 ==> waiting[k - 1] in waiting;
    }
  }

  lemma Direct(written: seq<Write>, waiting: seq<Write>, requested: seq<Write>, w: Write)
    requires multiset(written) + multiset(waiting) == multiset(requested)
    ensures multiset(written + [w]) + multiset(waiting) == multiset(requested + [w])
    ensures written + waiting == requested ==>
              (written + [w] + waiting == requested + [w] <==> forall p :: p in waiting ==> p == w)
  {
    if written + waiting == requested {
      assert written + [w] + waiting == written + ([w] + waiting);
      assert requested + [w] == written + (waiting + [w]);
      if forall p :: p in waiting ==> p == w {
        SameRotates(w, waiting);
      }
      if written + [w] + waiting == requested + [w] {
        assert (written + ([w] + waiting))[|written|..] == [w] + waiting;
        assert (written + (waiting + [w]))[|written|..] == waiting + [w];
        RotatesOnlySame(w, waiting);
      }
    }
  }

  lemma Deferred(written: seq<Write>, waiting: seq<Write>, requested: seq<Write>, w: Write)
    requires multiset(written) + multiset(waiting) == multiset(requested)
    ensures multiset(written) + multiset(waiting + [w]) == multiset(requested + [w])
    ensures written + waiting == requested ==> written + (waiting + [w]) == requested + [w]
  {
    assert written + waiting + [w] == written + (waiting + [w]);
  }

  lemma Applied(written: seq<Write>, waiting: seq<Write>, requested: seq<Write>)
    requires waiting != [] && multiset(written) + multiset(waiting) == multiset(requested)
    ensures multiset(written + [waiting[0]]) + multiset(waiting[1..]) == multiset(requested)
    ensures written + waiting == requested ==> written + [waiting[0]] + waiting[1..] == requested
  {
    assert waiting == [waiting[0]] + waiting[1..];
    assert written + [waiting[0]] + waiting[1..] == written + waiting;
    assert multiset(waiting) == multiset{waiting[0]} + multiset(waiting[1..]);
  }
}
