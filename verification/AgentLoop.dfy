/** The agent loop and the agent around it: turns, tool batches, queued messages. */
module AgentLoop {
  import opened Options
  import opened AgentEvents
  import opened ToolBatches

  datatype QueueMode = All | OneAtATime

  /** What a queue gives up at once. */
  function Front(mode: QueueMode, queue: seq<Message>): seq<Message> {
    if mode == All || queue == [] then queue else [queue[0]]
  }

  class PendingMessageQueue {
    var messages: seq<Message>
    var mode: QueueMode

    constructor (mode: QueueMode)
      ensures messages == [] && this.mode == mode
    {
      this.messages, this.mode := [], mode;
    }

    method Enqueue(message: Message)
      modifies this`messages
      ensures messages == old(messages) + [message]
    {
      messages := messages + [message];
    }

    /** Takes everything, or at most one message, from the front. */
    method Drain() returns (drained: seq<Message>)
      modifies this`messages
      ensures drained + messages == old(messages)
      ensures drained == Front(mode, old(messages))
    {
      if mode == All {
        drained := messages;
        messages := [];
        return;
      }
      if messages == [] {
        return [];
      }
      drained := [messages[0]];
      messages := messages[1..];
    }
  }

  // ---------- What the surroundings do ----------

  datatype StreamEvent = Start(partial: Message) | Delta(partial: Message) | Finished

  /** What is queued, and how the modes are set, before the loop next asks for messages. */
  datatype Arrivals = Arrivals(steering: seq<Message>, followUps: seq<Message>, steeringMode: QueueMode,
                               followUpMode: QueueMode)

  /** All that one turn finds: the response stream and its final message, what each tool call comes to and in
      which order, a context that replaces the current one, the decision to stop, the messages queued by the
      end of the turn, and those queued after its poll for steering, before one for follow-up messages. */
  datatype Turn = Turn(stream: seq<StreamEvent>, final: Message, sequential: bool, attempts: Attempts,
                       schedule: seq<Activity>, replacement: Option<seq<Message>>, stop: bool,
                       arrivals: Arrivals, late: Arrivals)

  /** A response starts at most once, and all its versions are assistant messages. */
  ghost predicate IsResponse(t: Turn) {
    && t.final.Assistant?
    && (forall i :: 0 <= i < |t.stream| && !t.stream[i].Finished? ==> t.stream[i].partial.Assistant?)
    && (forall i, j :: 0 <= i < j < |t.stream| ==> !(t.stream[i].Start? && t.stream[j].Start?))
  }

  ghost predicate AreResponses(script: seq<Turn>) {
    forall t :: t in script ==> IsResponse(t)
  }

  /** How many stream events come before the end of the response. */
  function UntilFinished(stream: seq<StreamEvent>, i: nat := 0): (n: nat)
    requires i <= |stream|
    ensures i <= n <= |stream| && forall k :: i <= k < n ==> !stream[k].Finished?
    ensures n < |stream| ==> stream[n].Finished?
    decreases |stream| - i
  {
    if i == |stream| || stream[i].Finished? then i else UntilFinished(stream, i + 1)
  }

  /** What is shown of a response while it streams: its start and every version after that. */
  function Streamed(stream: seq<StreamEvent>): seq<Event> {
    if stream == [] then []
    else
      var k := |stream| - 1;
      var before := Streamed(stream[..k]);
      match stream[k]
      case Start(partial) => before + [MessageStart(partial)]
      case Delta(partial) => if before == [] then [] else before + [MessageUpdate(partial)]
      case Finished => before
  }

  lemma NothingStreamed(stream: seq<StreamEvent>)
    ensures Streamed(stream[..0]) == []
  {
  }

  lemma StreamsMore(stream: seq<StreamEvent>, i: nat)
    requires i < |stream|
    ensures var before, now := Streamed(stream[..i]), Streamed(stream[..i + 1]);
            match stream[i]
            case Start(partial) => now == before + [MessageStart(partial)]
            case Delta(partial) => now == if before == [] then [] else before + [MessageUpdate(partial)]
            case Finished => now == before
  {
    assert stream[..i + 1][..i] == stream[..i];
  }

  lemma FinishedAt(stream: seq<StreamEvent>, i: nat)
    requires i <= |stream| && (forall k :: 0 <= k < i ==> !stream[k].Finished?)
    requires i < |stream| ==> stream[i].Finished?
    ensures UntilFinished(stream) == i
  {
  }

  /** The events of a response: one that never starts is shown when it is complete. */
  function ResponseEvents(t: Turn): seq<Event> {
    var shown := Streamed(t.stream[..UntilFinished(t.stream)]);
    (if shown == [] then [MessageStart(t.final)] else shown) + [MessageEnd(t.final)]
  }

  // ---------- Where messages come from ----------

  datatype Origin = Own | Steered | FollowedUp

  function From(messages: seq<Message>, origins: seq<Origin>, o: Origin): seq<Message>
    requires |messages| == |origins|
    decreases |messages|
  {
    if messages == [] then []
    else
      var k := |messages| - 1;
      From(messages[..k], origins[..k], o) + (if origins[k] == o then [messages[k]] else [])
  }

  lemma FromMore(messages: seq<Message>, origins: seq<Origin>, m: Message, origin: Origin, o: Origin)
    requires |messages| == |origins|
    ensures From(messages + [m], origins + [origin], o)
            == From(messages, origins, o) + (if origin == o then [m] else [])
  {
    assert (messages + [m])[..|messages|] == messages && (origins + [origin])[..|messages|] == origins;
  }

  /** The reader after some more messages, some of them announced tool results. */
  function After(r: Reader, messages: seq<Message>, reported: multiset<Message>): Reader {
    r.(messages := r.messages + messages, turn := r.turn + messages, reported := r.reported + reported)
  }

  lemma AfterMessage(r: Reader, first: seq<Message>, m: Message, reported: multiset<Message>)
    ensures After(After(r, first, reported), [m], multiset{}) == After(r, first + [m], reported)
  {
    assert r.messages + first + [m] == r.messages + (first + [m]);
    assert r.turn + first + [m] == r.turn + (first + [m]);
    assert r.reported + reported + multiset{} == r.reported + reported;
  }

  lemma AfterResult(r: Reader, first: seq<Message>, m: Message)
    ensures After(After(r, first, multiset(first)), [m], multiset{m}) == After(r, first + [m], multiset(first + [m]))
  {
    assert r.messages + first + [m] == r.messages + (first + [m]);
    assert r.turn + first + [m] == r.turn + (first + [m]);
    assert r.reported + multiset(first) + multiset{m} == r.reported + multiset(first + [m]);
  }

  lemma AfterTurn(r: Reader, message: Message, results: seq<Message>)
    ensures After(After(r, [message], multiset{}), results, multiset(results))
            == After(r, [message] + results, multiset(results))
  {
    assert r.messages + [message] + results == r.messages + ([message] + results);
    assert r.turn + [message] + results == r.turn + ([message] + results);
    assert r.reported + multiset{} + multiset(results) == r.reported + multiset(results);
  }

  lemma TurnMayEnd(r: Reader, message: Message, results: seq<Message>)
    requires r.phase == InTurn && r.open == multiset{} && r.reported == multiset{} && AnswersInOrder(message, results)
    ensures CanRead(After(r, [message] + results, multiset(results)), TurnEnd(message, results))
  {
  }

  lemma TruncatedAnswers(message: Message, k: nat)
    requires message.Assistant? && k <= |ToolCalls(message.content)|
    ensures AnswersInOrder(message, TruncatedResults(ToolCalls(message.content), k))
  {
    hide TruncatedResults, TruncatedReason, ToolCalls;
    forall i | 0 <= i < k
      ensures var m := TruncatedResults(ToolCalls(message.content), k)[i];
              m.ToolResult? && m.callId == ToolCalls(message.content)[i].id
    {
      TruncatedResultsAt(ToolCalls(message.content), k, i);
    }
  }

  lemma ExecutedAnswers(message: Message, attempts: Attempts)
    requires message.Assistant?
    ensures AnswersInOrder(message, Executed(ToolCalls(message.content), attempts).messages)
  {
    hide Executed, ToolCalls;
    ExecutedInOrder(ToolCalls(message.content), attempts);
  }

  predicate GaveUp(t: Turn)
    requires t.final.Assistant?
  {
    t.final.stopReason == Error || t.final.stopReason == Aborted
  }

  /** The tool results of a turn, and whether its tool calls end the run. */
  function TurnBatch(t: Turn): Batch
    requires t.final.Assistant?
  {
    var calls := ToolCalls(t.final.content);
    if GaveUp(t) || calls == [] then Batch([], true)
    else if t.final.stopReason == Length then Batch(TruncatedResults(calls, |calls|), false)
    else Executed(calls, t.attempts)
  }

  /** A call is answered, and does not end the run: truncated calls never do. */
  ghost predicate Asks(t: Turn, i: nat)
    requires t.final.Assistant?
  {
    t.final.stopReason == Length
    || (Uninterrupted(t.attempts, i) && !FinalOutcome(t.attempts(i)).terminate)
  }

  /** The tool calls of a turn ask for another response. */
  ghost predicate CallsOn(t: Turn) {
    && t.final.Assistant? && !GaveUp(t)
    && exists i :: 0 <= i < |ToolCalls(t.final.content)| && Asks(t, i)
  }

  lemma {:induction false} ReachedUpToAbort(attempts: Attempts, n: nat, i: nat, k: nat)
    requires i <= k < n
    ensures k < Reached(attempts, n, i) <==> forall j :: i <= j < k ==> !attempts(j).aborted
    decreases n - i
  {
    if i < k && !attempts(i).aborted {
      ReachedUpToAbort(attempts, n, i + 1, k);
    }
  }

  lemma ReachesFirst(attempts: Attempts, n: nat)
    requires n > 0
    ensures Reached(attempts, n) > 0
  {
  }

  lemma CallsOnIff(t: Turn)
    requires t.final.Assistant?
    ensures CallsOn(t) <==> !TurnBatch(t).terminate
  {
    hide FinalOutcome, ToolCalls, Results, Reached, TruncatedResults;
    var calls := ToolCalls(t.final.content);
    var k := Reached(t.attempts, |calls|);
    forall i: nat | i < |calls| ensures Asks(t, i) <==>
      t.final.stopReason == Length || (i < k && !FinalOutcome(t.attempts(i)).terminate)
    {
      ReachedUpToAbort(t.attempts, |calls|, 0, i);
    }
    if calls != [] && t.final.stopReason != Length {
      ReachesFirst(t.attempts, |calls|);
      if CallsOn(t) {
        var i :| 0 <= i < |calls| && Asks(t, i);
        assert i < k && !FinalOutcome(t.attempts(i)).terminate;
      } else {
        forall i | 0 <= i < k ensures GaveUp(t) || FinalOutcome(t.attempts(i)).terminate {
          assert GaveUp(t) || !Asks(t, i);
        }
      }
    } else if calls != [] {
      assert Asks(t, 0);
    }
  }

  /** How a run comes to rest: nothing is left to do, the response failed or was aborted, a hook stopped it;
      or it is still going on. */
  datatype End = Quiet | Failed | Stopped | StillRunning

  // ---------- What a run does with its turns ----------

  /** `injected` are the queued messages put before the response of each turn taken. A turn is followed by
      another if it neither fails nor is stopped, and for a reason: its tool calls, or queued messages. */
  ghost predicate Proceeds(script: seq<Turn>, injected: seq<seq<Message>>, next: seq<Message>)
    requires |injected| <= |script|
  {
    forall k :: 0 <= k < |injected| ==>
      && script[k].final.Assistant? && !GaveUp(script[k]) && !script[k].stop
      && (CallsOn(script[k]) || (if k + 1 < |injected| then injected[k + 1] else next) != [])
  }

  /** A run ends with its last turn: that one failed, or was stopped, or its tool calls did not ask for another
      response and neither poll after it found anything. */
  ghost predicate Runs(script: seq<Turn>, injected: seq<seq<Message>>, end: End, leftover: seq<Message>) {
    && |injected| <= |script|
    && if end == StillRunning then |injected| == |script| && Proceeds(script, injected, leftover)
       else
         && injected != []
         && Proceeds(script, injected[..|injected| - 1], injected[|injected| - 1])
         && var last := script[|injected| - 1];
            && last.final.Assistant?
            && (end == Failed <==> GaveUp(last))
            && (end == Stopped <==> !GaveUp(last) && last.stop)
            && (end == Quiet ==> !CallsOn(last) && last.arrivals.steering == [] && last.late.followUps == [])
  }

  /** What the turns taken add to the transcript. */
  ghost function Said(script: seq<Turn>, injected: seq<seq<Message>>): seq<Message>
    requires |injected| <= |script| && AreResponses(script)
  {
    if injected == [] then []
    else
      var k := |injected| - 1;
      assert IsResponse(script[k]);
      Said(script, injected[..k]) + (injected[k] + [script[k].final] + TurnBatch(script[k]).messages)
  }

  /** The context after a turn: a hook may replace it once the turn has ended. */
  function NextContext(t: Turn, context: seq<Message>): seq<Message>
    requires t.final.Assistant?
  {
    if !GaveUp(t) && t.replacement.Some? then t.replacement.value
    else context + [t.final] + TurnBatch(t).messages
  }

  /** The context after the turns taken. */
  ghost function ContextAfter(script: seq<Turn>, injected: seq<seq<Message>>, start: seq<Message>): seq<Message>
    requires |injected| <= |script| && AreResponses(script)
  {
    if injected == [] then start
    else
      var k := |injected| - 1;
      assert IsResponse(script[k]);
      NextContext(script[k], ContextAfter(script, injected[..k], start) + injected[k])
  }

  lemma NoContext(script: seq<Turn>, start: seq<Message>)
    requires AreResponses(script)
    ensures ContextAfter(script, [], start) == start
  {
  }

  lemma ContextGrows(script: seq<Turn>, injected: seq<seq<Message>>, pending: seq<Message>, start: seq<Message>)
    requires AreResponses(script) && |injected| < |script| && IsResponse(script[|injected|])
    ensures ContextAfter(script, injected + [pending], start)
            == NextContext(script[|injected|], ContextAfter(script, injected, start) + pending)
  {
    assert (injected + [pending])[..|injected|] == injected;
  }

  function TurnEndOf(t: Turn): Event
    requires t.final.Assistant?
  {
    TurnEnd(t.final, TurnBatch(t).messages)
  }

  /** The ends of the first `n` turns. */
  ghost function TurnsTaken(script: seq<Turn>, n: nat): seq<Event>
    requires n <= |script| && AreResponses(script)
  {
    if n == 0 then []
    else
      assert IsResponse(script[n - 1]);
      TurnsTaken(script, n - 1) + [TurnEndOf(script[n - 1])]
  }

  /** A run took turns of the script as `Runs` says: `said` are its messages, the prompts first, and `turns`
      the ends of turns in its trace. */
  ghost predicate Ran(script: seq<Turn>, injected: seq<seq<Message>>, end: End, leftover: seq<Message>,
                      prompts: seq<Message>, said: seq<Message>, turns: seq<Event>)
    requires AreResponses(script)
  {
    && Runs(script, injected, end, leftover)
    && said == prompts + Said(script, injected) && turns == TurnsTaken(script, |injected|)
  }

  /** The trace of such a run, up to its last event or up to a turn that has not begun yet. */
  ghost predicate Traced(script: seq<Turn>, injected: seq<seq<Message>>, end: End, leftover: seq<Message>,
                         prompts: seq<Message>, said: seq<Message>, trace: seq<Event>)
    requires AreResponses(script)
  {
    && Read(trace).Some? && Ran(script, injected, end, leftover, prompts, said, Read(trace).value.turns)
    && Read(trace).value.phase == RestingPhase(end, injected)
  }

  function RestingPhase(end: End, injected: seq<seq<Message>>): Phase {
    if end != StillRunning then Ended else if injected == [] then InTurn else Between
  }

  /** A run took some turns, none of which ended it. */
  ghost predicate Went(script: seq<Turn>, injected: seq<seq<Message>>, prompts: seq<Message>, said: seq<Message>,
                       turns: seq<Event>)
    requires AreResponses(script)
  {
    && |injected| <= |script|
    && (injected != [] ==>
          && Proceeds(script, injected[..|injected| - 1], injected[|injected| - 1])
          && var last := script[|injected| - 1];
             last.final.Assistant? && !GaveUp(last) && !last.stop)
    && said == prompts + Said(script, injected) && turns == TurnsTaken(script, |injected|)
  }

  lemma IsAmong(script: seq<Turn>, k: nat)
    requires AreResponses(script) && k < |script|
    ensures IsResponse(script[k])
  {
    hide IsResponse;
  }

  lemma NoTurnTaken(script: seq<Turn>, prompts: seq<Message>)
    requires AreResponses(script)
    ensures Went(script, [], prompts, prompts, [])
  {
    assert prompts + [] == prompts;
  }

  lemma GoesOn(script: seq<Turn>, injected: seq<seq<Message>>, pending: seq<Message>, prompts: seq<Message>,
               said: seq<Message>, turns: seq<Event>)
    requires AreResponses(script) && Went(script, injected, prompts, said, turns)
    requires injected == [] || CallsOn(script[|injected| - 1]) || pending != []
    ensures Proceeds(script, injected, pending)
    ensures |injected| == |script| ==> Ran(script, injected, StillRunning, pending, prompts, said, turns)
  {
    hide CallsOn, Said, TurnsTaken;
    var n := |injected|;
    forall k | 0 <= k < n
      ensures CallsOn(script[k]) || (if k + 1 < n then injected[k + 1] else pending) != []
    {
      assert k < n - 1 ==> injected[..n - 1][k] == injected[k];
    }
  }

  lemma TakesTurn(script: seq<Turn>, injected: seq<seq<Message>>, pending: seq<Message>, prompts: seq<Message>,
                  said: seq<Message>, turns: seq<Event>)
    requires AreResponses(script) && Went(script, injected, prompts, said, turns)
    requires |injected| < |script| && Proceeds(script, injected, pending) && IsResponse(script[|injected|])
    ensures var t, now := script[|injected|], injected + [pending];
            var more, ended := said + pending + [t.final] + TurnBatch(t).messages, turns + [TurnEndOf(t)];
            if GaveUp(t) then Ran(script, now, Failed, [], prompts, more, ended)
            else if t.stop then Ran(script, now, Stopped, [], prompts, more, ended)
            else Went(script, now, prompts, more, ended)
  {
    hide CallsOn, TurnBatch;
    assert (injected + [pending])[..|injected|] == injected;
    var t := script[|injected|];
    assert prompts + Said(script, injected) + pending + [t.final] + TurnBatch(t).messages
           == prompts + (Said(script, injected) + (pending + [t.final] + TurnBatch(t).messages));
  }

  lemma ComesToRest(script: seq<Turn>, injected: seq<seq<Message>>, prompts: seq<Message>, said: seq<Message>,
                    turns: seq<Event>)
    requires AreResponses(script) && Went(script, injected, prompts, said, turns) && injected != []
    requires var last := script[|injected| - 1];
             !CallsOn(last) && last.arrivals.steering == [] && last.late.followUps == []
    ensures Ran(script, injected, Quiet, [], prompts, said, turns)
  {
    hide CallsOn, Said, TurnsTaken;
  }

  datatype Answer = Rejected(reason: string) | Accepted(end: End)

  // ---------- The agent ----------

  class Agent {
    var messages: seq<Message>
    var streamingMessage: Option<Message>
    var pendingToolCalls: set<string>
    var errorMessage: Option<string>
    var active: bool
    const steeringQueue: PendingMessageQueue
    const followUpQueue: PendingMessageQueue

    // The arrays and the emitted events of the current run.
    var context: seq<Message>
    var newMessages: seq<Message>
    var events: seq<Event>

    ghost var reader: Reader
    ghost var before: seq<Message>
    ghost var origins: seq<Origin>
    ghost var steered: seq<Message>
    ghost var followed: seq<Message>
    ghost var enqueuedSteering: seq<Message>
    ghost var enqueuedFollowUps: seq<Message>

    ghost function State(): AgentState
      reads this`messages, this`streamingMessage, this`pendingToolCalls, this`errorMessage
    {
      AgentState(messages, streamingMessage, pendingToolCalls, errorMessage)
    }

    /** The trace of the run is well formed so far, the state follows it, and the origin of every message of
        the transcript is known. */
    ghost predicate Tracked()
      reads this`messages, this`streamingMessage, this`pendingToolCalls, this`errorMessage
      reads this`events, this`reader, this`before, this`origins, this`steered, this`followed
    {
      && Read(events) == Some(reader) && Follows(before, State(), reader)
      && |origins| == |messages|
      && From(messages, origins, Steered) == steered && From(messages, origins, FollowedUp) == followed
    }

    /** Every queued message is in the transcript, or about to be injected, or still queued: each once and in
        the order in which it was queued. */
    ghost predicate Conserved(pending: seq<Message>, origin: Origin)
      reads this`steered, this`followed, this`enqueuedSteering, this`enqueuedFollowUps
      reads steeringQueue`messages, followUpQueue`messages
    {
      && steeringQueue != followUpQueue
      && steered + (if origin == Steered then pending else []) + steeringQueue.messages == enqueuedSteering
      && followed + (if origin == FollowedUp then pending else []) + followUpQueue.messages == enqueuedFollowUps
    }

    ghost predicate Idle()
      reads this, steeringQueue, followUpQueue
    {
      Resting([], Own)
    }

    /** No run is active; `pending` has been taken from a queue for the next one. */
    ghost predicate Resting(pending: seq<Message>, origin: Origin)
      reads this, steeringQueue, followUpQueue
    {
      && !active && Conserved(pending, origin) && streamingMessage.None? && pendingToolCalls == {}
      && |origins| == |messages|
      && From(messages, origins, Steered) == steered && From(messages, origins, FollowedUp) == followed
    }

    /** The messages of the current or last run: those that ended in its trace, in order, and what it added to
        the transcript. */
    ghost predicate Recorded(earlier: seq<Message>)
      reads this`messages, this`events, this`newMessages
    {
      Read(events).Some? && Read(events).value.messages == newMessages && messages == earlier + newMessages
    }

    /** The run is over: its trace ends with its only agent_end, and the agent is idle. */
    ghost predicate Completed()
      reads this, steeringQueue, followUpQueue
    {
      Idle() && Read(events).Some? && Read(events).value.phase == Ended
    }

    constructor (messages: seq<Message>, steeringMode: QueueMode, followUpMode: QueueMode)
      ensures Idle() && this.messages == messages && enqueuedSteering == [] && enqueuedFollowUps == []
      ensures fresh(steeringQueue) && fresh(followUpQueue)
    {
      this.messages, streamingMessage, pendingToolCalls, errorMessage, active := messages, None, {}, None, false;
      context, newMessages, events := [], [], [];
      steeringQueue := new PendingMessageQueue(steeringMode);
      followUpQueue := new PendingMessageQueue(followUpMode);
      reader, before, steered, followed, enqueuedSteering, enqueuedFollowUps := UNREAD, messages, [], [], [], [];
      origins := seq(|messages|, _ => Own);
      new;
      NothingFrom(messages);
    }

    /** Reduces the state for an event. */
    method ProcessEvents(event: Event, ghost origin: Origin := Own)
      requires Tracked() && CanRead(reader, event)
      modifies this`messages, this`streamingMessage, this`pendingToolCalls, this`errorMessage
      modifies this`events, this`reader, this`origins, this`steered, this`followed
      ensures Tracked() && reader == Next(old(reader), event) && events == old(events) + [event]
      ensures State() == Reduce(old(State()), event)
      ensures steered == old(steered) + (if event.MessageEnd? && origin == Steered then [event.message] else [])
      ensures followed == old(followed) + (if event.MessageEnd? && origin == FollowedUp then [event.message] else [])
    {
      hide Read, CanRead, Next, Follows, From;
      ghost var s, r := State(), reader;
      ReadMore(events, event);
      ReduceFollows(before, s, r, event);
      match event {
        case MessageStart(m) => streamingMessage := Some(m);
        case MessageUpdate(m) => streamingMessage := Some(m);
        case MessageEnd(m) =>
          FromMore(messages, origins, m, origin, Steered);
          FromMore(messages, origins, m, origin, FollowedUp);
          streamingMessage := None;
          messages := messages + [m];
          origins := origins + [origin];
          steered := steered + (if origin == Steered then [m] else []);
          followed := followed + (if origin == FollowedUp then [m] else []);
        case ToolStart(call) => pendingToolCalls := pendingToolCalls + {call.id};
        case ToolEnd(call, _, _) => pendingToolCalls := pendingToolCalls - {call.id};
        case TurnEnd(m, _) => if m.Assistant? && m.errorMessage.Some? { errorMessage := m.errorMessage; }
        case AgentEnd(_) => streamingMessage := None;
        case _ =>
      }
      events := events + [event];
      reader := Next(r, event);
    }

    // ---------- Messages and tool calls ----------

    method EmitMessage(m: Message, ghost origin: Origin)
      requires Tracked() && reader.phase == InTurn
      modifies this`messages, this`streamingMessage, this`pendingToolCalls, this`errorMessage
      modifies this`events, this`reader, this`origins, this`steered, this`followed
      ensures Tracked() && reader == After(old(reader), [m], multiset{})
      ensures steered == old(steered) + (if origin == Steered then [m] else [])
      ensures followed == old(followed) + (if origin == FollowedUp then [m] else [])
    {
      hide Read, Follows, From, Reduce;
      ProcessEvents(MessageStart(m));
      ProcessEvents(MessageEnd(m), origin);
    }

    /** Pending messages enter the transcript before the next response. */
    method Inject(pending: seq<Message>, ghost origin: Origin)
      requires Tracked() && reader.phase == InTurn
      modifies this`messages, this`streamingMessage, this`pendingToolCalls, this`errorMessage
      modifies this`events, this`reader, this`origins, this`steered, this`followed, this`context, this`newMessages
      ensures Tracked() && reader == After(old(reader), pending, multiset{})
      ensures context == old(context) + pending && newMessages == old(newMessages) + pending
      ensures steered == old(steered) + (if origin == Steered then pending else [])
      ensures followed == old(followed) + (if origin == FollowedUp then pending else [])
    {
      hide Read, Follows, From, After;
      NothingAfter(reader);
      var i := 0;
      while i < |pending|
        invariant 0 <= i <= |pending|
        invariant Tracked() && reader == After(old(reader), pending[..i], multiset{})
        invariant context == old(context) + pending[..i] && newMessages == old(newMessages) + pending[..i]
        invariant steered == old(steered) + (if origin == Steered then pending[..i] else [])
        invariant followed == old(followed) + (if origin == FollowedUp then pending[..i] else [])
      {
        AfterKeepsPhase(old(reader), pending[..i], multiset{});
        AfterMessage(old(reader), pending[..i], pending[i], multiset{});
        assert pending[..i + 1] == pending[..i] + [pending[i]];
        EmitMessage(pending[i], origin);
        context := context + [pending[i]];
        newMessages := newMessages + [pending[i]];
        i := i + 1;
      }
      assert pending[..i] == pending;
    }

    /** Streams a response into the context and the transcript. */
    method StreamAssistantResponse(t: Turn) returns (message: Message)
      requires Tracked() && reader.phase == InTurn && IsResponse(t)
      modifies this`messages, this`streamingMessage, this`pendingToolCalls, this`errorMessage
      modifies this`events, this`reader, this`origins, this`steered, this`followed, this`context
      ensures message == t.final
      ensures Tracked() && reader == After(old(reader), [message], multiset{})
      ensures context == old(context) + [message] && events == old(events) + ResponseEvents(t)
      ensures steered == old(steered) && followed == old(followed)
    {
      hide Read, Follows, From, Reduce, EndsWith, AnswersInOrder, Tracked, Streamed, UntilFinished;
      NothingStreamed(t.stream);
      message := t.final;
      var addedPartial := false;
      var i := 0;
      ghost var started := 0;
      while i < |t.stream|
        invariant 0 <= i <= |t.stream| && Tracked()
        invariant steered == old(steered) && followed == old(followed)
        invariant forall k :: 0 <= k < i ==> !t.stream[k].Finished?
        invariant events == old(events) + Streamed(t.stream[..i]) && (addedPartial <==> Streamed(t.stream[..i]) != [])
        invariant !addedPartial ==> reader == old(reader) && context == old(context)
        invariant addedPartial ==> reader.phase.InMessage? && reader.phase.started.Assistant?
                                   && reader == old(reader).(phase := reader.phase)
        invariant addedPartial ==> started < i && t.stream[started].Start?
        invariant addedPartial ==> |context| == |old(context)| + 1 && context[..|old(context)|] == old(context)
      {
        StreamsMore(t.stream, i);
        match t.stream[i] {
          case Start(partial) =>
            context := context + [partial];
            addedPartial, started := true, i;
            ProcessEvents(MessageStart(partial));
          case Delta(partial) =>
            if addedPartial {
              context := context[|context| - 1 := partial];
              ProcessEvents(MessageUpdate(partial));
            }
          case Finished => break;
        }
        i := i + 1;
      }
      FinishedAt(t.stream, i);
      if addedPartial {
        context := context[|context| - 1 := message];
      } else {
        context := context + [message];
        ProcessEvents(MessageStart(message));
      }
      ProcessEvents(MessageEnd(message));
    }

    /** Announces the outcome of a call that was started. */
    method EmitToolExecutionEnd(call: ToolCall, outcome: Outcome)
      requires Tracked() && reader.phase == InTurn && call.id in reader.open
      modifies this`messages, this`streamingMessage, this`pendingToolCalls, this`errorMessage
      modifies this`events, this`reader, this`origins, this`steered, this`followed
      ensures Tracked() && steered == old(steered) && followed == old(followed)
      ensures reader == old(reader).(open := old(reader).open - multiset{call.id},
                                     reported := old(reader).reported + multiset{ResultMessage(call, outcome)})
    {
      hide Read, Follows, From, Reduce;
      ProcessEvents(ToolEnd(call, outcome.output, outcome.isError));
    }

    method Report(call: ToolCall, outcome: Outcome, ghost r: Reader) returns (message: Message)
      requires Tracked() && r.phase == InTurn && r.open == multiset{}
               && reader == r.(open := multiset{} + multiset{call.id})
      modifies this`messages, this`streamingMessage, this`pendingToolCalls, this`errorMessage
      modifies this`events, this`reader, this`origins, this`steered, this`followed
      ensures message == ResultMessage(call, outcome)
      ensures Tracked() && reader == After(r, [message], multiset{message})
      ensures steered == old(steered) && followed == old(followed)
    {
      hide Read, Follows, From, Reduce;
      EmitToolExecutionEnd(call, outcome);
      message := ResultMessage(call, outcome);
      EmitMessage(message, Own);
    }

    method EmitUpdates(call: ToolCall, updates: seq<string>)
      requires Tracked() && reader.phase == InTurn && call.id in reader.open
      modifies this`messages, this`streamingMessage, this`pendingToolCalls, this`errorMessage
      modifies this`events, this`reader, this`origins, this`steered, this`followed
      ensures Tracked() && reader == old(reader) && steered == old(steered) && followed == old(followed)
    {
      hide Read, Follows, From, Reduce;
      var i := 0;
      while i < |updates|
        invariant 0 <= i <= |updates|
        invariant Tracked() && reader == old(reader) && steered == old(steered) && followed == old(followed)
      {
        ProcessEvents(ToolUpdate(call, updates[i]));
        i := i + 1;
      }
    }

    method FailToolCallsFromTruncatedMessage(calls: seq<ToolCall>) returns (batch: Batch)
      requires Tracked() && reader.phase == InTurn && reader.open == multiset{}
      modifies this`messages, this`streamingMessage, this`pendingToolCalls, this`errorMessage
      modifies this`events, this`reader, this`origins, this`steered, this`followed
      ensures batch == Batch(TruncatedResults(calls, |calls|), false)
      ensures Tracked() && reader == After(old(reader), batch.messages, multiset(batch.messages))
      ensures steered == old(steered) && followed == old(followed)
    {
      hide Read, Follows, From, Reduce, After, TruncatedReason;
      var results: seq<Message> := [];
      NothingAfter(reader);
      var i := 0;
      while i < |calls|
        invariant 0 <= i <= |calls|
        invariant results == TruncatedResults(calls, i)
        invariant Tracked() && reader == After(old(reader), results, multiset(results))
        invariant steered == old(steered) && followed == old(followed)
      {
        var outcome := Outcome(TruncatedReason(calls[i].name), false, true);
        AfterKeepsPhase(old(reader), results, multiset(results));
        ghost var r := reader;
        ProcessEvents(ToolStart(calls[i]));
        var message := Report(calls[i], outcome, r);
        AfterResult(old(reader), results, message);
        results := results + [message];
        i := i + 1;
      }
      batch := Batch(results, false);
    }

    method ExecuteToolCallsSequential(calls: seq<ToolCall>, attempts: Attempts) returns (batch: Batch)
      requires Tracked() && reader.phase == InTurn && reader.open == multiset{}
      modifies this`messages, this`streamingMessage, this`pendingToolCalls, this`errorMessage
      modifies this`events, this`reader, this`origins, this`steered, this`followed
      ensures batch == Executed(calls, attempts)
      ensures Tracked() && reader == After(old(reader), batch.messages, multiset(batch.messages))
      ensures steered == old(steered) && followed == old(followed)
    {
      hide Read, Follows, From, Reduce, After, Reached, Results, ResultOf, FinalOutcome, Terminates,
        ShouldTerminateToolBatch;
      NothingReached(calls, attempts);
      var results: seq<Message>, outcomes: seq<Outcome> := [], [];
      NothingAfter(reader);
      var i := 0;
      while i < |calls|
        invariant 0 <= i <= |calls|
        invariant results == Results(calls, attempts, i)
        invariant |outcomes| == i && forall j :: 0 <= j < i ==> outcomes[j] == FinalOutcome(attempts(j))
        invariant Reached(attempts, |calls|, i) == Reached(attempts, |calls|)
                  && Reached(attempts, |calls|, |calls|) == |calls|
        invariant Tracked() && reader == After(old(reader), results, multiset(results))
        invariant steered == old(steered) && followed == old(followed)
      {
        AfterKeepsPhase(old(reader), results, multiset(results));
        ReachedMore(attempts, |calls|, i);
        ResultsMore(calls, attempts, i);
        var message := RunOne(calls[i], attempts(i));
        AfterResult(old(reader), results, message);
        outcomes := outcomes + [FinalOutcome(attempts(i))];
        results := results + [message];
        i := i + 1;
        if attempts(i - 1).aborted {
          break;
        }
      }
      assert i == Reached(attempts, |calls|);
      TerminatesTogether(attempts, outcomes);
      batch := Batch(results, ShouldTerminateToolBatch(outcomes));
    }

    method RunOne(call: ToolCall, attempt: Attempt) returns (message: Message)
      requires Tracked() && reader.phase == InTurn && reader.open == multiset{}
      modifies this`messages, this`streamingMessage, this`pendingToolCalls, this`errorMessage
      modifies this`events, this`reader, this`origins, this`steered, this`followed
      ensures message == ResultOf(call, attempt)
      ensures Tracked() && reader == After(old(reader), [message], multiset{message})
      ensures steered == old(steered) && followed == old(followed)
    {
      hide Read, Follows, From, Reduce;
      ghost var r := reader;
      ProcessEvents(ToolStart(call));
      var finalCall, outcome;
      match attempt.preparation {
        case Immediate(reason) =>
          finalCall, outcome := call, Outcome(reason, false, true);
        case Prepared(arguments) =>
          finalCall := call.(arguments := arguments);
          EmitUpdates(finalCall, attempt.updates);
          outcome := attempt.outcome;
      }
      message := Report(finalCall, outcome, r);
    }

    /** All calls are started in order; those that were prepared then run at once, and `schedule` says how
        their progress and their ends interleave. */
    method ExecuteToolCallsParallel(calls: seq<ToolCall>, attempts: Attempts, schedule: seq<Activity>)
      returns (batch: Batch)
      requires Tracked() && reader.phase == InTurn && reader.open == multiset{}
      modifies this`messages, this`streamingMessage, this`pendingToolCalls, this`errorMessage
      modifies this`events, this`reader, this`origins, this`steered, this`followed
      ensures batch == Executed(calls, attempts)
      ensures Tracked() && reader == After(old(reader), batch.messages, multiset(batch.messages))
      ensures steered == old(steered) && followed == old(followed)
    {
      hide Read, Follows, From, Reduce, After, Open, Reported, Results, Reached, Terminates;
      ghost var r := reader;
      var done := StartAll(calls, attempts);
      done := RunScheduled(calls, attempts, done, schedule, r);
      FinishRest(calls, attempts, done, r);
      var k := |done|;
      AllDone(calls, attempts, seq(k, _ => true));
      AllAnnounced(r, multiset(Results(calls, attempts, k)));
      batch := DeliverResults(calls, attempts, k, r);
    }

    /** The results of the calls that ended are delivered in the order of the calls. */
    method DeliverResults(calls: seq<ToolCall>, attempts: Attempts, k: nat, ghost r: Reader) returns (batch: Batch)
      requires k <= |calls| && r.phase == InTurn
      requires Tracked() && reader == After(r, [], multiset(Results(calls, attempts, k)))
      modifies this`messages, this`streamingMessage, this`pendingToolCalls, this`errorMessage
      modifies this`events, this`reader, this`origins, this`steered, this`followed
      ensures batch == Batch(Results(calls, attempts, k), Terminates(attempts, k))
      ensures Tracked() && reader == After(r, batch.messages, multiset(batch.messages))
      ensures steered == old(steered) && followed == old(followed)
    {
      hide Read, Follows, From, Reduce, After, Results, Reached, ResultOf, FinalOutcome, Terminates,
        ShouldTerminateToolBatch;
      NothingReached(calls, attempts);
      var results: seq<Message>, outcomes: seq<Outcome> := [], [];
      var i := 0;
      while i < k
        invariant 0 <= i <= k
        invariant results == Results(calls, attempts, i)
        invariant |outcomes| == i && forall j :: 0 <= j < i ==> outcomes[j] == FinalOutcome(attempts(j))
        invariant Tracked() && reader == After(r, results, multiset(Results(calls, attempts, k)))
        invariant steered == old(steered) && followed == old(followed)
      {
        AfterKeepsPhase(r, results, multiset(Results(calls, attempts, k)));
        ResultsMore(calls, attempts, i);
        var message := ResultOf(calls[i], attempts(i));
        EmitMessage(message, Own);
        AfterMessage(r, results, message, multiset(Results(calls, attempts, k)));
        results := results + [message];
        outcomes := outcomes + [FinalOutcome(attempts(i))];
        i := i + 1;
      }
      TerminatesTogether(attempts, outcomes);
      batch := Batch(results, ShouldTerminateToolBatch(outcomes));
    }

    /** The reader while calls run at once: nothing but what has started and ended differs. */
    ghost predicate RunningAtOnce(r: Reader, calls: seq<ToolCall>, attempts: Attempts, done: seq<bool>)
      requires |done| <= |calls|
      reads this
    {
      && Tracked() && r.phase == InTurn
      && reader == r.(open := Open(calls, done), reported := r.reported + Reported(calls, attempts, done))
    }

    method StartAll(calls: seq<ToolCall>, attempts: Attempts) returns (done: seq<bool>)
      requires Tracked() && reader.phase == InTurn && reader.open == multiset{}
      modifies this`messages, this`streamingMessage, this`pendingToolCalls, this`errorMessage
      modifies this`events, this`reader, this`origins, this`steered, this`followed
      ensures |done| == Reached(attempts, |calls|)
      ensures RunningAtOnce(old(reader), calls, attempts, done)
      ensures steered == old(steered) && followed == old(followed)
    {
      hide Read, Follows, From, Reduce, Open, Reported;
      done := [];
      NothingRuns(calls, attempts, reader);
      var i := 0;
      while i < |calls|
        invariant 0 <= i <= |calls| && |done| == i
        invariant Reached(attempts, |calls|, i) == Reached(attempts, |calls|)
        invariant RunningAtOnce(old(reader), calls, attempts, done)
        invariant steered == old(steered) && followed == old(followed)
      {
        OneMoreStarted(calls, attempts, done);
        ProcessEvents(ToolStart(calls[i]));
        done := done + [false];
        if attempts(i).preparation.Immediate? {
          done := FinishOne(calls, attempts, done, i, old(reader));
        }
        i := i + 1;
        if attempts(i - 1).aborted {
          break;
        }
      }
    }

    method FinishOne(calls: seq<ToolCall>, attempts: Attempts, done: seq<bool>, j: nat, ghost r: Reader)
      returns (now: seq<bool>)
      requires |done| <= |calls| && j < |done| && !done[j] && RunningAtOnce(r, calls, attempts, done)
      modifies this`messages, this`streamingMessage, this`pendingToolCalls, this`errorMessage
      modifies this`events, this`reader, this`origins, this`steered, this`followed
      ensures now == done[j := true] && RunningAtOnce(r, calls, attempts, now)
      ensures steered == old(steered) && followed == old(followed)
    {
      hide Read, Follows, From, Reduce, Open, Reported, FinalOutcome;
      OneLessOpen(calls, done, j);
      OneMoreReported(calls, attempts, done, j);
      SameCall(calls[j], attempts(j));
      EmitToolExecutionEnd(EffectiveCall(calls[j], attempts(j)), FinalOutcome(attempts(j)));
      now := done[j := true];
    }

    method RunScheduled(calls: seq<ToolCall>, attempts: Attempts, done: seq<bool>, schedule: seq<Activity>,
                        ghost r: Reader)
      returns (now: seq<bool>)
      requires |done| <= |calls| && RunningAtOnce(r, calls, attempts, done)
      modifies this`messages, this`streamingMessage, this`pendingToolCalls, this`errorMessage
      modifies this`events, this`reader, this`origins, this`steered, this`followed
      ensures |now| == |done| && RunningAtOnce(r, calls, attempts, now)
      ensures steered == old(steered) && followed == old(followed)
    {
      hide Read, Follows, From, Reduce, Open, Reported;
      now := done;
      var i := 0;
      while i < |schedule|
        invariant 0 <= i <= |schedule| && |now| == |done|
        invariant RunningAtOnce(r, calls, attempts, now)
        invariant steered == old(steered) && followed == old(followed)
      {
        var j := schedule[i].call;
        if j < |now| && !now[j] {
          match schedule[i] {
            case Progress(_, partial) =>
              OneLessOpen(calls, now, j);
              SameCall(calls[j], attempts(j));
              ProcessEvents(ToolUpdate(EffectiveCall(calls[j], attempts(j)), partial));
            case Finish(_) =>
              now := FinishOne(calls, attempts, now, j, r);
          }
        }
        i := i + 1;
      }
    }

    method FinishRest(calls: seq<ToolCall>, attempts: Attempts, done: seq<bool>, ghost r: Reader)
      requires |done| <= |calls| && RunningAtOnce(r, calls, attempts, done)
      modifies this`messages, this`streamingMessage, this`pendingToolCalls, this`errorMessage
      modifies this`events, this`reader, this`origins, this`steered, this`followed
      ensures RunningAtOnce(r, calls, attempts, seq(|done|, _ => true))
      ensures steered == old(steered) && followed == old(followed)
    {
      hide Read, Follows, From, Reduce, Open, Reported;
      var now := done;
      var i := 0;
      while i < |done|
        invariant 0 <= i <= |done| == |now|
        invariant forall j :: 0 <= j < i ==> now[j]
        invariant RunningAtOnce(r, calls, attempts, now)
        invariant steered == old(steered) && followed == old(followed)
      {
        if !now[i] {
          now := FinishOne(calls, attempts, now, i, r);
        }
        i := i + 1;
      }
      assert now == seq(|done|, _ => true);
    }

    // ---------- Queues ----------

    method Arrive(a: Arrivals)
      requires steeringQueue != followUpQueue
      modifies steeringQueue, followUpQueue, this`enqueuedSteering, this`enqueuedFollowUps
      ensures steeringQueue.messages == old(steeringQueue.messages) + a.steering
      ensures followUpQueue.messages == old(followUpQueue.messages) + a.followUps
      ensures enqueuedSteering == old(enqueuedSteering) + a.steering
      ensures enqueuedFollowUps == old(enqueuedFollowUps) + a.followUps
    {
      steeringQueue.mode, followUpQueue.mode := a.steeringMode, a.followUpMode;
      var i := 0;
      while i < |a.steering|
        invariant 0 <= i <= |a.steering|
        invariant steeringQueue.messages == old(steeringQueue.messages) + a.steering[..i]
        invariant enqueuedSteering == old(enqueuedSteering) + a.steering[..i]
        invariant followUpQueue.messages == old(followUpQueue.messages) && enqueuedFollowUps == old(enqueuedFollowUps)
      {
        assert a.steering[..i + 1] == a.steering[..i] + [a.steering[i]];
        Steer(a.steering[i]);
        i := i + 1;
      }
      assert a.steering[..i] == a.steering;
      i := 0;
      while i < |a.followUps|
        invariant 0 <= i <= |a.followUps|
        invariant followUpQueue.messages == old(followUpQueue.messages) + a.followUps[..i]
        invariant enqueuedFollowUps == old(enqueuedFollowUps) + a.followUps[..i]
        invariant steeringQueue.messages == old(steeringQueue.messages) + a.steering
        invariant enqueuedSteering == old(enqueuedSteering) + a.steering
      {
        assert a.followUps[..i + 1] == a.followUps[..i] + [a.followUps[i]];
        FollowUp(a.followUps[i]);
        i := i + 1;
      }
      assert a.followUps[..i] == a.followUps;
    }

    method Steer(message: Message)
      modifies steeringQueue`messages, this`enqueuedSteering
      ensures steeringQueue.messages == old(steeringQueue.messages) + [message]
      ensures enqueuedSteering == old(enqueuedSteering) + [message]
    {
      steeringQueue.Enqueue(message);
      enqueuedSteering := enqueuedSteering + [message];
    }

    method FollowUp(message: Message)
      modifies followUpQueue`messages, this`enqueuedFollowUps
      ensures followUpQueue.messages == old(followUpQueue.messages) + [message]
      ensures enqueuedFollowUps == old(enqueuedFollowUps) + [message]
    {
      followUpQueue.Enqueue(message);
      enqueuedFollowUps := enqueuedFollowUps + [message];
    }

    method GetSteeringMessages(a: Arrivals, skip: bool, ghost firstTurn: bool) returns (pending: seq<Message>)
      requires InRun([], Own, firstTurn)
      modifies steeringQueue, followUpQueue, this`enqueuedSteering, this`enqueuedFollowUps
      ensures InRun(pending, Steered, firstTurn)
      ensures skip ==> pending == []
      ensures !skip && pending == [] ==> a.steering == [] && steeringQueue.messages == []
    {
      hide Read, From, Follows;
      Arrive(a);
      StillConserved(steered, old(steeringQueue.messages), a.steering);
      StillConserved(followed, old(followUpQueue.messages), a.followUps);
      if skip {
        return [];
      }
      pending := steeringQueue.Drain();
      assert steered + pending + steeringQueue.messages == steered + (pending + steeringQueue.messages);
    }

    method GetFollowUpMessages(a: Arrivals) returns (pending: seq<Message>)
      requires InRun([], Own, false)
      modifies steeringQueue, followUpQueue, this`enqueuedSteering, this`enqueuedFollowUps
      ensures InRun(pending, FollowedUp, false)
      ensures pending == [] ==> a.followUps == [] && followUpQueue.messages == []
      ensures steeringQueue.messages == old(steeringQueue.messages) + a.steering
    {
      hide Read, From, Follows;
      Arrive(a);
      StillConserved(steered, old(steeringQueue.messages), a.steering);
      StillConserved(followed, old(followUpQueue.messages), a.followUps);
      pending := followUpQueue.Drain();
      assert followed + pending + followUpQueue.messages == followed + (pending + followUpQueue.messages);
    }

    /** Messages that are queued once no poll follows: in a turn that failed or was stopped, and while the
        listeners of the last event are awaited. They stay queued. */
    method ArriveLate(a: Arrivals)
      requires Over()
      modifies steeringQueue, followUpQueue, this`enqueuedSteering, this`enqueuedFollowUps
      ensures Over()
      ensures steeringQueue.messages == old(steeringQueue.messages) + a.steering
      ensures followUpQueue.messages == old(followUpQueue.messages) + a.followUps
      ensures enqueuedSteering == old(enqueuedSteering) + a.steering
      ensures enqueuedFollowUps == old(enqueuedFollowUps) + a.followUps
    {
      hide Read, From, Follows;
      Arrive(a);
      StillConserved(steered, old(steeringQueue.messages), a.steering);
      StillConserved(followed, old(followUpQueue.messages), a.followUps);
    }

    // ---------- Turns ----------

    /** Between two turns, or before the first response of the run. */
    ghost predicate InRun(pending: seq<Message>, origin: Origin, firstTurn: bool)
      reads this, steeringQueue, followUpQueue
    {
      && Tracked() && Conserved(pending, origin)
      && newMessages == reader.messages && reader.open == multiset{} && reader.reported == multiset{}
      && reader.phase == (if firstTurn then InTurn else Between) && (firstTurn <==> reader.turns == [])
    }

    /** The run has emitted its last event. */
    ghost predicate Over()
      reads this, steeringQueue, followUpQueue
    {
      Tracked() && Conserved([], Own) && reader.phase == Ended && newMessages == reader.messages
    }

    method RunToolCalls(t: Turn, message: Message) returns (results: seq<Message>, hasMoreToolCalls: bool)
      requires Tracked() && reader.phase == InTurn && reader.open == multiset{}
      requires message == t.final && message.Assistant? && !GaveUp(t)
      modifies this`messages, this`streamingMessage, this`pendingToolCalls, this`errorMessage
      modifies this`events, this`reader, this`origins, this`steered, this`followed
      ensures Batch(results, !hasMoreToolCalls) == TurnBatch(t)
      ensures AnswersInOrder(message, results)
      ensures Tracked() && reader == After(old(reader), results, multiset(results))
      ensures steered == old(steered) && followed == old(followed) && messages == old(messages) + results
    {
      hide Read, Follows, From, Reduce, After, Executed, TruncatedResults, ToolCalls;
      ghost var s, r := State(), reader;
      NothingAfter(reader);
      TruncatedAnswers(message, |ToolCalls(message.content)|);
      ExecutedAnswers(message, t.attempts);
      var toolCalls := ToolCalls(message.content);
      results, hasMoreToolCalls := [], false;
      if |toolCalls| > 0 {
        var batch;
        if message.stopReason == Length {
          batch := FailToolCallsFromTruncatedMessage(toolCalls);
        } else if t.sequential {
          batch := ExecuteToolCallsSequential(toolCalls, t.attempts);
        } else {
          batch := ExecuteToolCallsParallel(toolCalls, t.attempts, t.schedule);
        }
        results := batch.messages;
        hasMoreToolCalls := !batch.terminate;
      }
      AfterGathers(r, results, multiset(results));
      Grows(before, s, State(), r, reader, results);
    }

    /** Ends a turn whose response was `message`; `r` is the reader before the response. */
    method EndTurn(message: Message, results: seq<Message>, ghost r: Reader)
      requires Tracked() && reader == After(After(r, [message], multiset{}), results, multiset(results))
      requires r.phase == InTurn && r.open == multiset{} && r.reported == multiset{} && AnswersInOrder(message, results)
      modifies this`messages, this`streamingMessage, this`pendingToolCalls, this`errorMessage
      modifies this`events, this`reader, this`origins, this`steered, this`followed
      ensures Tracked() && steered == old(steered) && followed == old(followed) && messages == old(messages)
      ensures reader.phase == Between && reader.turns == r.turns + [TurnEnd(message, results)]
      ensures reader.open == multiset{} && reader.reported == multiset{}
      ensures reader.messages == r.messages + [message] + results
    {
      hide Read, Follows, From, AnswersInOrder;
      AfterTurn(r, message, results);
      TurnMayEnd(r, message, results);
      ProcessEvents(TurnEnd(message, results));
    }

    method EmitEnd()
      requires InRun([], Own, false)
      modifies this`messages, this`streamingMessage, this`pendingToolCalls, this`errorMessage
      modifies this`events, this`reader, this`origins, this`steered, this`followed
      ensures Over() && messages == old(messages) && reader.turns == old(reader.turns)
    {
      hide Read, Follows, From;
      ProcessEvents(AgentEnd(newMessages));
    }

    /** Pending messages enter the transcript at the start of a turn. */
    method OpenTurn(pending: seq<Message>, ghost origin: Origin, firstTurn: bool)
      requires InRun(pending, origin, firstTurn)
      modifies this`messages, this`streamingMessage, this`pendingToolCalls, this`errorMessage
      modifies this`events, this`reader, this`origins, this`steered, this`followed, this`context, this`newMessages
      ensures Tracked() && Conserved([], Own) && newMessages == reader.messages
      ensures reader.messages == old(reader.messages) + pending && reader.turns == old(reader.turns)
      ensures reader.phase == InTurn && reader.open == multiset{} && reader.reported == multiset{}
      ensures context == old(context) + pending
    {
      hide Read, From, Reduce, After, Follows, Tracked, EndsWith, AnswersInOrder, SameMessage;
      if !firstTurn {
        ProcessEvents(TurnStart);
      }
      AfterKeepsPhase(reader, pending, multiset{});
      AfterGathers(reader, pending, multiset{});
      Inject(pending, origin);
    }

    /** The first half of a turn: pending messages, then a response. `r` is the reader in between. */
    method Respond(t: Turn, pending: seq<Message>, ghost origin: Origin, firstTurn: bool)
      returns (message: Message, ghost r: Reader)
      requires InRun(pending, origin, firstTurn) && IsResponse(t)
      modifies this`messages, this`streamingMessage, this`pendingToolCalls, this`errorMessage
      modifies this`events, this`reader, this`origins, this`steered, this`followed, this`context, this`newMessages
      ensures message == t.final && Tracked() && Conserved([], Own)
      ensures reader == After(r, [message], multiset{}) && newMessages == r.messages + [message]
      ensures r.messages == old(newMessages) + pending && r.turns == old(reader.turns)
      ensures r.phase == InTurn && r.open == multiset{} && r.reported == multiset{}
      ensures context == old(context) + pending + [message]
      ensures old(context == messages) ==> context == messages
    {
      hide Read, From, Reduce, After, Follows, Tracked;
      ghost var first := reader.messages;
      TranscriptGrows();
      OpenTurn(pending, origin, firstTurn);
      r := reader;
      AfterGathers(r, [t.final], multiset{});
      message := StreamAssistantResponse(t);
      newMessages := newMessages + [message];
      TranscriptGrows();
      assert before + (first + pending + [message]) == before + first + pending + [message];
    }

    method FinishTurn(t: Turn, message: Message, toolResults: seq<Message>, ghost r: Reader)
      requires Tracked() && reader == After(After(r, [message], multiset{}), toolResults, multiset(toolResults))
      requires r.phase == InTurn && r.open == multiset{} && r.reported == multiset{}
               && AnswersInOrder(message, toolResults)
      requires newMessages == r.messages + [message] && Conserved([], Own)
      modifies this`messages, this`streamingMessage, this`pendingToolCalls, this`errorMessage
      modifies this`events, this`reader, this`origins, this`steered, this`followed, this`context, this`newMessages
      ensures InRun([], Own, false) && newMessages == old(newMessages) + toolResults
      ensures reader.turns == r.turns + [TurnEnd(message, toolResults)]
      ensures context == if t.replacement.Some? then t.replacement.value else old(context) + toolResults
      ensures messages == old(messages)
    {
      hide Read, From, Follows, Reduce, After, AnswersInOrder;
      context := context + toolResults;
      newMessages := newMessages + toolResults;
      EndTurn(message, toolResults, r);
      if t.replacement.Some? {
        context := t.replacement.value;
      }
    }

    /** Pending messages, a response, its tool calls, and the end of the turn. */
    method RunTurn(t: Turn, pending: seq<Message>, ghost origin: Origin, firstTurn: bool)
      returns (hasMoreToolCalls: bool, end: End)
      requires InRun(pending, origin, firstTurn) && IsResponse(t)
      modifies this`messages, this`streamingMessage, this`pendingToolCalls, this`errorMessage
      modifies this`events, this`reader, this`origins, this`steered, this`followed, this`context, this`newMessages
      ensures end == StillRunning ==> InRun([], Own, false)
      ensures end != StillRunning ==> Over() && end != Quiet
      ensures newMessages == old(newMessages) + pending + [t.final] + TurnBatch(t).messages
      ensures reader.turns == old(reader.turns) + [TurnEndOf(t)]
      ensures end == (if GaveUp(t) then Failed else if t.stop then Stopped else StillRunning)
      ensures hasMoreToolCalls <==> CallsOn(t)
      ensures context == NextContext(t, old(context) + pending)
      ensures t.replacement.None? && old(context == messages) ==> context == messages
    {
      hide Read, From, Follows, Reduce, After, ToolCalls, Executed, TruncatedResults, AnswersInOrder, CallsOn, Tracked;
      CallsOnIff(t);
      var message;
      ghost var r;
      message, r := Respond(t, pending, origin, firstTurn);
      AfterKeepsPhase(r, [message], multiset{});
      if message.stopReason == Error || message.stopReason == Aborted {
        NoResults(reader, message);
        EndTurn(message, [], r);
        EmitEnd();
        return false, Failed;
      }
      var toolResults;
      toolResults, hasMoreToolCalls := RunToolCalls(t, message);
      FinishTurn(t, message, toolResults, r);
      if t.stop {
        EmitEnd();
        return hasMoreToolCalls, Stopped;
      }
      end := StillRunning;
    }

    // ---------- Runs ----------

    /** What is queued during a turn that ends the run, and then while the end of the run is awaited. */
    method ArriveLast(during: Arrivals, closing: Arrivals)
      requires Over()
      modifies steeringQueue, followUpQueue, this`enqueuedSteering, this`enqueuedFollowUps
      ensures Over() && Tracked() && newMessages == reader.messages && Conserved([], Own) && reader.phase == Ended
      ensures followUpQueue.messages == old(followUpQueue.messages) + during.followUps + closing.followUps
      ensures steeringQueue.messages == old(steeringQueue.messages) + during.steering + closing.steering
    {
      hide Read, From, Follows, Reduce;
      ArriveLate(during);
      ArriveLate(closing);
    }

    method CloseRun(closing: Arrivals)
      requires InRun([], Own, false)
      modifies this`messages, this`streamingMessage, this`pendingToolCalls, this`errorMessage
      modifies this`events, this`reader, this`origins, this`steered, this`followed
      modifies steeringQueue, followUpQueue, this`enqueuedSteering, this`enqueuedFollowUps
      ensures Over() && Tracked() && newMessages == reader.messages && Conserved([], Own) && reader.phase == Ended
      ensures messages == old(messages) && reader.turns == old(reader.turns)
      ensures followUpQueue.messages == old(followUpQueue.messages) + closing.followUps
      ensures steeringQueue.messages == old(steeringQueue.messages) + closing.steering
    {
      hide Read, From, Follows, Reduce;
      EmitEnd();
      ArriveLate(closing);
    }

    /** The main loop. `script` says what its turns find; if it ends before the loop does, the run is still
        going on, and `leftover` has been taken from a queue and is about to be injected. `closing` is queued
        after the last event, while its listeners are awaited. Each turn taken put some of `injected` before
        its response. */
    method RunLoop(script: seq<Turn>, initial: Arrivals, closing: Arrivals, skipInitialSteeringPoll: bool)
      returns (end: End, ghost leftover: seq<Message>, ghost origin: Origin, ghost injected: seq<seq<Message>>)
      requires InRun([], Own, true) && context == messages && AreResponses(script)
      modifies this`messages, this`streamingMessage, this`pendingToolCalls, this`errorMessage
      modifies this`events, this`reader, this`origins, this`steered, this`followed, this`context, this`newMessages
      modifies steeringQueue, followUpQueue, this`enqueuedSteering, this`enqueuedFollowUps
      ensures Tracked() && newMessages == reader.messages && Conserved(leftover, origin)
      ensures end != StillRunning ==> Over() && leftover == []
      ensures Ran(script, injected, end, leftover, old(newMessages), newMessages, reader.turns)
      ensures reader.phase == RestingPhase(end, injected)
      ensures end == Quiet ==> OnlyLate(script, injected, closing)
      ensures |injected| <= |script| && context == ContextAfter(script, injected, old(context))
      ensures (forall t :: t in script ==> t.replacement.None?) ==> context == messages
    {
      hide ContextAfter, NextContext, InRun, Over, Tracked, Conserved, Read, From, Follows, Reduce, After;
      hide IsResponse, TurnBatch, GaveUp;
      hide CallsOn, Proceeds, Went, Ran, TurnEndOf, AreResponses;
      ghost var unreplaced := forall t :: t in script ==> t.replacement.None?;
      injected := [];
      NoContext(script, context);
      FirstTurn();
      NoTurnTaken(script, newMessages);
      var firstTurn := true;
      var pendingMessages := GetSteeringMessages(initial, skipInitialSteeringPoll, true);
      origin := Steered;
      var next := 0;
      while true
        invariant 0 <= next <= |script| && InRun(pendingMessages, origin, firstTurn)
        invariant Went(script, injected, old(newMessages), newMessages, reader.turns)
        invariant next == |injected| && (next == 0 || pendingMessages != []) && (firstTurn <==> next == 0)
        invariant context == ContextAfter(script, injected, old(context)) && (unreplaced ==> context == messages)
        decreases |script| - next
      {
        var hasMoreToolCalls := true;
        ghost var start := next;
        while hasMoreToolCalls || |pendingMessages| > 0
          invariant start <= next <= |script| && InRun(pendingMessages, origin, firstTurn)
          invariant Went(script, injected, old(newMessages), newMessages, reader.turns) && next == |injected|
          invariant start == next ==> hasMoreToolCalls && (next == 0 || pendingMessages != [])
          invariant firstTurn <==> next == 0
          invariant start < next ==> (hasMoreToolCalls <==> CallsOn(script[next - 1]))
          invariant start < next && pendingMessages == [] ==>
                      script[next - 1].arrivals.steering == [] && steeringQueue.messages == []
          invariant context == ContextAfter(script, injected, old(context)) && (unreplaced ==> context == messages)
          decreases |script| - next
        {
          GoesOn(script, injected, pendingMessages, old(newMessages), newMessages, reader.turns);
          if next == |script| {
            RunsOn(pendingMessages, origin, firstTurn);
            return StillRunning, pendingMessages, origin, injected;
          }
          var t := script[next];
          assert IsResponse(t) by { IsAmong(script, next); }
          TakesTurn(script, injected, pendingMessages, old(newMessages), newMessages, reader.turns);
          ContextGrows(script, injected, pendingMessages, old(context));
          injected := injected + [pendingMessages];
          hasMoreToolCalls, end := RunTurn(t, pendingMessages, origin, firstTurn);
          firstTurn := false;
          if end != StillRunning {
            ArriveLast(t.arrivals, closing);
            return end, [], Own, injected;
          }
          pendingMessages := GetSteeringMessages(t.arrivals, false, false);
          origin := Steered;
          next := next + 1;
        }
        NothingPending(origin);
        pendingMessages := GetFollowUpMessages(script[next - 1].late);
        origin := FollowedUp;
        if |pendingMessages| == 0 {
          break;
        }
      }
      NothingPending(origin);
      ComesToRest(script, injected, old(newMessages), newMessages, reader.turns);
      CloseRun(closing);
      end, leftover := Quiet, [];
      origin := Own;
    }

    lemma FirstTurn()
      requires InRun([], Own, true)
      ensures reader.turns == []
    {
      hide Tracked, Conserved;
    }

    lemma TranscriptGrows()
      requires Tracked()
      ensures messages == before + reader.messages
    {
      hide Read, From;
    }

    lemma NothingPending(origin: Origin)
      requires InRun([], origin, false)
      ensures InRun([], Own, false)
    {
      hide Tracked;
    }

    lemma RunsOn(pending: seq<Message>, origin: Origin, firstTurn: bool)
      requires InRun(pending, origin, firstTurn)
      ensures Tracked() && newMessages == reader.messages && Conserved(pending, origin)
      ensures reader.phase == if firstTurn then InTurn else Between
    {
      hide Tracked, Conserved;
    }

    /** Runs the loop on new messages: `origin` is the queue they were taken from, if any. */
    method RunAgentLoop(prompts: seq<Message>, ghost source: Origin, skipInitialSteeringPoll: bool, initial: Arrivals,
                        closing: Arrivals, script: seq<Turn>)
      returns (end: End, ghost leftover: seq<Message>, ghost origin: Origin,
              ghost injected: seq<seq<Message>>)
      requires Tracked() && events == [] && before == messages && Conserved(prompts, source)
      requires AreResponses(script)
      modifies this`messages, this`streamingMessage, this`pendingToolCalls, this`errorMessage
      modifies this`events, this`reader, this`origins, this`steered, this`followed, this`context, this`newMessages
      modifies steeringQueue, followUpQueue, this`enqueuedSteering, this`enqueuedFollowUps
      ensures Tracked() && Conserved(leftover, origin) && newMessages == reader.messages
      ensures messages == old(messages) + newMessages
      ensures Traced(script, injected, end, leftover, prompts, newMessages, events)
      ensures end != StillRunning ==> Over() && leftover == []
      ensures end == Quiet ==> OnlyLate(script, injected, closing)
      ensures |injected| <= |script| && context == ContextAfter(script, injected, old(messages) + prompts)
      ensures (forall t :: t in script ==> t.replacement.None?) ==> context == messages
    {
      hide From, Reduce, After, IsResponse, Ran, ContextAfter;
      assert messages + [] == messages;
      OpenRun(prompts, source);
      end, leftover, origin, injected := RunLoop(script, initial, closing, skipInitialSteeringPoll);
    }

    /** Nothing is queued but what came after the last poll of each queue. */
    ghost predicate OnlyLate(script: seq<Turn>, injected: seq<seq<Message>>, closing: Arrivals)
      reads steeringQueue`messages, followUpQueue`messages
    {
      && 0 < |injected| <= |script| && followUpQueue.messages == closing.followUps
      && steeringQueue.messages == script[|injected| - 1].late.steering + closing.steering
    }

    method OpenRun(prompts: seq<Message>, ghost source: Origin)
      requires Tracked() && events == [] && before == messages && Conserved(prompts, source)
      modifies this`messages, this`streamingMessage, this`pendingToolCalls, this`errorMessage
      modifies this`events, this`reader, this`origins, this`steered, this`followed, this`context, this`newMessages
      ensures InRun([], Own, true) && newMessages == prompts && context == messages == old(messages) + prompts
    {
      hide Read, From, Follows, Reduce, After;
      newMessages := prompts;
      context := messages + prompts;
      EmitStarts();
      EmitPrompts(prompts, source);
      AfterKeepsPhase(OPENED, prompts, multiset{});
      AfterGathers(OPENED, prompts, multiset{});
    }

    method EmitStarts()
      requires Tracked() && events == []
      modifies this`messages, this`streamingMessage, this`pendingToolCalls, this`errorMessage
      modifies this`events, this`reader, this`origins, this`steered, this`followed
      ensures Tracked() && reader == OPENED && messages == old(messages)
      ensures steered == old(steered) && followed == old(followed)
    {
      hide From, Follows;
      ProcessEvents(AgentStart);
      ProcessEvents(TurnStart);
    }

    method EmitPrompts(prompts: seq<Message>, ghost source: Origin)
      requires Tracked() && reader.phase == InTurn
      modifies this`messages, this`streamingMessage, this`pendingToolCalls, this`errorMessage
      modifies this`events, this`reader, this`origins, this`steered, this`followed
      ensures Tracked() && reader == After(old(reader), prompts, multiset{}) && messages == old(messages) + prompts
      ensures steered == old(steered) + (if source == Steered then prompts else [])
      ensures followed == old(followed) + (if source == FollowedUp then prompts else [])
    {
      hide Read, Follows, From, Reduce, After;
      ghost var s, r := State(), reader;
      NothingAfter(reader);
      var i := 0;
      while i < |prompts|
        invariant 0 <= i <= |prompts|
        invariant Tracked() && reader == After(old(reader), prompts[..i], multiset{})
        invariant steered == old(steered) + (if source == Steered then prompts[..i] else [])
        invariant followed == old(followed) + (if source == FollowedUp then prompts[..i] else [])
      {
        AfterKeepsPhase(old(reader), prompts[..i], multiset{});
        AfterMessage(old(reader), prompts[..i], prompts[i], multiset{});
        assert prompts[..i + 1] == prompts[..i] + [prompts[i]];
        EmitMessage(prompts[i], source);
        i := i + 1;
      }
      assert prompts[..i] == prompts;
      AfterGathers(r, prompts, multiset{});
      Grows(before, s, State(), r, reader, prompts);
    }

    // ---------- The agent's operations ----------

    /** The state in which a run begins. */
    method StartRun(ghost pending: seq<Message>, ghost origin: Origin)
      requires Resting(pending, origin)
      modifies this`active, this`streamingMessage, this`errorMessage, this`events, this`reader, this`before
      ensures active && Tracked() && events == [] && before == messages && Conserved(pending, origin)
    {
      hide From, CanRead, Next, Reduce;
      active, streamingMessage, errorMessage := true, None, None;
      events, reader, before := [], UNREAD, messages;
      assert messages + [] == messages;
    }

    method FinishRun()
      requires Over()
      modifies this`active, this`streamingMessage, this`pendingToolCalls
      ensures Completed()
    {
      hide From;
      active, streamingMessage, pendingToolCalls := false, None, {};
    }

    method RunPromptMessages(prompts: seq<Message>, ghost source: Origin, skipInitialSteeringPoll: bool,
                             initial: Arrivals,
                        closing: Arrivals, script: seq<Turn>)
      returns (end: End, ghost leftover: seq<Message>, ghost origin: Origin,
              ghost injected: seq<seq<Message>>)
      requires Resting(prompts, source) && AreResponses(script)
      modifies this, steeringQueue, followUpQueue
      ensures Recorded(old(messages)) && Traced(script, injected, end, leftover, prompts, newMessages, events)
      ensures Conserved(leftover, origin)
      ensures end == StillRunning ==> active
      ensures end != StillRunning ==> Completed() && leftover == []
      ensures end == Quiet ==> OnlyLate(script, injected, closing)
    {
      hide From, IsResponse, Follows, Read, Traced, OnlyLate;
      StartRun(prompts, source);
      end, leftover, origin, injected :=
        RunAgentLoop(prompts, source, skipInitialSteeringPoll, initial, closing, script);
      if end != StillRunning {
        FinishRun();
      }
    }

    method RunContinuation(initial: Arrivals, closing: Arrivals, script: seq<Turn>)
      returns (end: End, ghost leftover: seq<Message>, ghost origin: Origin,
              ghost injected: seq<seq<Message>>)
      requires Idle() && AreResponses(script)
      modifies this, steeringQueue, followUpQueue
      ensures Recorded(old(messages)) && Traced(script, injected, end, leftover, [], newMessages, events)
      ensures Conserved(leftover, origin)
      ensures end == StillRunning ==> active
      ensures end != StillRunning ==> Completed() && leftover == []
      ensures end == Quiet ==> OnlyLate(script, injected, closing)
    {
      hide From, IsResponse, Follows, Read, Traced, OnlyLate;
      StartRun([], Own);
      end, leftover, origin, injected := RunAgentLoop([], Own, false, initial, closing, script);
      if end != StillRunning {
        FinishRun();
      }
    }

    /** `initial`, `script` and `closing` are what the run then finds. */
    method Prompt(prompts: seq<Message>, initial: Arrivals, closing: Arrivals, script: seq<Turn>)
      returns (answer: Answer, ghost leftover: seq<Message>, ghost origin: Origin,
              ghost injected: seq<seq<Message>>)
      requires active || Idle()
      requires AreResponses(script)
      modifies this, steeringQueue, followUpQueue
      ensures answer.Rejected? <==> old(active)
      ensures answer.Accepted? ==> Recorded(old(messages)) && Conserved(leftover, origin)
      ensures answer.Accepted? ==> Traced(script, injected, answer.end, leftover, prompts, newMessages, events)
      ensures answer.Accepted? && answer.end != StillRunning ==> Completed() && leftover == []
      ensures answer == Accepted(Quiet) ==> OnlyLate(script, injected, closing)
    {
      hide From, IsResponse, Follows, Read, Traced, OnlyLate;
      if active {
        return Rejected("Agent is already processing a prompt."), [], Own, [];
      }
      var end;
      end, leftover, origin, injected := RunPromptMessages(prompts, Own, false, initial, closing, script);
      answer := Accepted(end);
    }

    /** Goes on from the transcript. After an assistant message that takes a queued message. */
    method Continue(initial: Arrivals, closing: Arrivals, script: seq<Turn>)
      returns (answer: Answer, ghost leftover: seq<Message>, ghost origin: Origin,
              ghost injected: seq<seq<Message>>, ghost taken: seq<Message>)
      requires active || Idle()
      requires AreResponses(script)
      modifies this, steeringQueue, followUpQueue
      ensures answer.Rejected? <==>
                old(active) || old(messages) == []
                || (old(messages)[|old(messages)| - 1].Assistant?
                    && old(steeringQueue.messages) == [] && old(followUpQueue.messages) == [])
      ensures answer.Rejected? && !old(active) ==> Idle() && messages == old(messages)
      ensures answer.Accepted? ==> Recorded(old(messages)) && Conserved(leftover, origin)
      ensures answer.Accepted? && old(messages)[|old(messages)| - 1].Assistant? ==>
                taken == (if old(steeringQueue.messages) != []
                          then Front(old(steeringQueue.mode), old(steeringQueue.messages))
                          else Front(old(followUpQueue.mode), old(followUpQueue.messages)))
      ensures answer.Accepted? && !old(messages)[|old(messages)| - 1].Assistant? ==> taken == []
      ensures answer.Accepted? ==> Traced(script, injected, answer.end, leftover, taken, newMessages, events)
      ensures answer.Accepted? && answer.end != StillRunning ==> Completed() && leftover == []
      ensures answer == Accepted(Quiet) ==> OnlyLate(script, injected, closing)
    {
      hide From, IsResponse, Follows, Read, Traced, OnlyLate;
      if active {
        return Rejected("Agent is already processing. Wait for completion before continuing."), [], Own, [], [];
      }
      if messages == [] {
        return Rejected("No messages to continue from"), [], Own, [], [];
      }
      var end;
      if messages[|messages| - 1].Assistant? {
        var queuedSteering := steeringQueue.Drain();
        assert steered + queuedSteering + steeringQueue.messages == steered + (queuedSteering + steeringQueue.messages);
        if |queuedSteering| > 0 {
          end, leftover, origin, injected := RunPromptMessages(queuedSteering, Steered, true, initial, closing, script);
          return Accepted(end), leftover, origin, injected, queuedSteering;
        }
        var queuedFollowUps := followUpQueue.Drain();
        assert followed + queuedFollowUps + followUpQueue.messages
               == followed + (queuedFollowUps + followUpQueue.messages);
        if |queuedFollowUps| > 0 {
          end, leftover, origin, injected :=
            RunPromptMessages(queuedFollowUps, FollowedUp, false, initial, closing, script);
          return Accepted(end), leftover, origin, injected, queuedFollowUps;
        }
        return Rejected("Cannot continue from message role: assistant"), [], Own, [], [];
      }
      end, leftover, origin, injected := RunContinuation(initial, closing, script);
      answer, taken := Accepted(end), [];
    }
  }

  function ShouldTerminateToolBatch(outcomes: seq<Outcome>): bool {
    |outcomes| > 0 && forall i :: 0 <= i < |outcomes| ==> outcomes[i].terminate
  }

  lemma StillConserved(taken: seq<Message>, queued: seq<Message>, arrived: seq<Message>)
    ensures taken + [] + (queued + arrived) == taken + [] + queued + arrived
  {
  }

  const OPENED := Reader(InTurn, [], [], multiset{}, multiset{}, [])

  lemma NothingAfter(r: Reader)
    ensures After(r, [], multiset{}) == r
  {
    assert r.messages + [] == r.messages && r.turn + [] == r.turn;
  }

  lemma AfterKeepsPhase(r: Reader, messages: seq<Message>, reported: multiset<Message>)
    ensures After(r, messages, reported).phase == r.phase && After(r, messages, reported).open == r.open
  {
  }

  lemma AfterGathers(r: Reader, messages: seq<Message>, reported: multiset<Message>)
    ensures After(r, messages, reported).messages == r.messages + messages
            && After(r, messages, reported).turns == r.turns
    ensures r.reported == multiset{} && reported == multiset{} ==> After(r, messages, reported).reported == multiset{}
  {
  }

  lemma Grows(before: seq<Message>, s0: AgentState, s1: AgentState, r0: Reader, r1: Reader, added: seq<Message>)
    requires Follows(before, s0, r0) && Follows(before, s1, r1) && r1.messages == r0.messages + added
    ensures s1.messages == s0.messages + added
  {
    assert before + (r0.messages + added) == before + r0.messages + added;
  }

  lemma NoResults(r: Reader, message: Message)
    requires message.Assistant?
    ensures After(r, [], multiset([])) == r && AnswersInOrder(message, [])
  {
    NothingAfter(r);
  }

  lemma AllAnnounced(r: Reader, reported: multiset<Message>)
    requires r.open == multiset{}
    ensures r.(open := multiset{}, reported := r.reported + reported) == After(r, [], reported)
  {
    NothingAfter(r);
  }

  lemma NothingRuns(calls: seq<ToolCall>, attempts: Attempts, r: Reader)
    requires r.open == multiset{}
    ensures r == r.(open := Open(calls, []), reported := r.reported + Reported(calls, attempts, []))
  {
  }

  lemma NothingReached(calls: seq<ToolCall>, attempts: Attempts)
    ensures Results(calls, attempts, 0) == [] && Reached(attempts, |calls|, |calls|) == |calls|
  {
  }

  lemma ReachedMore(attempts: Attempts, n: nat, i: nat)
    requires i < n
    ensures Reached(attempts, n, i) == if attempts(i).aborted then i + 1 else Reached(attempts, n, i + 1)
  {
  }

  lemma TerminatesTogether(attempts: Attempts, outcomes: seq<Outcome>)
    requires forall j :: 0 <= j < |outcomes| ==> outcomes[j] == FinalOutcome(attempts(j))
    ensures ShouldTerminateToolBatch(outcomes) == Terminates(attempts, |outcomes|)
  {
    hide FinalOutcome;
  }

  lemma ResultsMore(calls: seq<ToolCall>, attempts: Attempts, i: nat)
    requires i < |calls|
    ensures Results(calls, attempts, i + 1) == Results(calls, attempts, i) + [ResultOf(calls[i], attempts(i))]
  {
  }

  lemma {:induction false} NothingFrom(messages: seq<Message>)
    ensures From(messages, seq(|messages|, _ => Own), Steered) == []
    ensures From(messages, seq(|messages|, _ => Own), FollowedUp) == []
    decreases |messages|
  {
    if messages != [] {
      var k := |messages| - 1;
      assert seq(|messages|, _ => Own)[..k] == seq(k, _ => Own);
      NothingFrom(messages[..k]);
    }
  }
}
