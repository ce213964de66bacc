/** The events an agent run emits, and what a well-formed trace of them is. */
module AgentEvents {
  import opened Options

  datatype StopReason = Stop | Length | ToolUse | Error | Aborted

  datatype ToolCall = ToolCall(id: string, name: string, arguments: string)

  datatype Block = Text(text: string) | Call(call: ToolCall)

  /** `User` stands for every message that is neither an assistant's nor a tool's. */
  datatype Message =
    | User(text: string)
    | Assistant(content: seq<Block>, stopReason: StopReason, errorMessage: Option<string>)
    | ToolResult(callId: string, toolName: string, output: string, isError: bool)

  datatype Event =
    | AgentStart
    | AgentEnd(messages: seq<Message>)
    | TurnStart
    | TurnEnd(message: Message, toolResults: seq<Message>)
    | MessageStart(message: Message)
    | MessageUpdate(message: Message)
    | MessageEnd(message: Message)
    | ToolStart(call: ToolCall)
    | ToolUpdate(call: ToolCall, partial: string)
    | ToolEnd(call: ToolCall, output: string, isError: bool)

  function ToolCalls(content: seq<Block>): seq<ToolCall> {
    if content == [] then []
    else (if content[0].Call? then [content[0].call] else []) + ToolCalls(content[1..])
  }

  // ---------- Reading a trace ----------

  datatype Phase = Before | Between | InTurn | InMessage(started: Message) | Ended

  /** What a listener knows after a trace: the messages that ended, those of the current turn, the ids of the
      tool executions under way, the outcomes announced in the current turn, and the turns that ended. */
  datatype Reader = Reader(phase: Phase, messages: seq<Message>, turn: seq<Message>, open: multiset<string>,
                           reported: multiset<Message>, turns: seq<Event>)

  const UNREAD := Reader(Before, [], [], multiset{}, multiset{}, [])

  predicate EndsWith(turn: seq<Message>, last: seq<Message>) {
    |turn| >= |last| && turn[|turn| - |last|..] == last
  }

  /** The results answer the first calls of the message, in the order of the calls. */
  predicate AnswersInOrder(message: Message, results: seq<Message>) {
    && message.Assistant? && |results| <= |ToolCalls(message.content)|
    && forall i :: 0 <= i < |results| ==>
         results[i].ToolResult? && results[i].callId == ToolCalls(message.content)[i].id
  }

  /** An assistant message may end differently from how its stream started; any other message may not. */
  predicate SameMessage(started: Message, ended: Message) {
    started == ended || (started.Assistant? && ended.Assistant?)
  }

  predicate CanRead(r: Reader, e: Event) {
    match e
    case AgentStart => r.phase == Before
    case TurnStart => r.phase == Between
    case MessageStart(_) => r.phase == InTurn
    case MessageUpdate(m) => r.phase.InMessage? && m.Assistant? && r.phase.started.Assistant?
    case MessageEnd(m) => r.phase.InMessage? && SameMessage(r.phase.started, m)
    case ToolStart(_) => r.phase == InTurn
    case ToolUpdate(call, _) => r.phase == InTurn && call.id in r.open
    case ToolEnd(call, _, _) => r.phase == InTurn && call.id in r.open
    case TurnEnd(message, results) =>
      && r.phase == InTurn && r.open == multiset{} && r.reported == multiset(results)
      && EndsWith(r.turn, [message] + results) && AnswersInOrder(message, results)
    case AgentEnd(messages) => r.phase == Between && r.turns != [] && messages == r.messages
  }

  function Next(r: Reader, e: Event): Reader
    requires CanRead(r, e)
  {
    match e
    case AgentStart => r.(phase := Between)
    case TurnStart => r.(phase := InTurn, turn := [])
    case MessageStart(m) => r.(phase := InMessage(m))
    case MessageUpdate(_) => r
    case MessageEnd(m) => r.(phase := InTurn, messages := r.messages + [m], turn := r.turn + [m])
    case ToolStart(call) => r.(open := r.open + multiset{call.id})
    case ToolUpdate(_, _) => r
    case ToolEnd(call, output, isError) =>
      r.(open := r.open - multiset{call.id},
         reported := r.reported + multiset{ToolResult(call.id, call.name, output, isError)})
    case TurnEnd(_, _) => r.(phase := Between, turn := [], reported := multiset{}, turns := r.turns + [e])
    case AgentEnd(_) => r.(phase := Ended)
  }

  /** None if some event came where it may not. */
  function Read(trace: seq<Event>): Option<Reader> {
    if trace == [] then Some(UNREAD)
    else
      var before := Read(trace[..|trace| - 1]);
      var last := trace[|trace| - 1];
      if before.Some? && CanRead(before.value, last) then Some(Next(before.value, last)) else None
  }

  predicate WellFormed(trace: seq<Event>) { Read(trace).Some? }

  lemma ReadMore(trace: seq<Event>, e: Event)
    requires Read(trace).Some? && CanRead(Read(trace).value, e)
    ensures Read(trace + [e]) == Some(Next(Read(trace).value, e))
  {
    assert (trace + [e])[..|trace|] == trace;
  }

  lemma {:induction false} PrefixIsWellFormed(trace: seq<Event>, n: nat)
    requires WellFormed(trace) && n <= |trace|
    ensures WellFormed(trace[..n])
    decreases |trace|
  {
    if n < |trace| {
      PrefixIsWellFormed(trace[..|trace| - 1], n);
      assert trace[..|trace| - 1][..n] == trace[..n];
    } else {
      assert trace[..n] == trace;
    }
  }

  // ---------- What a well-formed trace means ----------

  datatype Kind =
    | RunStarts | RunEnds | TurnStarts | TurnEnds | MessageStarts | MessageEnds
    | ExecutionStarts(id: string) | ExecutionEnds(id: string)

  predicate Is(e: Event, kind: Kind) {
    match kind
    case RunStarts => e.AgentStart?
    case RunEnds => e.AgentEnd?
    case TurnStarts => e.TurnStart?
    case TurnEnds => e.TurnEnd?
    case MessageStarts => e.MessageStart?
    case MessageEnds => e.MessageEnd?
    case ExecutionStarts(id) => e.ToolStart? && e.call.id == id
    case ExecutionEnds(id) => e.ToolEnd? && e.call.id == id
  }

  function Count(trace: seq<Event>, kind: Kind): nat {
    if trace == [] then 0 else Count(trace[..|trace| - 1], kind) + (if Is(trace[|trace| - 1], kind) then 1 else 0)
  }

  function MessagesOf(trace: seq<Event>): seq<Message> {
    if trace == [] then []
    else MessagesOf(trace[..|trace| - 1])
         + (if trace[|trace| - 1].MessageEnd? then [trace[|trace| - 1].message] else [])
  }

  lemma {:induction false} ReaderCollectsMessages(trace: seq<Event>)
    requires WellFormed(trace)
    ensures Read(trace).value.messages == MessagesOf(trace)
  {
    if trace != [] {
      ReaderCollectsMessages(trace[..|trace| - 1]);
    }
  }

  /** Starts and ends balance: of the run, of turns, of messages, and of the executions of each tool call id. */
  ghost predicate Balanced(trace: seq<Event>, r: Reader) {
    RunBalances(trace, r) && TurnsBalance(trace, r) && MessagesBalance(trace, r) && ExecutionsBalance(trace, r)
  }

  ghost predicate RunBalances(trace: seq<Event>, r: Reader) {
    && Count(trace, RunStarts) == (if r.phase == Before then 0 else 1)
    && Count(trace, RunEnds) == (if r.phase == Ended then 1 else 0)
  }

  ghost predicate TurnsBalance(trace: seq<Event>, r: Reader) {
    && Count(trace, TurnStarts) == Count(trace, TurnEnds) + (if r.phase == InTurn || r.phase.InMessage? then 1 else 0)
    && Count(trace, TurnEnds) == |r.turns|
  }

  ghost predicate MessagesBalance(trace: seq<Event>, r: Reader) {
    Count(trace, MessageStarts) == Count(trace, MessageEnds) + (if r.phase.InMessage? then 1 else 0)
  }

  ghost predicate ExecutionsBalance(trace: seq<Event>, r: Reader) {
    forall id :: Count(trace, ExecutionStarts(id)) == Count(trace, ExecutionEnds(id)) + r.open[id]
  }

  lemma {:induction false} WellFormedIsBalanced(trace: seq<Event>)
    requires WellFormed(trace)
    ensures Balanced(trace, Read(trace).value)
  {
    hide CanRead, RunBalances, TurnsBalance, MessagesBalance, ExecutionsBalance;
    if trace == [] {
      NothingIsBalanced();
    } else {
      var before, last := trace[..|trace| - 1], trace[|trace| - 1];
      WellFormedIsBalanced(before);
      var r := Read(before).value;
      RunStep(before, r, last);
      TurnStep(before, r, last);
      MessageStep(before, r, last);
      ExecutionStep(before, r, last);
      assert trace[..|trace| - 1] + [trace[|trace| - 1]] == trace;
    }
  }

  lemma NothingIsBalanced()
    ensures Balanced([], UNREAD)
  {
  }

  lemma CountMore(trace: seq<Event>, e: Event, kind: Kind)
    ensures Count(trace + [e], kind) == Count(trace, kind) + if Is(e, kind) then 1 else 0
  {
    assert (trace + [e])[..|trace|] == trace;
  }

  lemma RunStep(trace: seq<Event>, r: Reader, e: Event)
    requires RunBalances(trace, r) && CanRead(r, e)
    ensures RunBalances(trace + [e], Next(r, e))
  {
    hide Count, EndsWith, AnswersInOrder, SameMessage;
    CountMore(trace, e, RunStarts);
    CountMore(trace, e, RunEnds);
  }

  lemma TurnStep(trace: seq<Event>, r: Reader, e: Event)
    requires TurnsBalance(trace, r) && CanRead(r, e)
    ensures TurnsBalance(trace + [e], Next(r, e))
  {
    hide Count, EndsWith, AnswersInOrder, SameMessage;
    CountMore(trace, e, TurnStarts);
    CountMore(trace, e, TurnEnds);
  }

  lemma MessageStep(trace: seq<Event>, r: Reader, e: Event)
    requires MessagesBalance(trace, r) && CanRead(r, e)
    ensures MessagesBalance(trace + [e], Next(r, e))
  {
    hide Count, EndsWith, AnswersInOrder, SameMessage;
    CountMore(trace, e, MessageStarts);
    CountMore(trace, e, MessageEnds);
  }

  lemma ExecutionStep(trace: seq<Event>, r: Reader, e: Event)
    requires ExecutionsBalance(trace, r) && CanRead(r, e)
    ensures ExecutionsBalance(trace + [e], Next(r, e))
  {
    hide Count, CanRead, Next;
    forall id
      ensures Count(trace + [e], ExecutionStarts(id)) == Count(trace + [e], ExecutionEnds(id)) + Next(r, e).open[id] {
      assert Count(trace, ExecutionStarts(id)) == Count(trace, ExecutionEnds(id)) + r.open[id];
      OneExecutionStep(trace, r, e, id);
    }
  }

  lemma OneExecutionStep(trace: seq<Event>, r: Reader, e: Event, id: string)
    requires Count(trace, ExecutionStarts(id)) == Count(trace, ExecutionEnds(id)) + r.open[id] && CanRead(r, e)
    ensures Count(trace + [e], ExecutionStarts(id)) == Count(trace + [e], ExecutionEnds(id)) + Next(r, e).open[id]
  {
    hide Count, EndsWith, AnswersInOrder, SameMessage;
    CountMore(trace, e, ExecutionStarts(id));
    CountMore(trace, e, ExecutionEnds(id));
  }

  /** A finished trace: one agent_start, one or more turns that start and end, one agent_end that comes last
      and carries exactly the messages that ended; every message that starts ends; every execution ends. */
  lemma FinishedTrace(trace: seq<Event>)
    requires WellFormed(trace) && Read(trace).value.phase == Ended
    ensures trace[|trace| - 1] == AgentEnd(MessagesOf(trace))
    ensures Count(trace, RunStarts) == 1 == Count(trace, RunEnds)
    ensures Count(trace, TurnStarts) == Count(trace, TurnEnds) >= 1
    ensures Count(trace, MessageStarts) == Count(trace, MessageEnds)
    ensures forall id :: Count(trace, ExecutionStarts(id)) == Count(trace, ExecutionEnds(id))
  {
    hide Count, MessagesOf, EndsWith, AnswersInOrder;
    var before := trace[..|trace| - 1];
    WellFormedIsBalanced(trace);
    ReaderCollectsMessages(trace);
    EndedHasTurns(trace);
    NothingOpenBetween(trace);
  }

  lemma EndedHasTurns(trace: seq<Event>)
    requires WellFormed(trace) && Read(trace).value.phase == Ended
    ensures trace[|trace| - 1] == AgentEnd(Read(trace).value.messages) && Read(trace).value.turns != []
  {
    hide EndsWith, AnswersInOrder;
  }

  lemma {:induction false} NothingOpenBetween(trace: seq<Event>)
    requires WellFormed(trace)
    ensures !Read(trace).value.phase.InTurn? && !Read(trace).value.phase.InMessage? ==>
              Read(trace).value.open == multiset{}
  {
    hide EndsWith, AnswersInOrder;
    if trace != [] {
      NothingOpenBetween(trace[..|trace| - 1]);
    }
  }

  // ---------- The agent's view of a trace ----------

  datatype AgentState = AgentState(messages: seq<Message>, streamingMessage: Option<Message>,
                                   pendingToolCalls: set<string>, errorMessage: Option<string>)

  function Reduce(s: AgentState, e: Event): AgentState {
    match e
    case MessageStart(m) => s.(streamingMessage := Some(m))
    case MessageUpdate(m) => s.(streamingMessage := Some(m))
    case MessageEnd(m) => s.(streamingMessage := None, messages := s.messages + [m])
    case ToolStart(call) => s.(pendingToolCalls := s.pendingToolCalls + {call.id})
    case ToolEnd(call, _, _) => s.(pendingToolCalls := s.pendingToolCalls - {call.id})
    case TurnEnd(m, _) => if m.Assistant? && m.errorMessage.Some? then s.(errorMessage := m.errorMessage) else s
    case AgentEnd(_) => s.(streamingMessage := None)
    case AgentStart => s
    case TurnStart => s
    case ToolUpdate(_, _) => s
  }

  function ReduceAll(s: AgentState, trace: seq<Event>): AgentState {
    if trace == [] then s else Reduce(ReduceAll(s, trace[..|trace| - 1]), trace[|trace| - 1])
  }

  /** The agent's state follows the trace: its messages are the old ones and then those that ended, it streams
      a message exactly while one is open, and only executions under way are pending. */
  ghost predicate Follows(before: seq<Message>, s: AgentState, r: Reader) {
    && s.messages == before + r.messages
    && (s.streamingMessage.Some? <==> r.phase.InMessage?)
    && forall id :: id in s.pendingToolCalls ==> id in r.open
  }

  lemma ReduceFollows(before: seq<Message>, s: AgentState, r: Reader, e: Event)
    requires Follows(before, s, r) && CanRead(r, e)
    ensures Follows(before, Reduce(s, e), Next(r, e))
  {
    hide EndsWith, AnswersInOrder, SameMessage;
    if e.MessageEnd? {
      assert before + (r.messages + [e.message]) == before + r.messages + [e.message];
    }
  }

  /** For every well-formed trace, whoever emitted it. */
  lemma {:induction false} StateFollowsTrace(s: AgentState, trace: seq<Event>)
    requires WellFormed(trace) && s.streamingMessage.None? && s.pendingToolCalls == {}
    ensures Follows(s.messages, ReduceAll(s, trace), Read(trace).value)
    ensures trace != [] && trace[|trace| - 1].TurnEnd? ==> ReduceAll(s, trace).pendingToolCalls == {}
  {
    hide CanRead, Next, Reduce;
    if trace == [] {
      assert s.messages + [] == s.messages;
    } else {
      var r := Read(trace[..|trace| - 1]).value;
      StateFollowsTrace(s, trace[..|trace| - 1]);
      ReduceFollows(s.messages, ReduceAll(s, trace[..|trace| - 1]), r, trace[|trace| - 1]);
      NothingOpenAtTurnEnd(r, trace[|trace| - 1]);
    }
  }

  /** The version of a message that a listener saw last, while that message is open. */
  function Shown(trace: seq<Event>): Option<Message> {
    if trace == [] then None
    else
      match trace[|trace| - 1]
      case MessageStart(m) => Some(m)
      case MessageUpdate(m) => Some(m)
      case MessageEnd(_) => None
      case AgentEnd(_) => None
      case _ => Shown(trace[..|trace| - 1])
  }

  /** The last event of an execution with this id is its start. */
  predicate UnderWay(trace: seq<Event>, id: string) {
    if trace == [] then false
    else
      match trace[|trace| - 1]
      case ToolStart(call) => call.id == id || UnderWay(trace[..|trace| - 1], id)
      case ToolEnd(call, _, _) => call.id != id && UnderWay(trace[..|trace| - 1], id)
      case _ => UnderWay(trace[..|trace| - 1], id)
  }

  function ErrorOf(e: Event): Option<string> {
    if e.TurnEnd? && e.message.Assistant? then e.message.errorMessage else None
  }

  function LastError(trace: seq<Event>): Option<string> {
    if trace == [] then None
    else if ErrorOf(trace[|trace| - 1]).Some? then ErrorOf(trace[|trace| - 1])
    else LastError(trace[..|trace| - 1])
  }

  /** What each field of the state means, for every trace. */
  lemma {:induction false} StateMeans(s: AgentState, trace: seq<Event>, id: string)
    requires s.streamingMessage.None? && s.pendingToolCalls == {}
    ensures ReduceAll(s, trace).messages == s.messages + MessagesOf(trace)
    ensures ReduceAll(s, trace).streamingMessage == Shown(trace)
    ensures id in ReduceAll(s, trace).pendingToolCalls <==> UnderWay(trace, id)
    ensures ReduceAll(s, trace).errorMessage == if LastError(trace).Some? then LastError(trace) else s.errorMessage
  {
    if trace == [] {
      assert s.messages + [] == s.messages;
    } else {
      var before := trace[..|trace| - 1];
      StateMeans(s, before, id);
      assert s.messages + MessagesOf(before) + [] == s.messages + MessagesOf(before);
    }
  }

  lemma NothingOpenAtTurnEnd(r: Reader, e: Event)
    requires CanRead(r, e)
    ensures e.TurnEnd? ==> Next(r, e).open == multiset{}
  {
    hide EndsWith, AnswersInOrder;
  }
}
