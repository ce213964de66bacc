/** What the tool calls of one assistant message come to, whatever order they complete in. */
module ToolBatches {
  import opened AgentEvents

  datatype Outcome = Outcome(output: string, terminate: bool, isError: bool)

  /** Before a call runs it is looked up, validated and shown to a hook: it fails there, or runs with
      possibly changed arguments. */
  datatype Preparation = Immediate(reason: string) | Prepared(arguments: string)

  /** What happens to one call: `outcome` is that of the tool and the hook after it, `aborted` the abort
      signal as the loop over the calls sees it once it is done with this one. */
  datatype Attempt = Attempt(preparation: Preparation, updates: seq<string>, outcome: Outcome, aborted: bool)

  type Attempts = nat -> Attempt

  /** One thing that happens while several calls run at once. */
  datatype Activity = Progress(call: nat, partial: string) | Finish(call: nat)

  datatype Batch = Batch(messages: seq<Message>, terminate: bool)

  predicate Uninterrupted(attempts: Attempts, n: nat) {
    forall i :: 0 <= i < n ==> !attempts(i).aborted
  }

  function EffectiveCall(call: ToolCall, attempt: Attempt): ToolCall {
    match attempt.preparation
    case Immediate(_) => call
    case Prepared(arguments) => call.(arguments := arguments)
  }

  function FinalOutcome(attempt: Attempt): Outcome {
    match attempt.preparation
    case Immediate(reason) => Outcome(reason, false, true)
    case Prepared(_) => attempt.outcome
  }

  function ResultMessage(call: ToolCall, outcome: Outcome): Message {
    ToolResult(call.id, call.name, outcome.output, outcome.isError)
  }

  function ResultOf(call: ToolCall, attempt: Attempt): Message {
    ResultMessage(EffectiveCall(call, attempt), FinalOutcome(attempt))
  }

  /** How many of `n` calls are attempted: all up to the first after which the run is found aborted. */
  function Reached(attempts: Attempts, n: nat, i: nat := 0): (k: nat)
    requires i <= n
    ensures i <= k <= n
    ensures (forall j :: i <= j < n ==> !attempts(j).aborted) ==> k == n
    decreases n - i
  {
    if i == n then n else if attempts(i).aborted then i + 1 else Reached(attempts, n, i + 1)
  }

  function Results(calls: seq<ToolCall>, attempts: Attempts, k: nat): (messages: seq<Message>)
    requires k <= |calls|
    ensures |messages| == k
  {
    if k == 0 then [] else Results(calls, attempts, k - 1) + [ResultOf(calls[k - 1], attempts(k - 1))]
  }

  predicate Terminates(attempts: Attempts, k: nat) {
    k > 0 && forall i :: 0 <= i < k ==> FinalOutcome(attempts(i)).terminate
  }

  function Executed(calls: seq<ToolCall>, attempts: Attempts): Batch {
    var k := Reached(attempts, |calls|);
    Batch(Results(calls, attempts, k), Terminates(attempts, k))
  }

  function TruncatedReason(name: string): string {
    "Tool call \"" + name + "\" was not executed: the response hit the output token limit, so its arguments may be"
      + " truncated. Re-issue the tool call with complete arguments."
  }

  function TruncatedResults(calls: seq<ToolCall>, k: nat): (messages: seq<Message>)
    requires k <= |calls|
    ensures |messages| == k
  {
    if k == 0 then []
    else TruncatedResults(calls, k - 1)
         + [ResultMessage(calls[k - 1], Outcome(TruncatedReason(calls[k - 1].name), false, true))]
  }

  lemma {:induction false} ResultsAt(calls: seq<ToolCall>, attempts: Attempts, k: nat, i: nat)
    requires i < k <= |calls|
    ensures Results(calls, attempts, k)[i] == ResultOf(calls[i], attempts(i))
    decreases k
  {
    if i < k - 1 {
      ResultsAt(calls, attempts, k - 1, i);
    }
  }

  lemma {:induction false} TruncatedResultsAt(calls: seq<ToolCall>, k: nat, i: nat)
    requires i < k <= |calls|
    ensures TruncatedResults(calls, k)[i].ToolResult? && TruncatedResults(calls, k)[i].callId == calls[i].id
    decreases k
  {
    hide TruncatedReason;
    if i < k - 1 {
      TruncatedResultsAt(calls, k - 1, i);
    }
  }

  /** The results are, in the order of the calls, one for each of the first calls; for all of them if the
      run is not aborted. The batch ends the run exactly if there is a result and every one asks for it. */
  lemma ExecutedInOrder(calls: seq<ToolCall>, attempts: Attempts)
    ensures var batch := Executed(calls, attempts);
            && |batch.messages| <= |calls|
            && (forall i :: 0 <= i < |batch.messages| ==> batch.messages[i] == ResultOf(calls[i], attempts(i)))
            && ((forall i :: 0 <= i < |calls| ==> !attempts(i).aborted) ==> |batch.messages| == |calls|)
            && (batch.terminate <==>
                  && batch.messages != []
                  && forall i :: 0 <= i < |batch.messages| ==> FinalOutcome(attempts(i)).terminate)
  {
    hide Results;
    var k := Reached(attempts, |calls|);
    forall i | 0 <= i < k ensures Results(calls, attempts, k)[i] == ResultOf(calls[i], attempts(i)) {
      ResultsAt(calls, attempts, k, i);
    }
  }

  // ---------- Bookkeeping for calls that run at once ----------

  /** The ids of the calls that have started and not ended. */
  function Open(calls: seq<ToolCall>, done: seq<bool>): multiset<string>
    requires |done| <= |calls|
    decreases |done|
  {
    if done == [] then multiset{}
    else
      var k := |done| - 1;
      Open(calls, done[..k]) + (if done[k] then multiset{} else multiset{calls[k].id})
  }

  /** The results announced so far. */
  function Reported(calls: seq<ToolCall>, attempts: Attempts, done: seq<bool>): multiset<Message>
    requires |done| <= |calls|
    decreases |done|
  {
    if done == [] then multiset{}
    else
      var k := |done| - 1;
      Reported(calls, attempts, done[..k]) + Announced(ResultOf(calls[k], attempts(k)), done[k])
  }

  function Announced(result: Message, done: bool): multiset<Message> { if done then multiset{result} else multiset{} }

  lemma {:induction false} OneLessOpen(calls: seq<ToolCall>, done: seq<bool>, j: nat)
    requires |done| <= |calls| && j < |done| && !done[j]
    ensures Open(calls, done) == Open(calls, done[j := true]) + multiset{calls[j].id}
    decreases |done|
  {
    var k := |done| - 1;
    if j == k {
      assert done[j := true][..k] == done[..k];
    } else {
      assert done[j := true][..k] == done[..k][j := true];
      OneLessOpen(calls, done[..k], j);
    }
  }

  lemma {:induction false} OneMoreReported(calls: seq<ToolCall>, attempts: Attempts, done: seq<bool>, j: nat)
    requires |done| <= |calls| && j < |done| && !done[j]
    ensures Reported(calls, attempts, done[j := true])
         == Reported(calls, attempts, done) + Announced(ResultOf(calls[j], attempts(j)), true)
    decreases |done|
  {
    hide ResultOf, Reported, Announced;
    var k := |done| - 1;
    var now := done[j := true];
    ReportedLast(calls, attempts, done);
    ReportedLast(calls, attempts, now);
    if j == k {
      assert now[..k] == done[..k];
      NotAnnounced(Reported(calls, attempts, done[..k]), ResultOf(calls[k], attempts(k)));
    } else {
      assert now[..k] == done[..k][j := true];
      OneMoreReported(calls, attempts, done[..k], j);
      Swapped(Reported(calls, attempts, done[..k]), Announced(ResultOf(calls[j], attempts(j)), true),
              Announced(ResultOf(calls[k], attempts(k)), done[k]));
    }
  }

  lemma ReportedLast(calls: seq<ToolCall>, attempts: Attempts, done: seq<bool>)
    requires 0 < |done| <= |calls|
    ensures var k := |done| - 1;
            Reported(calls, attempts, done) == Reported(calls, attempts,
                                                        done[..k]) + Announced(ResultOf(calls[k], attempts(k)), done[k])
  {
  }

  lemma NotAnnounced(reported: multiset<Message>, result: Message)
    ensures reported + Announced(result, false) == reported
  {
  }

  lemma Swapped<T>(a: multiset<T>, b: multiset<T>, c: multiset<T>)
    ensures a + b + c == a + c + b
  {
  }

  lemma OneMoreStarted(calls: seq<ToolCall>, attempts: Attempts, done: seq<bool>)
    requires |done| < |calls|
    ensures Open(calls, done + [false]) == Open(calls, done) + multiset{calls[|done|].id}
    ensures Reported(calls, attempts, done + [false]) == Reported(calls, attempts, done)
  {
    hide ResultOf;
    assert (done + [false])[..|done|] == done;
  }

  lemma {:induction false} AllDone(calls: seq<ToolCall>, attempts: Attempts, done: seq<bool>)
    requires |done| <= |calls| && forall j :: 0 <= j < |done| ==> done[j]
    ensures Open(calls, done) == multiset{}
    ensures Reported(calls, attempts, done) == multiset(Results(calls, attempts, |done|))
    decreases |done|
  {
    hide ResultOf;
    if done != [] {
      AllDone(calls, attempts, done[..|done| - 1]);
    }
  }

  /** A call that was rewritten by a hook is still the same call to a listener. */
  lemma SameCall(call: ToolCall, attempt: Attempt)
    ensures EffectiveCall(call, attempt).id == call.id && EffectiveCall(call, attempt).name == call.name
  {
  }
}
