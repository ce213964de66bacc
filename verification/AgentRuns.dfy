/** What a run does with its turns, seen in the events it emits; and what a turn does with its tool calls. */
module AgentRuns {
  import opened Options
  import opened AgentEvents
  import opened ToolBatches
  import opened AgentLoop

  // ---------- The ends of turns in a trace ----------

  function TurnEndsOf(trace: seq<Event>): seq<Event> {
    if trace == [] then []
    else TurnEndsOf(trace[..|trace| - 1]) + (if trace[|trace| - 1].TurnEnd? then [trace[|trace| - 1]] else [])
  }

  lemma {:induction false} ReaderCollectsTurns(trace: seq<Event>)
    requires WellFormed(trace)
    ensures Read(trace).value.turns == TurnEndsOf(trace)
  {
    hide EndsWith, AnswersInOrder, SameMessage;
    if trace != [] {
      ReaderCollectsTurns(trace[..|trace| - 1]);
    }
  }

  lemma {:induction false} TurnEndAt(trace: seq<Event>, p: nat)
    requires p < |trace| && trace[p].TurnEnd?
    ensures |TurnEndsOf(trace[..p])| < |TurnEndsOf(trace)|
    ensures TurnEndsOf(trace)[|TurnEndsOf(trace[..p])|] == trace[p]
    decreases |trace|
  {
    var n := |trace| - 1;
    if p < n {
      assert trace[..n][..p] == trace[..p];
      TurnEndAt(trace[..n], p);
    }
  }

  lemma {:induction false} TurnsTakenAt(script: seq<Turn>, n: nat, k: nat)
    requires AreResponses(script) && k < n <= |script| && script[k].final.Assistant?
    ensures |TurnsTaken(script, n)| == n && TurnsTaken(script, n)[k] == TurnEndOf(script[k])
  {
    hide TurnEndOf;
    TurnsTakenMany(script, n - 1);
    if k < n - 1 {
      TurnsTakenAt(script, n - 1, k);
    }
  }

  lemma {:induction false} TurnsTakenMany(script: seq<Turn>, n: nat)
    requires AreResponses(script) && n <= |script|
    ensures |TurnsTaken(script, n)| == n
  {
    hide TurnEndOf;
    if n > 0 {
      TurnsTakenMany(script, n - 1);
    }
  }

  /** After the end of a turn comes nothing, another turn, or the end of the run and then nothing. */
  lemma AfterTurnEnd(trace: seq<Event>, p: nat)
    requires WellFormed(trace) && p < |trace| && trace[p].TurnEnd?
    ensures p + 1 < |trace| ==> trace[p + 1].TurnStart? || (trace[p + 1].AgentEnd? && p + 2 == |trace|)
  {
    hide EndsWith, AnswersInOrder, SameMessage;
    PrefixIsWellFormed(trace, p + 1);
    assert trace[..p + 1][..p] == trace[..p];
    if p + 1 < |trace| {
      PrefixIsWellFormed(trace, p + 2);
      assert trace[..p + 2][..p + 1] == trace[..p + 1];
      if p + 2 < |trace| {
        PrefixIsWellFormed(trace, p + 3);
        assert trace[..p + 3][..p + 2] == trace[..p + 2];
      }
    }
  }

  /** A turn that starts at `p` ends before the trace comes to rest. */
  lemma {:induction false} StartedTurnEnds(trace: seq<Event>, p: nat)
    requires WellFormed(trace) && p < |trace| && trace[p].TurnStart?
    ensures !Read(trace).value.phase.InTurn? && !Read(trace).value.phase.InMessage? ==>
              |TurnEndsOf(trace)| > |TurnEndsOf(trace[..p])|
    ensures |TurnEndsOf(trace)| >= |TurnEndsOf(trace[..p])|
    decreases |trace|
  {
    hide EndsWith, AnswersInOrder, SameMessage;
    var n := |trace| - 1;
    if p < n {
      assert trace[..n][..p] == trace[..p];
      StartedTurnEnds(trace[..n], p);
    }
  }

  /** The end of a turn is that of its turn of the script. Another turn begins right after it if one was taken;
      otherwise the run ends right after it, or has not gone on yet. */
  lemma TurnsInTrace(script: seq<Turn>, injected: seq<seq<Message>>, end: End, leftover: seq<Message>,
                     prompts: seq<Message>, said: seq<Message>, trace: seq<Event>, p: nat)
    returns (k: nat)
    requires AreResponses(script) && Traced(script, injected, end, leftover, prompts, said, trace)
    requires p < |trace| && trace[p].TurnEnd?
    ensures k == |TurnEndsOf(trace[..p])| && k < |injected| <= |script| && script[k].final.Assistant?
    ensures trace[p] == TurnEnd(script[k].final, TurnBatch(script[k]).messages)
    ensures if k + 1 < |injected| then p + 1 < |trace| && trace[p + 1].TurnStart?
            else if end == StillRunning then p + 1 == |trace|
            else p + 2 == |trace| && trace[p + 1].AgentEnd?
  {
    hide Read, Runs, Said, TurnBatch, AreResponses, TurnsTaken;
    AreMany(script, injected, end, leftover);
    k := |TurnEndsOf(trace[..p])|;
    ReaderCollectsTurns(trace);
    TurnEndAt(trace, p);
    TurnsTakenMany(script, |injected|);
    IsAmong(script, k);
    TurnsTakenAt(script, |injected|, k);
    AfterTurnEnd(trace, p);
    EndedTraceEnds(trace);
    assert trace[..p + 1][..p] == trace[..p];
    if p + 1 == |trace| {
      assert trace[..p + 1] == trace;
    } else if trace[p + 1].TurnStart? {
      StartedTurnEnds(trace, p + 1);
    } else {
      assert trace[..p + 2] == trace && trace[..p + 2][..p + 1] == trace[..p + 1];
    }
  }

  lemma AreMany(script: seq<Turn>, injected: seq<seq<Message>>, end: End, leftover: seq<Message>)
    requires Runs(script, injected, end, leftover)
    ensures |injected| <= |script|
  {
  }

  lemma EndedTraceEnds(trace: seq<Event>)
    requires WellFormed(trace) && trace != []
    ensures trace[|trace| - 1].AgentEnd? <==> Read(trace).value.phase == Ended
  {
    hide EndsWith, AnswersInOrder, SameMessage;
  }

  /** A turn whose tool calls ask for another response, and that is not stopped, is followed by another turn;
      one that failed or was stopped ends the run; and a turn is followed by another only if its tool calls ask
      for it or messages were queued. */
  lemma ToolCallsAreFollowedUp(script: seq<Turn>, injected: seq<seq<Message>>, end: End, leftover: seq<Message>,
                               prompts: seq<Message>, said: seq<Message>, trace: seq<Event>, p: nat)
    returns (k: nat)
    requires AreResponses(script) && Traced(script, injected, end, leftover, prompts, said, trace)
    requires p + 1 < |trace| && trace[p].TurnEnd?
    ensures k == |TurnEndsOf(trace[..p])| && k < |injected| <= |script| && script[k].final.Assistant?
    ensures trace[p].message == script[k].final
    ensures CallsOn(script[k]) && !script[k].stop ==> trace[p + 1].TurnStart?
    ensures GaveUp(script[k]) || script[k].stop ==> trace[p + 1].AgentEnd?
    ensures trace[p + 1].TurnStart? ==> CallsOn(script[k]) || (k + 1 < |injected| && injected[k + 1] != [])
  {
    hide Read, Said, TurnsTaken, TurnBatch, AreResponses, Asks;
    k := TurnsInTrace(script, injected, end, leftover, prompts, said, trace, p);
  }

  // ---------- What a turn does with its tool calls ----------

  lemma {:induction false} TruncatedResultIs(calls: seq<ToolCall>, k: nat, i: nat)
    requires i < k <= |calls|
    ensures TruncatedResults(calls, k)[i]
            == ToolResult(calls[i].id, calls[i].name, TruncatedReason(calls[i].name), true)
    decreases k
  {
    hide TruncatedReason;
    if i < k - 1 {
      TruncatedResultIs(calls, k - 1, i);
    }
  }

  /** What a call that was executed comes to: the reason why it did not run, or the outcome of the tool. */
  predicate IsExecuted(m: Message, call: ToolCall, attempt: Attempt) {
    match attempt.preparation
    case Immediate(reason) => m == ToolResult(call.id, call.name, reason, true)
    case Prepared(_) => m == ToolResult(call.id, call.name, attempt.outcome.output, attempt.outcome.isError)
  }

  /** A failed response and one without tool calls have no results. If the response was cut off at the token
      limit, none of its calls is executed and each gets an error. Otherwise the calls are executed, in order,
      up to the first after which the run is found aborted. */
  lemma BatchMeans(t: Turn)
    requires t.final.Assistant?
    ensures var calls, m := ToolCalls(t.final.content), TurnBatch(t).messages;
            if GaveUp(t) then m == []
            else if t.final.stopReason == Length then
              && |m| == |calls|
              && forall i :: 0 <= i < |m| ==>
                   m[i] == ToolResult(calls[i].id, calls[i].name, TruncatedReason(calls[i].name), true)
            else
              && |m| <= |calls|
              && (forall i :: 0 <= i < |calls| ==>
                    (i < |m| <==> Uninterrupted(t.attempts, i)))
              && forall i :: 0 <= i < |m| ==> IsExecuted(m[i], calls[i], t.attempts(i))
  {
    hide Results, Reached, TruncatedResults, ToolCalls, TruncatedReason;
    var calls, m := ToolCalls(t.final.content), TurnBatch(t).messages;
    if GaveUp(t) || calls == [] {
    } else if t.final.stopReason == Length {
      forall i | 0 <= i < |m|
        ensures m[i] == ToolResult(calls[i].id, calls[i].name, TruncatedReason(calls[i].name), true)
      {
        TruncatedResultIs(calls, |calls|, i);
      }
    } else {
      forall i | 0 <= i < |m| ensures IsExecuted(m[i], calls[i], t.attempts(i)) {
        ResultsAt(calls, t.attempts, |m|, i);
      }
      forall i | 0 <= i < |calls| ensures i < |m| <==> Uninterrupted(t.attempts, i) {
        ReachedUpToAbort(t.attempts, |calls|, 0, i);
      }
    }
  }
}
