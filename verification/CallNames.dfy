/** Which call a result names once ids have been renamed, and when every call gets an answer of its own. */
module CallNames {
  import opened Basics
  import opened Options
  import opened Messages
  import opened MessageProofs

  // ---------- The calls of a history, in order ----------

  /** The ids called by some blocks. */
  function BlockIds(blocks: seq<Block>): seq<string> {
    if blocks == [] then []
    else (if blocks[0].ToolCall? then [blocks[0].id] else []) + BlockIds(blocks[1..])
  }

  function MessageIds(msg: Message): seq<string> {
    if msg.Assistant? && msg.blocks.Some? then BlockIds(msg.blocks.value) else []
  }

  /** The ids of all calls of a history, in order. */
  function AllIds(messages: seq<Message>): seq<string> {
    if messages == [] then [] else MessageIds(messages[0]) + AllIds(messages[1..])
  }

  function OutIdsOf(ids: seq<string>, msg: Message, model: Model, norm: Normalizer): (out: seq<string>)
    requires ids == [] || msg.Assistant?
    ensures |out| == |ids|
  {
    seq(|ids|, k requires 0 <= k < |ids| => CallId(ids[k], msg, model, norm))
  }

  /** The ids under which the same calls go out. */
  function OutIds(messages: seq<Message>, model: Model, norm: Normalizer): seq<string> {
    if messages == [] then []
    else OutIdsOf(MessageIds(messages[0]), Prepared(messages[0], model), model, norm)
         + OutIds(messages[1..], model, norm)
  }

  lemma {:induction false} SameCount(messages: seq<Message>, model: Model, norm: Normalizer)
    ensures |OutIds(messages, model, norm)| == |AllIds(messages)|
    decreases |messages|
  {
    if messages != [] {
      SameCount(messages[1..], model, norm);
    }
  }

  lemma {:induction false} BlockIdsConcat(a: seq<Block>, b: seq<Block>)
    ensures BlockIds(a + b) == BlockIds(a) + BlockIds(b)
    decreases |a|
  {
    if a == [] {
      assert a + b == b;
    } else {
      assert (a + b)[1..] == a[1..] + b;
      BlockIdsConcat(a[1..], b);
    }
  }

  lemma OneBlockOut(block: Block, msg: Message, model: Model, norm: Normalizer)
    requires msg.Assistant?
    ensures BlockIds(TransformBlock(block, msg, model, norm))
         == if block.ToolCall? then [CallId(block.id, msg, model, norm)] else []
  {
    hide CallId, HasInk;
    var out := TransformBlock(block, msg, model, norm);
    assert |out| <= 1;
    assert out != [] ==> BlockIds(out[1..]) == [];
  }

  lemma {:induction false} BlocksOut(blocks: seq<Block>, msg: Message, model: Model, norm: Normalizer)
    requires msg.Assistant?
    ensures BlockIds(TransformBlocks(blocks, msg, model, norm)) == OutIdsOf(BlockIds(blocks), msg, model, norm)
    decreases |blocks|
  {
    hide CallId, TransformBlock;
    if blocks != [] {
      OneBlockOut(blocks[0], msg, model, norm);
      BlocksOut(blocks[1..], msg, model, norm);
      BlockIdsConcat(TransformBlock(blocks[0], msg, model, norm), TransformBlocks(blocks[1..], msg, model, norm));
    }
  }

  lemma MessageOut(msg: Message, ids: IdMap, model: Model, norm: Normalizer)
    ensures MessageIds(TransformMessage(Prepared(msg, model), ids, model, norm))
         == OutIdsOf(MessageIds(msg), Prepared(msg, model), model, norm)
  {
    hide CallId, TransformBlocks, PlaceholderTail;
    var m := Prepared(msg, model);
    if m.Assistant? {
      BlocksOut(m.blocks.value, m, model, norm);
    }
  }

  /** The first pass renames the calls one by one and keeps their order. */
  lemma {:induction false} CallsOut(messages: seq<Message>, ids: IdMap, model: Model, norm: Normalizer)
    ensures AllIds(FirstPass(messages, ids, model, norm)) == OutIds(messages, model, norm)
    decreases |messages|
  {
    hide TransformMessage, Prepared, RecordMessage, MessageIds;
    if messages != [] {
      var m := Prepared(messages[0], model);
      MessageOut(messages[0], ids, model, norm);
      CallsOut(messages[1..], RecordMessage(ids, m, model, norm), model, norm);
      var first := TransformMessage(m, ids, model, norm);
      assert ([first] + FirstPass(messages[1..], RecordMessage(ids, m, model, norm), model, norm))[1..]
          == FirstPass(messages[1..], RecordMessage(ids, m, model, norm), model, norm);
    }
  }

  lemma {:induction false} BlockIdsHave(blocks: seq<Block>, x: string)
    ensures x in BlockIds(blocks) <==> exists b :: b in blocks && b.ToolCall? && b.id == x
    decreases |blocks|
  {
    if blocks != [] {
      BlockIdsHave(blocks[1..], x);
      assert forall b :: b in blocks <==> b == blocks[0] || b in blocks[1..];
    }
  }

  lemma MakesIsListed(msg: Message, x: string)
    ensures Makes(msg, x) <==> x in MessageIds(msg)
  {
    if msg.Assistant? && msg.blocks.Some? {
      BlockIdsHave(msg.blocks.value, x);
    }
  }

  /** Where the call of message `i` with id `x` stands in the list, and the id it goes out under. */
  lemma {:induction false} CallAt(messages: seq<Message>, i: nat, x: string, model: Model, norm: Normalizer)
    returns (k: nat)
    requires i < |messages| && Makes(messages[i], x)
    ensures k < |AllIds(messages)| == |OutIds(messages, model, norm)|
    ensures AllIds(messages)[k] == x
    ensures OutIds(messages, model, norm)[k] == CallId(x, Prepared(messages[i], model), model, norm)
    decreases i
  {
    hide CallId, Prepared, MessageIds;
    SameCount(messages, model, norm);
    SameCount(messages[1..], model, norm);
    var here := MessageIds(messages[0]);
    if i == 0 {
      MakesIsListed(messages[0], x);
      k :| 0 <= k < |here| && here[k] == x;
    } else {
      var rest := CallAt(messages[1..], i - 1, x, model, norm);
      k := |here| + rest;
    }
  }

  /** If no id is called twice, at most one message makes a call with a given id. */
  lemma {:induction false} OneMaker(messages: seq<Message>, i: nat, j: nat, x: string)
    requires Distinct(AllIds(messages)) && i < j < |messages| && Makes(messages[i], x)
    ensures !Makes(messages[j], x)
    decreases i
  {
    hide MessageIds;
    var here, rest := MessageIds(messages[0]), AllIds(messages[1..]);
    assert AllIds(messages)[..|here|] == here && AllIds(messages)[|here|..] == rest;
    if i == 0 {
      MakesIsListed(messages[0], x);
      var k :| 0 <= k < |here| && here[k] == x;
      assert AllIds(messages) == here + rest;
      forall l | 0 <= l < |rest| ensures rest[l] != x {
        NotInBoth(here, rest, k, l);
      }
      ListedLater(messages[1..], j - 1, x);
    } else {
      assert Distinct(rest) by {
        forall k, l | 0 <= k < l < |rest| ensures rest[k] != rest[l] {
          assert AllIds(messages)[|here| + k] != AllIds(messages)[|here| + l];
        }
      }
      OneMaker(messages[1..], i - 1, j - 1, x);
    }
  }

  lemma NotInBoth(a: seq<string>, b: seq<string>, k: nat, l: nat)
    requires Distinct(a + b) && k < |a| && l < |b|
    ensures a[k] != b[l]
  {
    assert (a + b)[k] != (a + b)[|a| + l];
  }

  lemma {:induction false} ListedLater(messages: seq<Message>, j: nat, x: string)
    requires j < |messages|
    ensures Makes(messages[j], x) ==> x in AllIds(messages)
    decreases j
  {
    hide MessageIds;
    MakesIsListed(messages[0], x);
    if j > 0 {
      ListedLater(messages[1..], j - 1, x);
    }
  }

  // ---------- A result and its call ----------

  /** In a list of call ids, `id` is that of call `k` and of no other. */
  predicate NamesOnly(ids: seq<string>, id: string, k: nat) {
    k < |ids| && ids[k] == id && forall l :: 0 <= l < |ids| && l != k ==> ids[l] != id
  }

  /** If no id is called twice, a result names its call and no other after the renaming exactly if the id of
      the call does not become empty and no other call goes out under the same id. */
  lemma ResultNamesOnlyItsCall(messages: seq<Message>, i: nat, p: nat, k: nat, model: Model, norm: Normalizer)
    requires Distinct(AllIds(messages)) && i < p < |messages| && messages[p].ToolResult?
    requires Makes(messages[i], messages[p].toolCallId)
    requires k < |AllIds(messages)| && AllIds(messages)[k] == messages[p].toolCallId
    ensures var out := FirstPass(messages, map[], model, norm);
            var raw, sent := AllIds(messages), OutIds(messages, model, norm);
            && |out| == |messages| && out[p].ToolResult? && AllIds(out) == sent && |sent| == |raw|
            && (NamesOnly(AllIds(out), out[p].toolCallId, k)
                <==> (raw[k] != "" ==> sent[k] != "") && forall l :: 0 <= l < |sent| && l != k ==> sent[l] != sent[k])
  {
    hide FirstPass, AllIds, OutIds, Prepared, CallId;
    var x := messages[p].toolCallId;
    forall j | 0 <= j < p && j != i ensures !Makes(messages[j], x) {
      if i < j {
        OneMaker(messages, i, j, x);
      } else if Makes(messages[j], x) {
        OneMaker(messages, j, i, x);
      }
    }
    ResultNamesItsCall(messages, i, p, model, norm);
    CallsOut(messages, map[], model, norm);
    SameCount(messages, model, norm);
    var at := CallAt(messages, i, x, model, norm);
    assert at == k;
  }

  // ---------- Every call gets its own answer ----------

  predicate ResultsFollowCalls(messages: seq<Message>) {
    forall p :: 0 <= p < |messages| && messages[p].ToolResult? ==>
      exists i :: 0 <= i < p && Makes(messages[i], messages[p].toolCallId)
  }

  /** No id is called twice, before and after the renaming, none becomes empty, and results answer calls. */
  predicate Separable(messages: seq<Message>, model: Model, norm: Normalizer) {
    var raw, sent := AllIds(messages), OutIds(messages, model, norm);
    && Distinct(raw) && Distinct(sent) && |raw| == |sent|
    && (forall k :: 0 <= k < |raw| && raw[k] != "" ==> sent[k] != "")
    && ResultsFollowCalls(messages)
  }

  /** An answer to the call with id `x`, which goes out under `y`: one of its results, or a stand-in for it. */
  ghost predicate OwnAnswer(m: Message, messages: seq<Message>, x: string, y: string, model: Model, norm: Normalizer) {
    && m.ToolResult? && m.toolCallId == y
    && (|| (exists c: Block :: c.ToolCall? && c.id == y && m == Synthetic(c))
        || (exists p :: IsResultOf(messages, p, x) && m == Transformed(messages, p, model, norm)))
  }

  predicate IsResultOf(messages: seq<Message>, p: int, x: string) {
    0 <= p < |messages| && messages[p].ToolResult? && messages[p].toolCallId == x
  }

  function Transformed(messages: seq<Message>, p: nat, model: Model, norm: Normalizer): Message
    requires p < |messages|
  {
    FirstPassLength(messages, map[], model, norm);
    FirstPass(messages, map[], model, norm)[p]
  }

  /** Whatever result comes out with the id of a call answers that call and no other. */
  lemma AnswersAreOwn(messages: seq<Message>, k: nat, m: Message, model: Model, norm: Normalizer)
    requires Separable(messages, model, norm) && k < |AllIds(messages)|
    requires m in Transform(messages, model, norm) && m.ToolResult? && m.toolCallId == OutIds(messages, model, norm)[k]
    ensures OwnAnswer(m, messages, AllIds(messages)[k], OutIds(messages, model, norm)[k], model, norm)
  {
    hide FirstPass, AllIds, OutIds, SecondPass, Makes;
    var first := FirstPass(messages, map[], model, norm);
    FirstPassLength(messages, map[], model, norm);
    SecondPassEmits(first, [], {}, m);
    if m in first {
      var p :| 0 <= p < |first| && first[p] == m;
      ResultIsOwn(messages, k, p, model, norm);
      assert IsResultOf(messages, p, AllIds(messages)[k]) && m == Transformed(messages, p, model, norm);
    }
  }

  lemma ResultIsOwn(messages: seq<Message>, k: nat, p: nat, model: Model, norm: Normalizer)
    requires Separable(messages, model, norm) && k < |AllIds(messages)| && p < |messages|
    requires var m := Transformed(messages, p, model, norm);
             m.ToolResult? && m.toolCallId == OutIds(messages, model, norm)[k]
    ensures IsResultOf(messages, p, AllIds(messages)[k])
  {
    hide FirstPass, AllIds, OutIds, Makes, CallId;
    FirstPassAt(messages, p, map[], model, norm);
    assert messages[p].ToolResult? by { SameRole(messages, p, model, norm); }
    var x := messages[p].toolCallId;
    var i :| 0 <= i < p && Makes(messages[i], x);
    var l := CallAt(messages, i, x, model, norm);
    ResultNamesOnlyItsCall(messages, i, p, l, model, norm);
    assert OutIds(messages, model, norm)[l] == OutIds(messages, model, norm)[k];
  }

  lemma SameRole(messages: seq<Message>, p: nat, model: Model, norm: Normalizer)
    requires p < |messages|
    ensures Transformed(messages, p, model, norm).ToolResult? <==> messages[p].ToolResult?
  {
    hide FirstPass, Prepared, TransformBlocks, IdsAt;
    FirstPassAt(messages, p, map[], model, norm);
  }

  lemma {:induction false} LeadingResult(messages: seq<Message>, y: string) returns (n: nat)
    requires y in LeadingIds(messages)
    ensures n < |messages| && (forall z :: 0 <= z <= n ==> messages[z].ToolResult?) && messages[n].toolCallId == y
    decreases |messages|
  {
    if messages[0].toolCallId == y {
      n := 0;
    } else {
      n := LeadingResult(messages[1..], y);
      n := n + 1;
    }
  }

  lemma MadeIsCalled(msg: Message, y: string)
    requires Makes(msg, y)
    ensures y in CallIds(msg)
  {
    var b :| b in msg.blocks.value && b.ToolCall? && b.id == y;
    CallsHave(msg.blocks.value, b);
  }

  lemma {:induction false} CallsHave(blocks: seq<Block>, b: Block)
    requires b in blocks && b.ToolCall?
    ensures b in Calls(blocks)
    decreases |blocks|
  {
    if b != blocks[0] {
      CallsHave(blocks[1..], b);
    }
  }

  /** In a history whose ids stay apart, every call that goes out is followed, with nothing but results in
      between, by an answer of its own: one of its results, or a stand-in for it. */
  lemma EachCallGetsItsOwn(messages: seq<Message>, k: nat, q: nat, model: Model, norm: Normalizer) returns (n: nat)
    requires Separable(messages, model, norm) && k < |AllIds(messages)|
    requires var out := Transform(messages, model, norm); q < |out| && Makes(out[q], OutIds(messages, model, norm)[k])
    ensures var out := Transform(messages, model, norm);
            && q < n < |out| && (forall z :: q < z <= n ==> out[z].ToolResult?)
            && OwnAnswer(out[n], messages, AllIds(messages)[k], OutIds(messages, model, norm)[k], model, norm)
  {
    hide AllIds, OutIds, SecondPass, Makes, Separable, OwnAnswer, FirstPass;
    SameCount(messages, model, norm);
    var out, y := Transform(messages, model, norm), OutIds(messages, model, norm)[k];
    SecondPassCloses(FirstPass(messages, map[], model, norm), [], {});
    ClosedDrop(out, q);
    MadeIsCalled(out[q], y);
    assert out[q..][0] == out[q] && out[q..][1..] == out[q + 1..];
    var d := LeadingResult(out[q + 1..], y);
    n := q + 1 + d;
    forall z | q < z <= n ensures out[z].ToolResult? {
      assert out[q + 1..][z - q - 1] == out[z];
    }
    AnswersAreOwn(messages, k, out[n], model, norm);
  }

  /** Every message but errored and aborted assistants goes out, so every other call does. */
  lemma {:induction false} ReplayedGoesOut(messages: seq<Message>, pending: seq<Block>, existing: set<string>,
                                           m: Message)
    requires m in messages && Replayed(m)
    ensures m in SecondPass(messages, pending, existing)
    decreases |messages|
  {
    hide Replayed, Synthetics;
    var msg, rest := messages[0], messages[1..];
    if m != msg {
      match msg
      case ToolResult(id, _, _, _, _) => ReplayedGoesOut(rest, pending, existing + {id}, m);
      case User(_) => ReplayedGoesOut(rest, [], {}, m);
      case Assistant(_, _, _, _, _) => ReplayedGoesOut(rest, if Replayed(msg) then CallsOf(msg) else [], {}, m);
    }
  }
}
