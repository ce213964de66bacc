/** Properties of the message transformation: every call answered, nothing else added or lost,
    idempotence, and results that keep naming their calls. */
module MessageProofs {
  import opened Options
  import opened Messages

  // ---------- Every call is answered ----------

  function CallIds(msg: Message): set<string> { IdsOf(CallsOf(msg)) }

  function IdsOf(calls: seq<Block>): set<string> { set c | c in calls && c.ToolCall? :: c.id }

  /** The ids answered by the results that a sequence starts with. */
  function LeadingIds(messages: seq<Message>): set<string> {
    if messages == [] || !messages[0].ToolResult? then {}
    else {messages[0].toolCallId} + LeadingIds(messages[1..])
  }

  /** Each assistant message is directly followed by results for all its calls. */
  predicate Closed(messages: seq<Message>) {
    messages == [] || (CallIds(messages[0]) <= LeadingIds(messages[1..]) && Closed(messages[1..]))
  }

  lemma {:induction false} ClosedDrop(messages: seq<Message>, n: nat)
    requires Closed(messages) && n <= |messages|
    ensures Closed(messages[n..])
    decreases n
  {
    if n > 0 {
      assert messages[1..][n - 1..] == messages[n..];
      ClosedDrop(messages[1..], n - 1);
    } else {
      assert messages[0..] == messages;
    }
  }

  lemma {:induction false} ResultsAhead(results: seq<Message>, rest: seq<Message>)
    requires forall m :: m in results ==> m.ToolResult?
    ensures LeadingIds(results + rest) == LeadingIds(results) + LeadingIds(rest)
    ensures Closed(rest) ==> Closed(results + rest)
    decreases |results|
  {
    if results == [] {
      assert results + rest == rest;
    } else {
      assert (results + rest)[1..] == results[1..] + rest;
      ResultsAhead(results[1..], rest);
    }
  }

  lemma {:induction false} SyntheticsAnswer(pending: seq<Block>, existing: set<string>)
    ensures IdsOf(pending) <= existing + LeadingIds(Synthetics(pending, existing))
    decreases |pending|
  {
    if pending != [] {
      var first := if pending[0].ToolCall? && pending[0].id !in existing then [Synthetic(pending[0])] else [];
      SyntheticsAnswer(pending[1..], existing);
      ResultsAhead(first, Synthetics(pending[1..], existing));
      forall id | id in IdsOf(pending) ensures id in existing + LeadingIds(Synthetics(pending, existing)) {
        var c :| c in pending && c.ToolCall? && c.id == id;
        assert c == pending[0] || c in pending[1..];
        if c == pending[0] && id !in existing {
          assert LeadingIds(first) == {id};
        } else {
          assert c in pending[1..] ==> id in IdsOf(pending[1..]);
        }
      }
    }
  }

  /** The second pass answers the pending calls first, and leaves a closed history behind. */
  lemma {:induction false} SecondPassCloses(messages: seq<Message>, pending: seq<Block>, existing: set<string>)
    ensures IdsOf(pending) <= existing + LeadingIds(SecondPass(messages, pending, existing))
    ensures Closed(SecondPass(messages, pending, existing))
    decreases |messages|
  {
    var synthetics := Synthetics(pending, existing);
    SyntheticsAnswer(pending, existing);
    if messages == [] {
      ResultsAhead(synthetics, []);
      assert synthetics + [] == synthetics;
    } else {
      var msg, rest := messages[0], messages[1..];
      match msg
      case ToolResult(id, _, _, _, _) =>
        SecondPassCloses(rest, pending, existing + {id});
        ResultsAhead([msg], SecondPass(rest, pending, existing + {id}));
        assert LeadingIds([msg]) == {id};
      case User(_) =>
        SecondPassCloses(rest, [], {});
        ClosedAhead(msg, SecondPass(rest, [], {}));
        ResultsAhead(synthetics, [msg] + SecondPass(rest, [], {}));
        assert synthetics + [msg] + SecondPass(rest, [], {}) == synthetics + ([msg] + SecondPass(rest, [], {}));
      case Assistant(_, _, _, _, _) =>
        if Replayed(msg) {
          SecondPassCloses(rest, CallsOf(msg), {});
          ClosedAhead(msg, SecondPass(rest, CallsOf(msg), {}));
          ResultsAhead(synthetics, [msg] + SecondPass(rest, CallsOf(msg), {}));
        } else {
          SecondPassCloses(rest, [], {});
          ResultsAhead(synthetics, SecondPass(rest, [], {}));
        }
    }
  }

  lemma ClosedAhead(msg: Message, rest: seq<Message>)
    requires Closed(rest) && CallIds(msg) <= LeadingIds(rest)
    ensures Closed([msg] + rest)
  {
    assert ([msg] + rest)[1..] == rest;
  }

  // ---------- Nothing but stand-ins is added, nothing but failed turns is dropped ----------

  /** Marks the stand-ins in the result of the second pass. */
  function StandIns(messages: seq<Message>, pending: seq<Block>, existing: set<string>): seq<bool>
    decreases |messages|
  {
    if messages == [] then seq(|Synthetics(pending, existing)|, _ => true)
    else
      var marks := seq(|Synthetics(pending, existing)|, _ => true);
      match messages[0]
      case ToolResult(id, _, _, _, _) => [false] + StandIns(messages[1..], pending, existing + {id})
      case User(_) => marks + [false] + StandIns(messages[1..], [], {})
      case Assistant(_, _, _, _, _) =>
        marks + if !Replayed(messages[0]) then StandIns(messages[1..], [], {})
                else [false] + StandIns(messages[1..], CallsOf(messages[0]), {})
  }

  function Unmarked(messages: seq<Message>, marks: seq<bool>): seq<Message>
    requires |messages| == |marks|
  {
    if messages == [] then []
    else (if marks[0] then [] else [messages[0]]) + Unmarked(messages[1..], marks[1..])
  }

  /** Failed and aborted responses are not replayed. */
  predicate FailedTurn(msg: Message) { msg.Assistant? && (msg.stopReason == Error || msg.stopReason == Aborted) }

  function Kept(messages: seq<Message>): seq<Message> {
    if messages == [] then []
    else (if FailedTurn(messages[0]) then [] else [messages[0]]) + Kept(messages[1..])
  }

  lemma {:induction false} UnmarkedConcat(a: seq<Message>, ma: seq<bool>, b: seq<Message>, mb: seq<bool>)
    requires |a| == |ma| && |b| == |mb|
    ensures Unmarked(a + b, ma + mb) == Unmarked(a, ma) + Unmarked(b, mb)
    decreases |a|
  {
    if a == [] {
      assert a + b == b && ma + mb == mb;
    } else {
      assert (a + b)[1..] == a[1..] + b && (ma + mb)[1..] == ma[1..] + mb;
      UnmarkedConcat(a[1..], ma[1..], b, mb);
    }
  }

  lemma {:induction false} AllMarked(a: seq<Message>)
    ensures Unmarked(a, seq(|a|, _ => true)) == []
    decreases |a|
  {
    if a != [] {
      assert seq(|a|, _ => true)[1..] == seq(|a[1..]|, _ => true);
      AllMarked(a[1..]);
    }
  }

  lemma StandInsDrop(synthetics: seq<Message>, out: seq<Message>, marks: seq<bool>)
    requires |out| == |marks|
    ensures Unmarked(synthetics + out, seq(|synthetics|, _ => true) + marks) == Unmarked(out, marks)
  {
    AllMarked(synthetics);
    UnmarkedConcat(synthetics, seq(|synthetics|, _ => true), out, marks);
    assert [] + Unmarked(out, marks) == Unmarked(out, marks);
  }

  lemma OneKept(m: Message, out: seq<Message>, marks: seq<bool>)
    requires |out| == |marks|
    ensures Unmarked([m] + out, [false] + marks) == [m] + Unmarked(out, marks)
  {
    assert ([m] + out)[1..] == out && ([false] + marks)[1..] == marks;
  }

  lemma Regrouped<T>(a: seq<T>, b: seq<T>, c: seq<T>)
    ensures a + b + c == a + (b + c) && a + [] == a && [] + a == a
  {
  }

  /** Without the stand-ins, the result is the transformed history without its errored and aborted
      turns, in order. */
  lemma {:induction false} SecondPassKeeps(messages: seq<Message>, pending: seq<Block>, existing: set<string>)
    ensures |StandIns(messages, pending, existing)| == |SecondPass(messages, pending, existing)|
    ensures Unmarked(SecondPass(messages, pending, existing), StandIns(messages, pending, existing)) == Kept(messages)
    decreases |messages|
  {
    hide Unmarked, Synthetics, CallsOf, FailedTurn, Replayed;
    var synthetics := Synthetics(pending, existing);
    var marks := seq(|synthetics|, _ => true);
    if messages == [] {
      StandInsDrop(synthetics, [], []);
      Regrouped(synthetics, [], []);
      Regrouped(marks, [], []);
      NothingUnmarked();
    } else {
      var msg, rest := messages[0], messages[1..];
      FailedIsNotReplayed(msg);
      match msg
      case ToolResult(id, _, _, _, _) =>
        SecondPassKeeps(rest, pending, existing + {id});
        OneKept(msg, SecondPass(rest, pending, existing + {id}), StandIns(rest, pending, existing + {id}));
      case User(_) =>
        var out, outMarks := SecondPass(rest, [], {}), StandIns(rest, [], {});
        SecondPassKeeps(rest, [], {});
        OneKept(msg, out, outMarks);
        StandInsDrop(synthetics, [msg] + out, [false] + outMarks);
        Regrouped(synthetics, [msg], out);
        Regrouped(marks, [false], outMarks);
      case Assistant(_, _, _, _, _) =>
        if Replayed(msg) {
          var out, outMarks := SecondPass(rest, CallsOf(msg), {}), StandIns(rest, CallsOf(msg), {});
          SecondPassKeeps(rest, CallsOf(msg), {});
          OneKept(msg, out, outMarks);
          StandInsDrop(synthetics, [msg] + out, [false] + outMarks);
        } else {
          SecondPassKeeps(rest, [], {});
          StandInsDrop(synthetics, SecondPass(rest, [], {}), StandIns(rest, [], {}));
          Regrouped(Kept(rest), [], []);
        }
    }
  }

  lemma NothingUnmarked()
    ensures Unmarked([], []) == []
  {
  }

  lemma FailedIsNotReplayed(m: Message)
    ensures FailedTurn(m) <==> !Replayed(m)
    ensures !m.Assistant? ==> Replayed(m)
  {
  }

  // What the second pass can emit.
  predicate StandsIn(m: Message, call: Block) {
    call.ToolCall? && m == ToolResult(call.id, call.name, Some([Text("No result provided", None)]), [], true)
  }

  predicate Emitted(m: Message, messages: seq<Message>, pending: seq<Block>) {
    || (m in messages && Replayed(m))
    || (exists c :: c in pending && StandsIn(m, c))
    || (exists a, c :: a in messages && c in CallsOf(a) && StandsIn(m, c))
  }

  lemma {:induction false} SyntheticsAreStandIns(pending: seq<Block>, existing: set<string>, m: Message)
    requires m in Synthetics(pending, existing)
    ensures exists c :: c in pending && StandsIn(m, c)
    decreases |pending|
  {
    if StandsIn(m, pending[0]) {
    } else {
      SyntheticsAreStandIns(pending[1..], existing, m);
    }
  }

  lemma {:induction false} SecondPassEmits(messages: seq<Message>, pending: seq<Block>, existing: set<string>,
                                           m: Message)
    requires m in SecondPass(messages, pending, existing)
    ensures Emitted(m, messages, pending)
    decreases |messages|
  {
    if m in Synthetics(pending, existing) && (messages == [] || !messages[0].ToolResult?) {
      SyntheticsAreStandIns(pending, existing, m);
    } else if messages != [] && !(m == messages[0] && Replayed(m)) {
      var msg, rest := messages[0], messages[1..];
      var (pending', existing') :=
        match msg
        case ToolResult(id, _, _, _, _) => (pending, existing + {id})
        case User(_) => ([], {})
        case Assistant(_, _, _, _, _) => ((if Replayed(msg) then CallsOf(msg) else []), {});
      SecondPassEmits(rest, pending', existing', m);
    }
  }

  // ---------- Transforming twice changes nothing more ----------

  ghost predicate Idempotent(norm: Normalizer) {
    forall id, a, b :: norm(norm(id, a), b) == norm(id, a)
  }

  /** A message that a further transformation leaves as it is, renaming no call. */
  ghost predicate Settled(m: Message, model: Model, norm: Normalizer) {
    && Prepared(m, model) == m
    && (m.Assistant? ==>
          && TransformBlocks(m.blocks.value, m, model, norm) == m.blocks.value
          && forall c :: c in m.blocks.value && c.ToolCall? ==> CallId(c.id, m, model, norm) == c.id)
  }

  predicate NoImages(blocks: seq<Block>) { forall b :: b in blocks ==> !b.Image? }

  lemma {:induction false} PlaceholdersHaveNoImages(blocks: seq<Block>, placeholder: string, flag: bool)
    ensures NoImages(PlaceholderTail(blocks, placeholder, flag))
    decreases |blocks|
  {
    if blocks != [] {
      PlaceholdersHaveNoImages(blocks[1..], placeholder, true);
      PlaceholdersHaveNoImages(blocks[1..], placeholder, blocks[0].Text? && blocks[0].text == placeholder);
    }
  }

  lemma {:induction false} PlaceholdersKeepOthers(blocks: seq<Block>, placeholder: string, flag: bool)
    requires NoImages(blocks)
    ensures PlaceholderTail(blocks, placeholder, flag) == blocks
    decreases |blocks|
  {
    if blocks != [] {
      assert blocks[0] in blocks && !blocks[0].Image?;
      PlaceholdersKeepOthers(blocks[1..], placeholder, blocks[0].Text? && blocks[0].text == placeholder);
    }
  }

  lemma PreparedTwice(m: Message, model: Model)
    ensures Prepared(Prepared(m, model), model) == Prepared(m, model)
  {
    var w := WithContent(m);
    match w
    case User(content) =>
      if content.Blocks? {
        PlaceholdersHaveNoImages(content.blocks, USER_IMAGE_PLACEHOLDER, false);
        PlaceholdersKeepOthers(PlaceholderTail(content.blocks, USER_IMAGE_PLACEHOLDER, false), USER_IMAGE_PLACEHOLDER,
                               false);
      }
    case ToolResult(_, _, output, _, _) =>
      PlaceholdersHaveNoImages(output.value, TOOL_IMAGE_PLACEHOLDER, false);
      PlaceholdersKeepOthers(PlaceholderTail(output.value, TOOL_IMAGE_PLACEHOLDER, false), TOOL_IMAGE_PLACEHOLDER,
                             false);
    case Assistant(_, _, _, _, _) =>
  }

  ghost predicate SameSource(a: Message, b: Message) {
    a.Assistant? && b.Assistant? && a.provider == b.provider && a.api == b.api && a.model == b.model
  }

  // A transformed block is its own transformation.
  lemma BlockSettles(block: Block, msg: Message, msg': Message, model: Model, norm: Normalizer, out: Block)
    requires Idempotent(norm) && SameSource(msg, msg') && out in TransformBlock(block, msg, model, norm)
    ensures TransformBlock(out, msg', model, norm) == [out]
    ensures out.ToolCall? ==> CallId(out.id, msg', model, norm) == out.id
  {
    if block.ToolCall? {
      assert norm(norm(block.id, msg), msg') == norm(block.id, msg);
    }
  }

  lemma {:induction false} BlocksTransformed(blocks: seq<Block>, msg: Message, model: Model, norm: Normalizer,
                                             out: Block)
    requires msg.Assistant? && out in TransformBlocks(blocks, msg, model, norm)
    ensures exists b :: b in blocks && out in TransformBlock(b, msg, model, norm)
    decreases |blocks|
  {
    if out !in TransformBlock(blocks[0], msg, model, norm) {
      BlocksTransformed(blocks[1..], msg, model, norm, out);
    }
  }

  lemma {:induction false} FixedBlocksStay(blocks: seq<Block>, msg: Message, model: Model, norm: Normalizer)
    requires msg.Assistant? && forall b :: b in blocks ==> TransformBlock(b, msg, model, norm) == [b]
    ensures TransformBlocks(blocks, msg, model, norm) == blocks
    decreases |blocks|
  {
    if blocks != [] {
      FixedBlocksStay(blocks[1..], msg, model, norm);
      assert TransformBlock(blocks[0], msg, model, norm) == [blocks[0]];
    }
  }

  lemma TransformedSettles(msg: Message, ids: IdMap, model: Model, norm: Normalizer)
    requires Idempotent(norm)
    ensures Settled(TransformMessage(Prepared(msg, model), ids, model, norm), model, norm)
  {
    var p := Prepared(msg, model);
    var m := TransformMessage(p, ids, model, norm);
    PreparedTwice(msg, model);
    if m.Assistant? {
      forall b | b in m.blocks.value
        ensures TransformBlock(b, m, model, norm) == [b] && (b.ToolCall? ==> CallId(b.id, m, model, norm) == b.id)
      {
        BlocksTransformed(p.blocks.value, p, model, norm, b);
        var source :| source in p.blocks.value && b in TransformBlock(source, p, model, norm);
        BlockSettles(source, p, m, model, norm, b);
      }
      FixedBlocksStay(m.blocks.value, m, model, norm);
    }
  }

  lemma {:induction false} FirstPassSettles(messages: seq<Message>, ids: IdMap, model: Model, norm: Normalizer)
    requires Idempotent(norm)
    ensures forall m :: m in FirstPass(messages, ids, model, norm) ==> Settled(m, model, norm)
    decreases |messages|
  {
    if messages != [] {
      var msg := Prepared(messages[0], model);
      TransformedSettles(messages[0], ids, model, norm);
      FirstPassSettles(messages[1..], RecordMessage(ids, msg, model, norm), model, norm);
    }
  }

  lemma SyntheticSettles(c: Block, model: Model, norm: Normalizer)
    requires c.ToolCall?
    ensures Settled(Synthetic(c), model, norm)
  {
    PlaceholdersKeepOthers([Text(NO_RESULT, None)], TOOL_IMAGE_PLACEHOLDER, false);
  }

  lemma {:induction false} NothingRecorded(ids: IdMap, blocks: seq<Block>, msg: Message, model: Model, norm: Normalizer)
    requires msg.Assistant? && forall c :: c in blocks && c.ToolCall? ==> CallId(c.id, msg, model, norm) == c.id
    ensures Record(ids, blocks, msg, model, norm) == ids
    decreases |blocks|
  {
    if blocks != [] {
      NothingRecorded(ids, blocks[1..], msg, model, norm);
    }
  }

  lemma {:induction false} SettledFirstPass(messages: seq<Message>, model: Model, norm: Normalizer)
    requires forall m :: m in messages ==> Settled(m, model, norm)
    ensures FirstPass(messages, map[], model, norm) == messages
    decreases |messages|
  {
    if messages != [] {
      var m := messages[0];
      assert Settled(m, model, norm);
      if m.Assistant? {
        NothingRecorded(map[], m.blocks.value, m, model, norm);
      }
      SettledFirstPass(messages[1..], model, norm);
    }
  }

  lemma {:induction false} NothingMissing(pending: seq<Block>, existing: set<string>)
    requires IdsOf(pending) <= existing
    ensures Synthetics(pending, existing) == []
    decreases |pending|
  {
    if pending != [] {
      assert pending[0].ToolCall? ==> pending[0].id in IdsOf(pending);
      NothingMissing(pending[1..], existing);
    }
  }

  lemma {:induction false} ClosedSecondPass(messages: seq<Message>, pending: seq<Block>, existing: set<string>)
    requires Closed(messages) && (forall m :: m in messages ==> Replayed(m))
    requires IdsOf(pending) <= existing + LeadingIds(messages)
    ensures SecondPass(messages, pending, existing) == messages
    decreases |messages|
  {
    if messages == [] || !messages[0].ToolResult? {
      NothingMissing(pending, existing);
    }
    if messages != [] {
      var msg, rest := messages[0], messages[1..];
      match msg
      case ToolResult(id, _, _, _, _) => ClosedSecondPass(rest, pending, existing + {id});
      case User(_) => ClosedSecondPass(rest, [], {});
      case Assistant(_, _, _, _, _) =>
        assert Replayed(msg);
        ClosedSecondPass(rest, CallsOf(msg), {});
    }
  }

  /** With an idempotent normalizer the whole transformation is idempotent. */
  lemma TransformTwice(messages: seq<Message>, model: Model, norm: Normalizer)
    requires Idempotent(norm)
    ensures Transform(Transform(messages, model, norm), model, norm) == Transform(messages, model, norm)
  {
    var first := FirstPass(messages, map[], model, norm);
    var out := SecondPass(first, [], {});
    FirstPassSettles(messages, map[], model, norm);
    SecondPassCloses(first, [], {});
    forall m | m in out ensures Settled(m, model, norm) && Replayed(m) {
      SecondPassEmits(first, [], {}, m);
      if !(m in first && Replayed(m)) {
        var a, c :| a in first && c in CallsOf(a) && StandsIn(m, c);
        SyntheticSettles(c, model, norm);
      }
    }
    SettledFirstPass(out, model, norm);
    ClosedSecondPass(out, [], {});
  }

  // ---------- Results keep naming their calls ----------

  predicate Makes(msg: Message, id: string) {
    msg.Assistant? && msg.blocks.Some? && exists b :: b in msg.blocks.value && b.ToolCall? && b.id == id
  }

  /** The renamings recorded by the messages before a position. */
  function IdsAt(messages: seq<Message>, p: nat, ids: IdMap, model: Model, norm: Normalizer): IdMap
    requires p <= |messages|
    decreases p
  {
    if p == 0 then ids
    else IdsAt(messages[1..], p - 1, RecordMessage(ids, Prepared(messages[0], model), model, norm), model, norm)
  }

  lemma {:induction false} FirstPassAt(messages: seq<Message>, p: nat, ids: IdMap, model: Model, norm: Normalizer)
    requires p < |messages|
    ensures |FirstPass(messages, ids, model, norm)| == |messages|
    ensures FirstPass(messages, ids, model, norm)[p]
            == TransformMessage(Prepared(messages[p], model), IdsAt(messages, p, ids, model, norm), model, norm)
    decreases p
  {
    FirstPassLength(messages, ids, model, norm);
    if p > 0 {
      FirstPassAt(messages[1..], p - 1, RecordMessage(ids, Prepared(messages[0], model), model, norm), model, norm);
    }
  }

  lemma {:induction false} FirstPassLength(messages: seq<Message>, ids: IdMap, model: Model, norm: Normalizer)
    ensures |FirstPass(messages, ids, model, norm)| == |messages|
    decreases |messages|
  {
    if messages != [] {
      FirstPassLength(messages[1..], RecordMessage(ids, Prepared(messages[0], model), model, norm), model, norm);
    }
  }

  // Recording a message's calls renames its own ids and leaves all others.
  lemma {:induction false} RecordLooksUp(ids: IdMap, blocks: seq<Block>, msg: Message, model: Model, norm: Normalizer,
                                         x: string)
    requires msg.Assistant?
    ensures var r := Record(ids, blocks, msg, model, norm);
            var y := CallId(x, msg, model, norm);
            if (exists b :: b in blocks && b.ToolCall? && b.id == x) && y != x then x in r && r[x] == y
            else (x in r <==> x in ids) && (x in r ==> r[x] == ids[x])
    decreases |blocks|
  {
    if blocks != [] {
      var next :=
        if blocks[0].ToolCall? && CallId(blocks[0].id, msg, model, norm) != blocks[0].id
        then ids[blocks[0].id := CallId(blocks[0].id, msg, model, norm)] else ids;
      RecordLooksUp(next, blocks[1..], msg, model, norm, x);
      assert forall b :: b in blocks <==> b == blocks[0] || b in blocks[1..];
    }
  }

  lemma RecordMessageLooksUp(ids: IdMap, msg: Message, model: Model, norm: Normalizer, x: string)
    ensures var r := RecordMessage(ids, Prepared(msg, model), model, norm);
            if Makes(msg, x) && CallId(x, Prepared(msg, model), model, norm) != x
            then x in r && r[x] == CallId(x, Prepared(msg, model), model, norm)
            else (x in r <==> x in ids) && (x in r ==> r[x] == ids[x])
  {
    if msg.Assistant? {
      RecordLooksUp(ids, Prepared(msg, model).blocks.value, Prepared(msg, model), model, norm, x);
    }
  }

  lemma {:induction false} UncalledStaysUnknown(messages: seq<Message>, p: nat, ids: IdMap, model: Model,
                                                norm: Normalizer, x: string)
    requires p <= |messages| && forall j :: 0 <= j < p ==> !Makes(messages[j], x)
    ensures var r := IdsAt(messages, p, ids, model, norm);
            (x in r <==> x in ids) && (x in r ==> r[x] == ids[x])
    decreases p
  {
    if p > 0 {
      assert !Makes(messages[0], x);
      RecordMessageLooksUp(ids, messages[0], model, norm, x);
      UncalledStaysUnknown(messages[1..], p - 1, RecordMessage(ids, Prepared(messages[0], model), model, norm), model,
                           norm, x);
    }
  }

  lemma {:induction false} CalledIsKnown(messages: seq<Message>, i: nat, p: nat, ids: IdMap, model: Model,
                                         norm: Normalizer, x: string)
    requires i < p <= |messages| && Makes(messages[i], x) && x !in ids
    requires forall j :: 0 <= j < p && j != i ==> !Makes(messages[j], x)
    ensures var r := IdsAt(messages, p, ids, model, norm);
            var y := CallId(x, Prepared(messages[i], model), model, norm);
            if y != x then x in r && r[x] == y else x !in r
    decreases p
  {
    var next := RecordMessage(ids, Prepared(messages[0], model), model, norm);
    RecordMessageLooksUp(ids, messages[0], model, norm, x);
    if i == 0 {
      UncalledStaysUnknown(messages[1..], p - 1, next, model, norm, x);
    } else {
      assert !Makes(messages[0], x);
      CalledIsKnown(messages[1..], i - 1, p - 1, next, model, norm, x);
    }
  }

  lemma {:induction false} CallGoesOut(blocks: seq<Block>, msg: Message, model: Model, norm: Normalizer, x: string)
    requires msg.Assistant? && exists b :: b in blocks && b.ToolCall? && b.id == x
    ensures exists b ::
              b in TransformBlocks(blocks, msg, model, norm) && b.ToolCall? && b.id == CallId(x, msg, model, norm)
    decreases |blocks|
  {
    var b :| b in blocks && b.ToolCall? && b.id == x;
    if b == blocks[0] {
      assert TransformBlock(b, msg, model, norm)[0] in TransformBlocks(blocks, msg, model, norm);
    } else {
      assert b in blocks[1..];
      CallGoesOut(blocks[1..], msg, model, norm, x);
    }
  }

  /** When no other message before a result calls with its id, the result has the id of its call after the
      renaming, except when the normalizer maps the id to the empty string: then the call goes out under the
      empty id while its result keeps the old one. Another call may go out under the same id. */
  lemma ResultNamesItsCall(messages: seq<Message>, i: nat, p: nat, model: Model, norm: Normalizer)
    requires i < p < |messages| && messages[p].ToolResult? && Makes(messages[i], messages[p].toolCallId)
    requires forall j :: 0 <= j < p && j != i ==> !Makes(messages[j], messages[p].toolCallId)
    ensures var x := messages[p].toolCallId;
            var y := CallId(x, Prepared(messages[i], model), model, norm);
            var out := FirstPass(messages, map[], model, norm);
            && |out| == |messages| && out[p].ToolResult?
            && Makes(out[i], y)
            && (out[p].toolCallId == y <==> (y != "" || x == ""))
  {
    FirstPassAt(messages, p, map[], model, norm);
    FirstPassAt(messages, i, map[], model, norm);
    var source := Prepared(messages[i], model);
    CallGoesOut(source.blocks.value, source, model, norm, messages[p].toolCallId);
    CalledIsKnown(messages, i, p, map[], model, norm, messages[p].toolCallId);
  }
}
