/** The message history and its two-pass transformation for a provider: `transformMessages`. */
module Messages {
  import opened Options

  datatype Block =
    | Text(text: string, textSignature: Option<string>)
    | Thinking(thinking: string, thinkingSignature: Option<string>, redacted: bool)
    | ToolCall(id: string, name: string, arguments: string, thoughtSignature: Option<string>)
    | Image(data: string, mimeType: string)

  /** Content may be absent in histories built by hand or read from old files. */
  datatype Content = Absent | Plain(text: string) | Blocks(blocks: seq<Block>)

  datatype StopReason = Stop | Length | ToolUse | Error | Aborted

  datatype Message =
    | User(content: Content)
    | Assistant(blocks: Option<seq<Block>>, provider: string, api: string, model: string, stopReason: StopReason)
    | ToolResult(toolCallId: string, toolName: string, output: Option<seq<Block>>, addedToolNames: seq<string>,
                 isError: bool)

  datatype Model = Model(provider: string, api: string, id: string, readsImages: bool, reasoning: bool)

  /** Maps a tool call id of a message written by another model to an id the provider accepts. */
  type Normalizer = (string, Message) -> string

  const USER_IMAGE_PLACEHOLDER := "(image omitted: model does not support images)"
  const TOOL_IMAGE_PLACEHOLDER := "(tool image omitted: model does not support images)"
  const NO_RESULT := "No result provided"

  /** White space and line terminators of ECMAScript. */
  predicate IsSpace(c: char) {
    || c == ' ' || '\t' <= c <= '\r' || c == '\U{A0}' || c == '\U{1680}' || '\U{2000}' <= c <= '\U{200A}'
    || c == '\U{2028}' || c == '\U{2029}' || c == '\U{202F}' || c == '\U{205F}' || c == '\U{3000}' || c == '\U{FEFF}'
  }

  /** Whether anything is left of the text once it is trimmed. */
  predicate HasInk(text: string) { exists c :: c in text && !IsSpace(c) }

  predicate Given(s: Option<string>) { s.Some? && s.value != "" }

  // ---------- Before the passes ----------

  function PlaceholderTail(blocks: seq<Block>, placeholder: string, previousWasPlaceholder: bool): seq<Block> {
    if blocks == [] then []
    else if blocks[0].Image? then
      (if previousWasPlaceholder then [] else [Text(placeholder, None)])
      + PlaceholderTail(blocks[1..], placeholder, true)
    else
      [blocks[0]] + PlaceholderTail(blocks[1..], placeholder, blocks[0].Text? && blocks[0].text == placeholder)
  }

  lemma PlaceholderStep(content: seq<Block>, i: nat, placeholder: string, flag: bool, before: seq<Block>)
    requires i < |content|
    ensures before + PlaceholderTail(content[i..], placeholder, flag)
            == if content[i].Image?
               then (if flag then before else before + [Text(placeholder, None)])
                     + PlaceholderTail(content[i + 1..], placeholder, true)
               else (before + [content[i]])
                    + PlaceholderTail(content[i + 1..], placeholder, content[i].Text? && content[i].text == placeholder)
  {
    assert content[i..][1..] == content[i + 1..];
  }

  /** Each run of images becomes one placeholder; everything else stays. */
  method ReplaceImagesWithPlaceholder(content: seq<Block>, placeholder: string) returns (result: seq<Block>)
    ensures result == PlaceholderTail(content, placeholder, false)
  {
    result := [];
    var previousWasPlaceholder := false;
    for i := 0 to |content|
      invariant PlaceholderTail(content, placeholder, false)
                == result + PlaceholderTail(content[i..], placeholder, previousWasPlaceholder)
    {
      var block := content[i];
      ghost var before, flag := result, previousWasPlaceholder;
      if block.Image? {
        if !previousWasPlaceholder {
          result := result + [Text(placeholder, None)];
        }
        previousWasPlaceholder := true;
      } else {
        result := result + [block];
        previousWasPlaceholder := block.Text? && block.text == placeholder;
      }
      PlaceholderStep(content, i, placeholder, flag, before);
    }
    assert content[|content|..] == [];
  }

  function WithContent(msg: Message): Message {
    match msg
    case User(content) => if content.Absent? then User(Blocks([])) else msg
    case Assistant(blocks, _, _, _, _) => if blocks.None? then msg.(blocks := Some([])) else msg
    case ToolResult(_, _, output, _, _) => if output.None? then msg.(output := Some([])) else msg
  }

  function Downgrade(msg: Message, model: Model): Message {
    if model.readsImages then msg
    else
      match msg
      case User(content) =>
        if content.Blocks? then User(Blocks(PlaceholderTail(content.blocks, USER_IMAGE_PLACEHOLDER, false))) else msg
      case ToolResult(_, _, output, _, _) =>
        if output.Some? then msg.(output := Some(PlaceholderTail(output.value, TOOL_IMAGE_PLACEHOLDER, false))) else msg
      case Assistant(_, _, _, _, _) => msg
  }

  // ---------- First pass: blocks and ids ----------

  predicate SameModel(msg: Message, model: Model)
    requires msg.Assistant?
  {
    msg.provider == model.provider && msg.api == model.api && msg.model == model.id
  }

  /** The id a tool call goes out under. */
  function CallId(id: string, msg: Message, model: Model, norm: Normalizer): string
    requires msg.Assistant?
  {
    if SameModel(msg, model) then id else norm(id, msg)
  }

  function TransformBlock(block: Block, msg: Message, model: Model, norm: Normalizer): seq<Block>
    requires msg.Assistant?
  {
    var same := SameModel(msg, model);
    match block
    case Thinking(thinking, signature, redacted) =>
      if redacted then (if same then [block] else [])
      else if same && Given(signature) then [block]
      else if !HasInk(thinking) then []
      else if same then [block]
      else [Text(thinking, None)]
    case Text(text, _) => if same then [block] else [Text(text, None)]
    case ToolCall(id, name, arguments, signature) =>
      [ToolCall(CallId(id, msg, model, norm), name, arguments, if !same && Given(signature) then None else signature)]
    case Image(_, _) => [block]
  }

  function TransformBlocks(blocks: seq<Block>, msg: Message, model: Model, norm: Normalizer): seq<Block>
    requires msg.Assistant?
  {
    if blocks == [] then []
    else TransformBlock(blocks[0], msg, model, norm) + TransformBlocks(blocks[1..], msg, model, norm)
  }

  type IdMap = map<string, string>

  /** The renamings recorded while a message's blocks are transformed. */
  function Record(ids: IdMap, blocks: seq<Block>, msg: Message, model: Model, norm: Normalizer): IdMap
    requires msg.Assistant?
    decreases |blocks|
  {
    if blocks == [] then ids
    else if blocks[0].ToolCall? && CallId(blocks[0].id, msg, model, norm) != blocks[0].id then
      Record(ids[blocks[0].id := CallId(blocks[0].id, msg, model, norm)], blocks[1..], msg, model, norm)
    else Record(ids, blocks[1..], msg, model, norm)
  }

  function Renamed(id: string, ids: IdMap): string {
    if id in ids && ids[id] != "" then ids[id] else id
  }

  predicate HasContent(msg: Message) {
    match msg
    case User(content) => !content.Absent?
    case Assistant(blocks, _, _, _, _) => blocks.Some?
    case ToolResult(_, _, output, _, _) => output.Some?
  }

  function RecordMessage(ids: IdMap, msg: Message, model: Model, norm: Normalizer): IdMap
    requires HasContent(msg)
  {
    if msg.Assistant? then Record(ids, msg.blocks.value, msg, model, norm) else ids
  }

  function TransformMessage(msg: Message, ids: IdMap, model: Model, norm: Normalizer): Message
    requires HasContent(msg)
  {
    match msg
    case User(_) => msg
    case ToolResult(id, _, _, _, _) => msg.(toolCallId := Renamed(id, ids))
    case Assistant(blocks, _, _, _, _) => msg.(blocks := Some(TransformBlocks(blocks.value, msg, model, norm)))
  }

  function Prepared(msg: Message, model: Model): (r: Message)
    ensures HasContent(r) && (r.Assistant? <==> msg.Assistant?) && (r.ToolResult? <==> msg.ToolResult?)
  {
    Downgrade(WithContent(msg), model)
  }

  function FirstPass(messages: seq<Message>, ids: IdMap, model: Model, norm: Normalizer): seq<Message>
    decreases |messages|
  {
    if messages == [] then []
    else
      var msg := Prepared(messages[0], model);
      [TransformMessage(msg, ids, model, norm)]
      + FirstPass(messages[1..], RecordMessage(ids, msg, model, norm), model, norm)
  }

  // ---------- Second pass: results for every call ----------

  function Calls(blocks: seq<Block>): seq<Block> {
    if blocks == [] then []
    else (if blocks[0].ToolCall? then [blocks[0]] else []) + Calls(blocks[1..])
  }

  function CallsOf(msg: Message): seq<Block> {
    if msg.Assistant? && msg.blocks.Some? then Calls(msg.blocks.value) else []
  }

  predicate Replayed(msg: Message) { msg.Assistant? ==> !msg.stopReason.Error? && !msg.stopReason.Aborted? }

  function Synthetic(call: Block): Message
    requires call.ToolCall?
  {
    ToolResult(call.id, call.name, Some([Text(NO_RESULT, None)]), [], true)
  }

  /** A stand-in result for every pending call that has none. */
  function Synthetics(pending: seq<Block>, existing: set<string>): (r: seq<Message>)
    ensures forall m :: m in r ==> m.ToolResult?
  {
    if pending == [] then []
    else (if pending[0].ToolCall? && pending[0].id !in existing then [Synthetic(pending[0])] else [])
         + Synthetics(pending[1..], existing)
  }

  function SecondPass(messages: seq<Message>, pending: seq<Block>, existing: set<string>): seq<Message>
    decreases |messages|
  {
    if messages == [] then Synthetics(pending, existing)
    else
      var msg, rest := messages[0], messages[1..];
      match msg
      case ToolResult(id, _, _, _, _) => [msg] + SecondPass(rest, pending, existing + {id})
      case User(_) => Synthetics(pending, existing) + [msg] + SecondPass(rest, [], {})
      case Assistant(_, _, _, _, _) =>
        Synthetics(pending, existing)
        + if !Replayed(msg) then SecondPass(rest, [], {}) else [msg] + SecondPass(rest, CallsOf(msg), {})
  }

  function Transform(messages: seq<Message>, model: Model, norm: Normalizer): seq<Message> {
    SecondPass(FirstPass(messages, map[], model, norm), [], {})
  }

  // ---------- The loops ----------

  lemma TransformBlocksStep(blocks: seq<Block>, i: nat, msg: Message, model: Model, norm: Normalizer, done: seq<Block>)
    requires msg.Assistant? && i < |blocks|
    ensures done + TransformBlocks(blocks[i..], msg, model, norm)
            == (done + TransformBlock(blocks[i], msg, model, norm)) + TransformBlocks(blocks[i + 1..], msg, model, norm)
  {
    assert blocks[i..][1..] == blocks[i + 1..];
  }

  /** Transforms the blocks of one assistant message and records the ids it renames. */
  method TransformAssistant(msg: Message, ids: IdMap, model: Model, norm: Normalizer)
    returns (out: Message, ids': IdMap)
    requires msg.Assistant? && HasContent(msg)
    ensures out == TransformMessage(msg, ids, model, norm)
    ensures ids' == RecordMessage(ids, msg, model, norm)
  {
    var isSameModel := SameModel(msg, model);
    var blocks := msg.blocks.value;
    var content := [];
    ids' := ids;
    for i := 0 to |blocks|
      invariant content + TransformBlocks(blocks[i..], msg, model, norm) == TransformBlocks(blocks, msg, model, norm)
      invariant Record(ids', blocks[i..], msg, model, norm) == Record(ids, blocks, msg, model, norm)
    {
      var block := blocks[i];
      TransformBlocksStep(blocks, i, msg, model, norm, content);
      assert blocks[i..][0] == block && blocks[i..][1..] == blocks[i + 1..];
      if block.ToolCall? {
        var toolCall := block;
        if !isSameModel && Given(block.thoughtSignature) {
          toolCall := toolCall.(thoughtSignature := None);
        }
        if !isSameModel {
          var normalizedId := norm(block.id, msg);
          if normalizedId != block.id {
            ids' := ids'[block.id := normalizedId];
            toolCall := toolCall.(id := normalizedId);
          }
        }
        content := content + [toolCall];
      } else {
        content := content + TransformBlock(block, msg, model, norm);
      }
    }
    assert blocks[|blocks|..] == [] && content + [] == content;
    out := msg.(blocks := Some(content));
  }

  /** The first pass: one walk over the history with the id map built on the way. */
  method TransformEach(messages: seq<Message>, model: Model, norm: Normalizer) returns (transformed: seq<Message>)
    ensures transformed == FirstPass(messages, map[], model, norm)
  {
    transformed := [];
    var ids: IdMap := map[];
    for i := 0 to |messages|
      invariant transformed + FirstPass(messages[i..], ids, model, norm) == FirstPass(messages, map[], model, norm)
    {
      var msg := Prepared(messages[i], model);
      FirstPassStep(messages, i, ids, model, norm, transformed);
      if msg.Assistant? {
        var out, ids' := TransformAssistant(msg, ids, model, norm);
        transformed := transformed + [out];
        ids := ids';
      } else if msg.ToolResult? && msg.toolCallId in ids && ids[msg.toolCallId] != "" {
        transformed := transformed + [msg.(toolCallId := ids[msg.toolCallId])];
      } else {
        transformed := transformed + [msg];
      }
    }
    assert messages[|messages|..] == [];
  }

  lemma FirstPassStep(messages: seq<Message>, i: nat, ids: IdMap, model: Model, norm: Normalizer, done: seq<Message>)
    requires i < |messages|
    ensures var msg := Prepared(messages[i], model);
            done + FirstPass(messages[i..], ids, model, norm)
            == (done + [TransformMessage(msg, ids, model, norm)])
               + FirstPass(messages[i + 1..], RecordMessage(ids, msg, model, norm), model, norm)
  {
    assert messages[i..][1..] == messages[i + 1..];
  }

  /** Stand-in results for the pending calls that have none. */
  method InsertSyntheticToolResults(result: seq<Message>, pending: seq<Block>, existing: set<string>)
    returns (result': seq<Message>)
    ensures result' == result + Synthetics(pending, existing)
  {
    result' := result;
    for i := 0 to |pending|
      invariant result' + Synthetics(pending[i..], existing) == result + Synthetics(pending, existing)
    {
      var tc := pending[i];
      assert pending[i..][0] == tc && pending[i..][1..] == pending[i + 1..];
      if tc.ToolCall? && tc.id !in existing {
        assert result' + ([Synthetic(tc)] + Synthetics(pending[i + 1..], existing))
               == result' + [Synthetic(tc)] + Synthetics(pending[i + 1..], existing);
        result' := result' + [Synthetic(tc)];
      } else {
        assert [] + Synthetics(pending[i + 1..], existing) == Synthetics(pending[i + 1..], existing);
      }
    }
    assert pending[|pending|..] == [];
  }

  // With nothing pending, results seen earlier no longer matter.
  lemma {:induction false} NothingPending(messages: seq<Message>, existing: set<string>)
    ensures SecondPass(messages, [], existing) == SecondPass(messages, [], {})
    decreases |messages|
  {
    if messages != [] && messages[0].ToolResult? {
      NothingPending(messages[1..], existing + {messages[0].toolCallId});
      NothingPending(messages[1..], {} + {messages[0].toolCallId});
    }
  }

  // One message of the second pass.
  lemma SecondPassStep(messages: seq<Message>, i: nat, pending: seq<Block>, existing: set<string>, done: seq<Message>)
    requires i < |messages|
    ensures var msg, rest := messages[i], messages[i + 1..];
            var flushed := done + Synthetics(pending, existing);
            done + SecondPass(messages[i..], pending, existing)
            == match msg
               case ToolResult(id, _, _, _, _) => (done + [msg]) + SecondPass(rest, pending, existing + {id})
               case User(_) => (flushed + [msg]) + SecondPass(rest, [], {})
               case Assistant(_, _, _, _, _) =>
                 if Replayed(msg) then (flushed + [msg]) + SecondPass(rest, CallsOf(msg), {})
                 else flushed + SecondPass(rest, [], {})
  {
    assert messages[i..][1..] == messages[i + 1..];
  }

  /** The whole transformation; the second pass keeps the calls still to be answered and the result
      ids seen since. */
  method TransformMessages(messages: seq<Message>, model: Model, norm: Normalizer) returns (result: seq<Message>)
    ensures result == Transform(messages, model, norm)
  {
    var transformed := TransformEach(messages, model, norm);
    result := [];
    var pendingToolCalls: seq<Block> := [];
    var existingToolResultIds: set<string> := {};
    for i := 0 to |transformed|
      invariant result + SecondPass(transformed[i..], pendingToolCalls, existingToolResultIds)
                == SecondPass(transformed, [], {})
    {
      var msg := transformed[i];
      SecondPassStep(transformed, i, pendingToolCalls, existingToolResultIds, result);
      if msg.ToolResult? {
        existingToolResultIds := existingToolResultIds + {msg.toolCallId};
        result := result + [msg];
        continue;
      }
      result := InsertSyntheticToolResults(result, pendingToolCalls, existingToolResultIds);
      if |pendingToolCalls| > 0 {
        pendingToolCalls, existingToolResultIds := [], {};
      }
      NothingPending(transformed[i + 1..], existingToolResultIds);
      if msg.Assistant? {
        if msg.stopReason.Error? || msg.stopReason.Aborted? {
          continue;
        }
        var toolCalls := CallsOf(msg);
        if |toolCalls| > 0 {
          pendingToolCalls, existingToolResultIds := toolCalls, {};
        }
      }
      result := result + [msg];
    }
    assert transformed[|transformed|..] == [];
    result := InsertSyntheticToolResults(result, pendingToolCalls, existingToolResultIds);
  }
}
