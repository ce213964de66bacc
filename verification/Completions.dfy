/** The request built from a transformed history: `convertMessages` and its id normalizer. */
module Completions {
  import opened Basics
  import opened Options
  import opened Messages
  import opened MessageProofs
  import opened CallNames
  import Text

  datatype Compat = Compat(
    requiresAssistantAfterToolResult: bool,
    requiresThinkingAsText: bool,
    requiresToolResultName: bool,
    requiresReasoningContent: bool,
    supportsDeveloperRole: bool,
    deferredKimi: bool)

  datatype Part = TextPart(text: string) | ImagePart(url: string)

  datatype ParamContent = Null | Str(text: string) | Parts(parts: seq<Part>)

  datatype CallParam = CallParam(id: string, name: string, arguments: string)

  datatype Param =
    | Instructions(role: string, text: string)
    | UserParam(content: ParamContent)
    | AssistantParam(content: ParamContent, toolCalls: seq<CallParam>, extra: map<string, string>)
    | ToolParam(toolCallId: string, text: string, name: Option<string>)
    | ToolsParam(tools: seq<string>)

  const PROCESSED := "I have processed the tool results."
  const ATTACHED := "Attached image(s) from tool result:"
  const SEE_IMAGE := "(see attached image)"
  const NO_OUTPUT := "(no tool output)"

  // ---------- The id normalizer ----------

  function BeforePipe(id: string): string {
    if id == [] || id[0] == '|' then [] else [id[0]] + BeforePipe(id[1..])
  }

  predicate IdChar(c: char) {
    'a' <= c <= 'z' || 'A' <= c <= 'Z' || '0' <= c <= '9' || c == '_' || c == '-'
  }

  function Sanitized(id: string): (r: string)
    ensures |r| == |id|
  {
    seq(|id|, i requires 0 <= i < |id| => if IdChar(id[i]) then id[i] else '_')
  }

  function Take40(id: string): string { if |id| > 40 then id[..40] else id }

  function NormalizeToolCallId(id: string, model: Model): string {
    if '|' in id then Take40(Sanitized(BeforePipe(id)))
    else if model.provider == "openai" then Take40(id)
    else id
  }

  function CompletionsNormalizer(model: Model): Normalizer {
    (id: string, _: Message) => NormalizeToolCallId(id, model)
  }

  /** Normalizing a normalized id changes nothing. */
  lemma NormalizerIsIdempotent(model: Model)
    ensures Idempotent(CompletionsNormalizer(model))
  {
    forall id: string
      ensures NormalizeToolCallId(NormalizeToolCallId(id, model), model) == NormalizeToolCallId(id, model) {
      var y := NormalizeToolCallId(id, model);
      assert '|' !in y;
    }
  }

  lemma BeforePipeIsEmpty(id: string)
    ensures Sanitized(BeforePipe(id)) == "" <==> id == "" || id[0] == '|'
  {
  }

  /** The normalizer produces the empty id exactly for the empty id and for ids that start with a pipe,
      so those ids, and no others, can part a result from its call. */
  lemma NormalizerIsEmptyWhen(id: string, model: Model)
    ensures NormalizeToolCallId(id, model) == "" <==> id == "" || id[0] == '|'
  {
    BeforePipeIsEmpty(id);
  }

  /** Such an id goes wrong for every model but the one that wrote the call: the call goes out under the
      empty id, and its result under the old one. */
  lemma PipeIdPartsResult(model: Model)
    requires model.provider != "elsewhere"
    ensures var history := [Assistant(Some([ToolCall("|x", "f", "{}", None)]), "elsewhere", "api", "m", ToolUse),
                            ToolResult("|x", "f", Some([]), [], false)];
            var out := FirstPass(history, map[], model, CompletionsNormalizer(model));
            |out| == 2 && Makes(out[0], "") && out[1].ToolResult? && out[1].toolCallId != ""
  {
    var call := ToolCall("|x", "f", "{}", None);
    var history := [Assistant(Some([call]), "elsewhere", "api", "m", ToolUse),
                    ToolResult("|x", "f", Some([]), [], false)];
    assert Makes(history[0], "|x") by { assert call in history[0].blocks.value; }
    NormalizerIsEmptyWhen("|x", model);
    ResultNamesItsCall(history, 0, 1, model, CompletionsNormalizer(model));
  }

  // ---------- Ids that collide ----------

  function Cleaned(c: char): char { if IdChar(c) then c else '_' }

  predicate Alike(c: char, d: char) { c == d || ((!IdChar(c) || c == '_') && (!IdChar(d) || d == '_')) }

  predicate SameFirst40(u: string, v: string) {
    && (|u| == |v| || (|u| >= 40 && |v| >= 40))
    && forall k :: 0 <= k < 40 && k < |u| ==> u[k] == v[k]
  }

  predicate AlikeFirst40(u: string, v: string) {
    && (|u| == |v| || (|u| >= 40 && |v| >= 40))
    && forall k :: 0 <= k < 40 && k < |u| ==> Alike(u[k], v[k])
  }

  /** `v` is spelled like the first 40 characters of `u` with every character that is not allowed as '_'. */
  predicate SpelledClean(u: string, v: string) {
    && |v| == (if |u| > 40 then 40 else |u|)
    && forall k :: 0 <= k < |v| ==> v[k] == Cleaned(u[k])
  }

  /** The id under which a call goes out: its own if the requested model made the call. */
  function SentId(id: string, kept: bool, model: Model): string {
    if kept then id else NormalizeToolCallId(id, model)
  }

  /** When two ids go out as one, on the ids as they were called: the same text before the pipe up to
      characters that are not allowed and the first 40 characters; the same first 40 characters for openai;
      or one is what the other is cut or cleaned to. */
  predicate Collide(a: string, keptA: bool, b: string, keptB: bool, model: Model) {
    var pipeA, pipeB := !keptA && '|' in a, !keptB && '|' in b;
    var cutA, cutB := !keptA && model.provider == "openai", !keptB && model.provider == "openai";
    if pipeA && pipeB then AlikeFirst40(BeforePipe(a), BeforePipe(b))
    else if pipeA then SpelledClean(BeforePipe(a), if cutB then Take40(b) else b)
    else if pipeB then SpelledClean(BeforePipe(b), if cutA then Take40(a) else a)
    else if cutA && cutB then SameFirst40(a, b)
    else if cutA then Take40(a) == b
    else if cutB then a == Take40(b)
    else a == b
  }

  lemma CleanedAlike(c: char, d: char)
    ensures Cleaned(c) == Cleaned(d) <==> Alike(c, d)
  {
  }

  lemma Taken40(u: string, v: string)
    ensures Take40(u) == Take40(v) <==> SameFirst40(u, v)
  {
    if Take40(u) == Take40(v) {
      forall k | 0 <= k < 40 && k < |u| ensures u[k] == v[k] {
        assert Take40(u)[k] == Take40(v)[k];
      }
    }
  }

  lemma Sanitized40(u: string, v: string)
    ensures Take40(Sanitized(u)) == Take40(Sanitized(v)) <==> AlikeFirst40(u, v)
  {
    Taken40(Sanitized(u), Sanitized(v));
    forall k | 0 <= k < |u| && k < |v| ensures Sanitized(u)[k] == Sanitized(v)[k] <==> Alike(u[k], v[k]) {
      CleanedAlike(u[k], v[k]);
    }
  }

  lemma SanitizedIs(u: string, v: string)
    ensures Take40(Sanitized(u)) == v <==> SpelledClean(u, v)
  {
    if SpelledClean(u, v) {
      assert forall k :: 0 <= k < |v| ==> Take40(Sanitized(u))[k] == v[k];
    }
  }

  /** Two calls go out under the same id exactly if their ids collide. */
  lemma SentTogetherIffCollide(a: string, keptA: bool, b: string, keptB: bool, model: Model)
    ensures SentId(a, keptA, model) == SentId(b, keptB, model) <==> Collide(a, keptA, b, keptB, model)
  {
    hide Take40, Sanitized, AlikeFirst40, SameFirst40, SpelledClean, BeforePipe;
    var u, v := BeforePipe(a), BeforePipe(b);
    Sanitized40(u, v);
    SanitizedIs(u, if !keptB && model.provider == "openai" then Take40(b) else b);
    SanitizedIs(v, if !keptA && model.provider == "openai" then Take40(a) else a);
    Taken40(a, b);
  }

  function KeptOf(ids: seq<string>, msg: Message, model: Model): (kept: seq<bool>)
    requires ids == [] || msg.Assistant?
    ensures |kept| == |ids|
  {
    seq(|ids|, k requires 0 <= k < |ids| => SameModel(msg, model))
  }

  /** For every call of a history, whether the requested model made it. */
  function Kept(messages: seq<Message>, model: Model): (kept: seq<bool>)
    ensures |kept| == |AllIds(messages)|
  {
    if messages == [] then [] else KeptOf(MessageIds(messages[0]), messages[0], model) + Kept(messages[1..], model)
  }

  lemma {:induction false} SentIdsAre(messages: seq<Message>, model: Model, k: nat)
    requires k < |AllIds(messages)|
    ensures k < |OutIds(messages, model, CompletionsNormalizer(model))|
    ensures OutIds(messages, model, CompletionsNormalizer(model))[k]
            == SentId(AllIds(messages)[k], Kept(messages, model)[k], model)
    decreases |messages|
  {
    hide NormalizeToolCallId, MessageIds;
    SameCount(messages, model, CompletionsNormalizer(model));
    var here := MessageIds(messages[0]);
    SameWriter(messages[0], model);
    if k < |here| {
      CallersAreAssistants(messages[0]);
      OneSent(here[k], Prepared(messages[0], model), model);
      assert OutIds(messages, model, CompletionsNormalizer(model))[k]
          == OutIdsOf(here, Prepared(messages[0], model), model, CompletionsNormalizer(model))[k];
      assert Kept(messages, model)[k] == KeptOf(here, messages[0], model)[k];
    } else {
      SentIdsAre(messages[1..], model, k - |here|);
      assert AllIds(messages)[k] == AllIds(messages[1..])[k - |here|];
      assert Kept(messages, model)[k] == Kept(messages[1..], model)[k - |here|];
    }
  }

  lemma CallersAreAssistants(msg: Message)
    ensures MessageIds(msg) != [] ==> msg.Assistant?
  {
  }

  lemma OneSent(id: string, msg: Message, model: Model)
    requires msg.Assistant?
    ensures CallId(id, msg, model, CompletionsNormalizer(model)) == SentId(id, SameModel(msg, model), model)
  {
  }

  lemma SameWriter(msg: Message, model: Model)
    ensures msg.Assistant? ==> (SameModel(Prepared(msg, model), model) <==> SameModel(msg, model))
  {
  }

  /** When a history with distinct ids stays one call to an id: exactly if no two of its ids collide and none
      that is renamed starts with a pipe. */
  lemma SeparableIffNoneCollide(messages: seq<Message>, model: Model)
    requires Distinct(AllIds(messages)) && ResultsFollowCalls(messages)
    ensures var raw, kept := AllIds(messages), Kept(messages, model);
            Separable(messages, model, CompletionsNormalizer(model))
            <==> (forall k, l :: 0 <= k < l < |raw| ==> !Collide(raw[k], kept[k], raw[l], kept[l], model))
                 && (forall k :: 0 <= k < |raw| && raw[k] != "" && raw[k][0] == '|' ==> kept[k])
  {
    hide AllIds, OutIds, Kept, Collide, NormalizeToolCallId, ResultsFollowCalls;
    var raw, kept := AllIds(messages), Kept(messages, model);
    var sent := OutIds(messages, model, CompletionsNormalizer(model));
    SameCount(messages, model, CompletionsNormalizer(model));
    forall k, l | 0 <= k < l < |raw| ensures sent[k] == sent[l] <==> Collide(raw[k], kept[k], raw[l], kept[l], model) {
      SentIdsAre(messages, model, k);
      SentIdsAre(messages, model, l);
      SentTogetherIffCollide(raw[k], kept[k], raw[l], kept[l], model);
    }
    forall k | 0 <= k < |raw| ensures raw[k] != "" && sent[k] == "" <==> raw[k] != "" && raw[k][0] == '|' && !kept[k] {
      SentIdsAre(messages, model, k);
      NormalizerIsEmptyWhen(raw[k], model);
    }
  }

  const FIRST := ToolCall("c|1", "f", "{}", None)
  const SECOND := ToolCall("c|2", "f", "{}", None)
  const COLLIDING := [Assistant(Some([FIRST, SECOND]), "elsewhere", "api", "m", ToolUse),
                      ToolResult("c|1", "f", Some([]), [], false)]

  lemma CollidingNormalize(model: Model)
    ensures NormalizeToolCallId("c|1", model) == "c" == NormalizeToolCallId("c|2", model)
  {
    assert "c|1"[1..] == "|1" && "c|2"[1..] == "|2";
    assert BeforePipe("|1") == "" && BeforePipe("|2") == "";
    assert BeforePipe("c|1") == "c" && BeforePipe("c|2") == "c";
    assert "c|1"[1] == '|' && "c|2"[1] == '|';
    assert Sanitized("c") == "c";
  }

  lemma CollidingIds(model: Model)
    requires model.provider != "elsewhere"
    ensures AllIds(COLLIDING) == ["c|1", "c|2"] && OutIds(COLLIDING, model, CompletionsNormalizer(model)) == ["c", "c"]
    ensures Distinct(AllIds(COLLIDING))
  {
    hide NormalizeToolCallId;
    var norm := CompletionsNormalizer(model);
    CollidingNormalize(model);
    var msg := COLLIDING[0];
    assert [FIRST, SECOND][1..] == [SECOND] && [SECOND][1..] == [];
    assert BlockIds([SECOND]) == ["c|2"] && BlockIds([FIRST, SECOND]) == ["c|1", "c|2"];
    assert MessageIds(msg) == ["c|1", "c|2"] && MessageIds(COLLIDING[1]) == [];
    assert COLLIDING[1..] == [COLLIDING[1]] && [COLLIDING[1]][1..] == [];
    assert AllIds([]) == [] && OutIds([], model, norm) == [];
    assert AllIds([COLLIDING[1]]) == [] && OutIds([COLLIDING[1]], model, norm) == [];
    SameWriter(msg, model);
    assert OutIdsOf(["c|1", "c|2"], Prepared(msg, model), model, norm) == ["c", "c"];
  }

  lemma CollidingFirstPass(model: Model)
    requires model.provider != "elsewhere"
    ensures var first := FirstPass(COLLIDING, map[], model, CompletionsNormalizer(model));
            && |first| == 2 && first[0].Assistant? && first[0].stopReason.ToolUse?
            && first[1].ToolResult? && first[1].toolCallId == "c" && AllIds(first) == ["c", "c"]
  {
    hide NormalizeToolCallId, AllIds, OutIds, TransformBlocks;
    var norm := CompletionsNormalizer(model);
    CollidingIds(model);
    CollidingNormalize(model);
    CallsOut(COLLIDING, map[], model, norm);
    assert Makes(COLLIDING[0], "c|1") by { assert FIRST in COLLIDING[0].blocks.value; }
    SameWriter(COLLIDING[0], model);
    FirstPassAt(COLLIDING, 0, map[], model, norm);
    ResultNamesItsCall(COLLIDING, 0, 1, model, norm);
  }

  lemma OneResultForBoth(a: Message, r: Message)
    requires a.Assistant? && a.stopReason.ToolUse? && r.ToolResult? && IdsOf(CallsOf(a)) <= {r.toolCallId}
    ensures SecondPass([a, r], [], {}) == [a, r]
  {
    hide CallsOf, Synthetics;
    assert [a, r][1..] == [r] && [r][1..] == [];
    NothingMissing(CallsOf(a), {r.toolCallId});
    assert Synthetics([], {}) == [] by { NothingMissing([], {}); }
    assert {} + {r.toolCallId} == {r.toolCallId};
    assert SecondPass([], CallsOf(a), {r.toolCallId}) == [];
    assert SecondPass([r], CallsOf(a), {}) == [r];
  }

  lemma {:induction false} CallsAreListed(blocks: seq<Block>, c: Block)
    requires c in Calls(blocks)
    ensures c.ToolCall? && c.id in BlockIds(blocks)
    decreases |blocks|
  {
    if !(blocks[0].ToolCall? && c == blocks[0]) {
      CallsAreListed(blocks[1..], c);
    }
  }

  /** Two calls whose ids differ behind the pipe only: both go out under one id, the result of the first
      names both, and the second gets no stand-in. */
  lemma CollidingIdsShareAResult(model: Model)
    requires model.provider != "elsewhere"
    ensures var out := Transform(COLLIDING, model, CompletionsNormalizer(model));
            && Distinct(AllIds(COLLIDING)) && |out| == 2
            && MessageIds(out[0]) == ["c", "c"] && out[1].ToolResult? && out[1].toolCallId == "c"
  {
    hide NormalizeToolCallId, SecondPass, FirstPass, BlockIds, Calls;
    var first := FirstPass(COLLIDING, map[], model, CompletionsNormalizer(model));
    CollidingIds(model);
    CollidingFirstPass(model);
    assert first == [first[0], first[1]];
    assert first[1..] == [first[1]] && [first[1]][1..] == [];
    assert AllIds([first[1]]) == [];
    assert MessageIds(first[0]) == ["c", "c"];
    forall id | id in IdsOf(CallsOf(first[0])) ensures id == "c" {
      var c :| c in CallsOf(first[0]) && c.ToolCall? && c.id == id;
      CallsAreListed(first[0].blocks.value, c);
    }
    OneResultForBoth(first[0], first[1]);
  }

  // ---------- Building the parameters ----------

  function Texts(blocks: seq<Block>): seq<string> {
    if blocks == [] then [] else (if blocks[0].Text? then [blocks[0].text] else []) + Texts(blocks[1..])
  }

  function InkyTexts(blocks: seq<Block>, clean: string -> string): seq<string> {
    if blocks == [] then []
    else (if blocks[0].Text? && HasInk(blocks[0].text) then [clean(blocks[0].text)] else [])
         + InkyTexts(blocks[1..], clean)
  }

  function InkyThinking(blocks: seq<Block>): seq<Block> {
    if blocks == [] then []
    else (if blocks[0].Thinking? && HasInk(blocks[0].thinking) then [blocks[0]] else []) + InkyThinking(blocks[1..])
  }

  function Mapped(thinking: seq<Block>, clean: string -> string): seq<string> {
    if thinking == [] then []
    else (if thinking[0].Thinking? then [clean(thinking[0].thinking)] else []) + Mapped(thinking[1..], clean)
  }

  function TextParts(texts: seq<string>): seq<Part> {
    seq(|texts|, i requires 0 <= i < |texts| => TextPart(texts[i]))
  }

  function CallParams(calls: seq<Block>): seq<CallParam> {
    if calls == [] then []
    else (if calls[0].ToolCall? then [CallParam(calls[0].id, calls[0].name, calls[0].arguments)] else [])
         + CallParams(calls[1..])
  }

  function DataUrl(block: Block): string
    requires block.Image?
  {
    "data:" + block.mimeType + ";base64," + block.data
  }

  function UserParts(blocks: seq<Block>, clean: string -> string): seq<Part> {
    if blocks == [] then []
    else
      (match blocks[0]
       case Text(text, _) => [TextPart(clean(text))]
       case Image(_, _) => [ImagePart(DataUrl(blocks[0]))]
       case _ => [])
      + UserParts(blocks[1..], clean)
  }

  function ImageParts(blocks: seq<Block>): seq<Part> {
    if blocks == [] then []
    else (if blocks[0].Image? then [ImagePart(DataUrl(blocks[0]))] else []) + ImageParts(blocks[1..])
  }

  function AssistantContent(blocks: seq<Block>, compat: Compat, clean: string -> string): ParamContent {
    var texts := InkyTexts(blocks, clean);
    var text := Text.Join(texts, "");
    var thinking := InkyThinking(blocks);
    if thinking != [] && compat.requiresThinkingAsText then
      Parts([TextPart(Text.Join(Mapped(thinking, clean), "\n\n"))] + TextParts(texts))
    else if |text| > 0 then Str(text)
    else if compat.requiresAssistantAfterToolResult then Str("")
    else Null
  }

  /** Provider-specific fields: the reasoning text under the name its signature gives. */
  function AssistantExtra(blocks: seq<Block>, model: Model, compat: Compat): map<string, string> {
    var thinking := InkyThinking(blocks);
    var signature := if thinking != [] && thinking[0].Thinking? then thinking[0].thinkingSignature else None;
    var field := if model.provider == "opencode-go" && signature == Some("reasoning") then Some("reasoning_content")
                 else signature;
    var reasoning: map<string, string> :=
      if !compat.requiresThinkingAsText && Given(field)
      then map[field.value := Text.Join(Mapped(thinking, (t: string) => t), "\n")]
      else map[];
    if compat.requiresReasoningContent && model.reasoning && "reasoning_content" !in reasoning
    then reasoning["reasoning_content" := ""] else reasoning
  }

  predicate NonEmptyContent(content: ParamContent) {
    (content.Str? && |content.text| > 0) || (content.Parts? && |content.parts| > 0)
  }

  /** An assistant message without content and without calls is not sent. */
  function AssistantParams(blocks: seq<Block>, model: Model, compat: Compat, clean: string -> string): seq<Param> {
    var param := AssistantParam(AssistantContent(blocks, compat, clean), CallParams(Calls(blocks)),
                                AssistantExtra(blocks, model, compat));
    if !NonEmptyContent(param.content) && param.toolCalls == [] then [] else [param]
  }

  function UserParams(content: Content, clean: string -> string): seq<Param> {
    match content
    case Plain(text) => [UserParam(Str(clean(text)))]
    case Blocks(blocks) => var parts := UserParts(blocks, clean); if parts == [] then [] else [UserParam(Parts(parts))]
    case Absent => []
  }

  function Output(msg: Message): seq<Block> { if msg.ToolResult? && msg.output.Some? then msg.output.value else [] }

  function ResultParam(msg: Message, compat: Compat, clean: string -> string): Param
    requires msg.ToolResult?
  {
    var text := Text.Join(Texts(Output(msg)), "\n");
    var hasImages := exists b :: b in Output(msg) && b.Image?;
    ToolParam(msg.toolCallId, clean(if |text| > 0 then text else if hasImages then SEE_IMAGE else NO_OUTPUT),
              if compat.requiresToolResultName && msg.toolName != "" then Some(msg.toolName) else None)
  }

  function ResultCount(messages: seq<Message>): (n: nat)
    ensures n <= |messages| && forall k :: 0 <= k < n ==> messages[k].ToolResult?
    ensures n < |messages| ==> !messages[n].ToolResult?
  {
    if messages == [] || !messages[0].ToolResult? then 0 else 1 + ResultCount(messages[1..])
  }

  function ResultParams(results: seq<Message>, compat: Compat, clean: string -> string): seq<Param> {
    if results == [] then []
    else (if results[0].ToolResult? then [ResultParam(results[0], compat, clean)] else [])
         + ResultParams(results[1..], compat, clean)
  }

  function ResultImages(results: seq<Message>): seq<Part> {
    if results == [] then [] else ImageParts(Output(results[0])) + ResultImages(results[1..])
  }

  function AddedNames(results: seq<Message>): seq<string> {
    if results == [] then []
    else (if results[0].ToolResult? then results[0].addedToolNames else []) + AddedNames(results[1..])
  }

  function Unique(names: seq<string>): seq<string> {
    if names == [] then []
    else var before := Unique(names[..|names| - 1]); var last := names[|names| - 1];
         if last in before then before else before + [last]
  }

  function Known(names: seq<string>, tools: seq<string>): seq<string> {
    if names == [] then [] else (if names[0] in tools then [names[0]] else []) + Known(names[1..], tools)
  }

  function Bridge(): Param { AssistantParam(Str(PROCESSED), [], map[]) }

  function ImageParams(images: seq<Part>, compat: Compat): seq<Param> {
    if images == [] then []
    else (if compat.requiresAssistantAfterToolResult then [Bridge()] else [])
         + [UserParam(Parts([TextPart(ATTACHED)] + images))]
  }

  function DeferredParams(results: seq<Message>, tools: seq<string>, compat: Compat): seq<Param> {
    var deferred := if compat.deferredKimi then Known(Unique(AddedNames(results)), tools) else [];
    if deferred == [] then [] else [ToolsParam(deferred)]
  }

  /** The last role the loop remembers: it does not change when a message is skipped. */
  datatype Role = NoRole | UserRole | AssistantRole | ResultRole

  function Convert(messages: seq<Message>, last: Role, model: Model, tools: seq<string>, compat: Compat,
                   clean: string -> string): seq<Param>
    decreases |messages|
  {
    if messages == [] then []
    else
      var msg, rest := messages[0], messages[1..];
      match msg
      case User(content) =>
        var params := UserParams(content, clean);
        (if compat.requiresAssistantAfterToolResult && last.ResultRole? then [Bridge()] else [])
        + params + Convert(rest, if params == [] then last else UserRole, model, tools, compat, clean)
      case Assistant(blocks, _, _, _, _) =>
        var params := AssistantParams(if blocks.Some? then blocks.value else [], model, compat, clean);
        params + Convert(rest, if params == [] then last else AssistantRole, model, tools, compat, clean)
      case ToolResult(_, _, _, _, _) =>
        var n := ResultCount(messages);
        var results := messages[..n];
        var images := if model.readsImages then ResultImages(results) else [];
        ResultParams(results, compat, clean) + ImageParams(images, compat) + DeferredParams(results, tools, compat)
        + Convert(messages[n..], if images == [] then ResultRole else UserRole, model, tools, compat, clean)
  }

  function SystemParam(systemPrompt: string, model: Model, compat: Compat, clean: string -> string): Param {
    Instructions(if model.reasoning && compat.supportsDeveloperRole then "developer" else "system", clean(systemPrompt))
  }

  function ConvertMessages(systemPrompt: string, messages: seq<Message>, model: Model, tools: seq<string>,
                           compat: Compat, clean: string -> string): seq<Param> {
    (if systemPrompt == "" then [] else [SystemParam(systemPrompt, model, compat, clean)])
    + Convert(Transform(messages, model, CompletionsNormalizer(model)), NoRole, model, tools, compat, clean)
  }

  // ---------- Every call in the request is answered ----------

  /** The ids answered by the tool messages that a request starts with. */
  function LeadingToolIds(params: seq<Param>): set<string> {
    if params == [] || !params[0].ToolParam? then {}
    else {params[0].toolCallId} + LeadingToolIds(params[1..])
  }

  ghost predicate Answered(params: seq<Param>) {
    forall i, c :: 0 <= i < |params| && params[i].AssistantParam? && c in params[i].toolCalls ==>
      c.id in LeadingToolIds(params[i + 1..])
  }

  ghost predicate NoUserAfterTool(params: seq<Param>) {
    forall i :: 0 <= i < |params| - 1 ==> params[i].ToolParam? ==> !params[i + 1].UserParam?
  }

  lemma CallParamsAreCalls(calls: seq<Block>, c: CallParam)
    requires c in CallParams(calls)
    ensures exists b :: b in calls && b.ToolCall? && b.id == c.id
  {
  }

  lemma {:induction false} ToolIdsAhead(results: seq<Message>, after: seq<Param>, compat: Compat,
                                        clean: string -> string)
    ensures LeadingIds(results) <= LeadingToolIds(ResultParams(results, compat, clean) + after)
    decreases |results|
  {
    if results != [] && results[0].ToolResult? {
      var p := ResultParams(results, compat, clean) + after;
      assert p[1..] == ResultParams(results[1..], compat, clean) + after;
      ToolIdsAhead(results[1..], after, compat, clean);
    }
  }

  lemma {:induction false} LeadingIdsAreCounted(messages: seq<Message>)
    ensures LeadingIds(messages) == LeadingIds(messages[..ResultCount(messages)])
    decreases |messages|
  {
    if messages != [] && messages[0].ToolResult? {
      var n := ResultCount(messages);
      assert messages[..n][1..] == messages[1..][..n - 1];
      LeadingIdsAreCounted(messages[1..]);
    }
  }

  lemma AnsweredAhead(first: Param, rest: seq<Param>)
    requires Answered(rest)
    requires first.AssistantParam? ==> forall c :: c in first.toolCalls ==> c.id in LeadingToolIds(rest)
    ensures Answered([first] + rest)
  {
    var all := [first] + rest;
    forall i, c | 0 <= i < |all| && all[i].AssistantParam? && c in all[i].toolCalls
      ensures c.id in LeadingToolIds(all[i + 1..])
    {
      if i == 0 {
        assert all[1..] == rest;
      } else {
        assert all[i + 1..] == rest[i..];
        assert all[i] == rest[i - 1];
      }
    }
  }

  // Parameters that call nothing may be put in front of an answered request.
  lemma {:induction false} CallFreeAhead(front: seq<Param>, rest: seq<Param>)
    requires Answered(rest) && forall p :: p in front && p.AssistantParam? ==> p.toolCalls == []
    ensures Answered(front + rest)
    decreases |front|
  {
    if front == [] {
      assert front + rest == rest;
    } else {
      CallFreeAhead(front[1..], rest);
      AnsweredAhead(front[0], front[1..] + rest);
      assert front + rest == [front[0]] + (front[1..] + rest);
    }
  }

  lemma {:induction false} ResultParamsAreTools(results: seq<Message>, compat: Compat, clean: string -> string)
    ensures forall p :: p in ResultParams(results, compat, clean) ==> p.ToolParam?
    ensures results != [] && results[|results| - 1].ToolResult? ==> ResultParams(results, compat, clean) != []
    decreases |results|
  {
    if results != [] {
      ResultParamsAreTools(results[1..], compat, clean);
    }
  }

  lemma ResultsAnswer(messages: seq<Message>, extra: seq<Param>, tail: seq<Param>, compat: Compat,
                      clean: string -> string)
    requires Answered(tail) && forall p :: p in extra && p.AssistantParam? ==> p.toolCalls == []
    ensures var all := ResultParams(messages[..ResultCount(messages)], compat, clean) + extra + tail;
            Answered(all) && LeadingIds(messages) <= LeadingToolIds(all)
  {
    var results := messages[..ResultCount(messages)];
    var front := ResultParams(results, compat, clean);
    ResultParamsAreTools(results, compat, clean);
    CallFreeAhead(front + extra, tail);
    LeadingIdsAreCounted(messages);
    ToolIdsAhead(results, extra + tail, compat, clean);
    assert front + extra + tail == front + (extra + tail);
  }

  lemma AssistantAnswers(msg: Message, rest: seq<Message>, tail: seq<Param>, model: Model, compat: Compat,
                         clean: string -> string)
    requires msg.Assistant? && CallIds(msg) <= LeadingIds(rest) <= LeadingToolIds(tail) && Answered(tail)
    ensures Answered(AssistantParams(if msg.blocks.Some? then msg.blocks.value else [], model, compat, clean) + tail)
  {
    var blocks := if msg.blocks.Some? then msg.blocks.value else [];
    var params := AssistantParams(blocks, model, compat, clean);
    if params != [] {
      forall c | c in params[0].toolCalls ensures c.id in LeadingIds(rest) {
        CallParamsAreCalls(Calls(blocks), c);
        assert c.id in CallIds(msg);
      }
      AnsweredAhead(params[0], tail);
    } else {
      assert [] + tail == tail;
    }
  }

  /** A closed history gives an answered request, whatever is skipped, bridged or attached on the way. */
  lemma {:induction false} ConvertAnswers(messages: seq<Message>, last: Role, model: Model, tools: seq<string>,
                                          compat: Compat, clean: string -> string)
    requires Closed(messages)
    ensures Answered(Convert(messages, last, model, tools, compat, clean))
    ensures LeadingIds(messages) <= LeadingToolIds(Convert(messages, last, model, tools, compat, clean))
    decreases |messages|
  {
    hide Answered, ResultParams, AssistantParams, UserParams, DeferredParams, ResultImages;
    if messages == [] {
      assert Answered([]) by { NothingToAnswer(); }
    } else {
      var msg, rest := messages[0], messages[1..];
      match msg
      case User(content) =>
        var params := UserParams(content, clean);
        var next := if params == [] then last else UserRole;
        ConvertAnswers(rest, next, model, tools, compat, clean);
        UserParamsCallNothing(content, clean);
        CallFreeAhead((if compat.requiresAssistantAfterToolResult && last.ResultRole? then [Bridge()] else []) + params,
                      Convert(rest, next, model, tools, compat, clean));
      case Assistant(blocks, _, _, _, _) =>
        var params := AssistantParams(if blocks.Some? then blocks.value else [], model, compat, clean);
        var next := if params == [] then last else AssistantRole;
        ConvertAnswers(rest, next, model, tools, compat, clean);
        AssistantAnswers(msg, rest, Convert(rest, next, model, tools, compat, clean), model, compat, clean);
      case ToolResult(_, _, _, _, _) =>
        var n := ResultCount(messages);
        var results := messages[..n];
        var images := if model.readsImages then ResultImages(results) else [];
        var next := if images == [] then ResultRole else UserRole;
        var extra := ImageParams(images, compat) + DeferredParams(results, tools, compat);
        ClosedDrop(messages, n);
        ConvertAnswers(messages[n..], next, model, tools, compat, clean);
        DeferredParamsCallNothing(results, tools, compat);
        ResultsAnswer(messages, extra, Convert(messages[n..], next, model, tools, compat, clean), compat, clean);
        assert ResultParams(results, compat, clean) + extra
               == ResultParams(results, compat, clean) + ImageParams(images, compat)
                  + DeferredParams(results, tools, compat);
    }
  }

  lemma NothingToAnswer()
    ensures Answered([])
  {
  }

  lemma UserParamsCallNothing(content: Content, clean: string -> string)
    ensures forall p :: p in UserParams(content, clean) ==> p.UserParam?
  {
  }

  lemma DeferredParamsCallNothing(results: seq<Message>, tools: seq<string>, compat: Compat)
    ensures forall p :: p in DeferredParams(results, tools, compat) ==> p.ToolsParam?
  {
  }

  // ---------- Providers that need an assistant between a tool result and a user ----------

  lemma Glue(a: seq<Param>, b: seq<Param>)
    requires NoUserAfterTool(a) && NoUserAfterTool(b)
    requires a != [] && b != [] && a[|a| - 1].ToolParam? ==> !b[0].UserParam?
    ensures NoUserAfterTool(a + b)
  {
    var all := a + b;
    forall i | 0 <= i < |all| - 1 && all[i].ToolParam? ensures !all[i + 1].UserParam? {
      assert i >= |a| ==> all[i] == b[i - |a|] && all[i + 1] == b[i - |a| + 1];
    }
  }

  lemma ResultsSeparate(results: seq<Message>, images: seq<Part>, tools: seq<string>, compat: Compat,
                        clean: string -> string, tail: seq<Param>)
    requires compat.requiresAssistantAfterToolResult && results != [] && forall m :: m in results ==> m.ToolResult?
    requires NoUserAfterTool(tail) && (images == [] && tail != [] ==> !tail[0].UserParam?)
    ensures var params := ResultParams(results, compat, clean) + ImageParams(images, compat)
                          + DeferredParams(results, tools, compat) + tail;
            NoUserAfterTool(params) && params != [] && params[0].ToolParam?
  {
    hide ResultParam;
    ResultParamsAreTools(results, compat, clean);
    DeferredParamsCallNothing(results, tools, compat);
    var front, shown := ResultParams(results, compat, clean), ImageParams(images, compat);
    var deferred := DeferredParams(results, tools, compat);
    assert front[0] in front;
    assert forall i :: 0 <= i < |front| ==> front[i] in front;
    Glue(front, shown);
    assert shown != [] ==> (front + shown)[|front + shown| - 1].UserParam?;
    Glue(front + shown, deferred);
    Glue(front + shown + deferred, tail);
  }

  /** No tool message is directly followed by a user message, and a request that continues after a tool
      message does not start with a user message either. */
  lemma {:induction false} ConvertSeparates(messages: seq<Message>, last: Role, model: Model, tools: seq<string>,
                                            compat: Compat, clean: string -> string)
    requires compat.requiresAssistantAfterToolResult
    ensures var params := Convert(messages, last, model, tools, compat, clean);
            NoUserAfterTool(params) && (last.ResultRole? && params != [] ==> !params[0].UserParam?)
    decreases |messages|
  {
    hide ResultParams, ImageParams, AssistantContent, UserParts, DeferredParams, ResultImages;
    if messages != [] {
      var msg, rest := messages[0], messages[1..];
      match msg
      case User(content) =>
        var params := UserParams(content, clean);
        var next := if params == [] then last else UserRole;
        ConvertSeparates(rest, next, model, tools, compat, clean);
        var front := (if last.ResultRole? then [Bridge()] else []) + params;
        UserParamsCallNothing(content, clean);
        Glue(front, Convert(rest, next, model, tools, compat, clean));
      case Assistant(blocks, _, _, _, _) =>
        var params := AssistantParams(if blocks.Some? then blocks.value else [], model, compat, clean);
        var next := if params == [] then last else AssistantRole;
        ConvertSeparates(rest, next, model, tools, compat, clean);
        Glue(params, Convert(rest, next, model, tools, compat, clean));
      case ToolResult(_, _, _, _, _) =>
        var n := ResultCount(messages);
        var results := messages[..n];
        var images := if model.readsImages then ResultImages(results) else [];
        var next := if images == [] then ResultRole else UserRole;
        ConvertSeparates(messages[n..], next, model, tools, compat, clean);
        ResultsSeparate(results, images, tools, compat, clean,
                        Convert(messages[n..], next, model, tools, compat, clean));
    }
  }

  // ---------- End to end ----------

  /** For every history, each assistant message of the request that makes calls is directly followed by
      a block of tool messages with a result for each of its calls; and where the provider asks for it,
      no tool message is directly followed by a user message. */
  lemma RequestIsWellFormed(systemPrompt: string, messages: seq<Message>, model: Model, tools: seq<string>,
                            compat: Compat, clean: string -> string)
    ensures var params := ConvertMessages(systemPrompt, messages, model, tools, compat, clean);
            && Answered(params)
            && (compat.requiresAssistantAfterToolResult ==> NoUserAfterTool(params))
  {
    var norm := CompletionsNormalizer(model);
    var transformed := Transform(messages, model, norm);
    SecondPassCloses(FirstPass(messages, map[], model, norm), [], {});
    ConvertAnswers(transformed, NoRole, model, tools, compat, clean);
    var system := if systemPrompt == "" then [] else [SystemParam(systemPrompt, model, compat, clean)];
    CallFreeAhead(system, Convert(transformed, NoRole, model, tools, compat, clean));
    if compat.requiresAssistantAfterToolResult {
      ConvertSeparates(transformed, NoRole, model, tools, compat, clean);
      Glue(system, Convert(transformed, NoRole, model, tools, compat, clean));
    }
  }

  // ---------- The loop ----------

  lemma {:induction false} ResultParamsSnoc(results: seq<Message>, m: Message, compat: Compat, clean: string -> string)
    requires m.ToolResult?
    ensures ResultParams(results + [m], compat, clean)
            == ResultParams(results, compat, clean) + [ResultParam(m, compat, clean)]
    ensures ResultImages(results + [m]) == ResultImages(results) + ImageParts(Output(m))
    ensures AddedNames(results + [m]) == AddedNames(results) + m.addedToolNames
    decreases |results|
  {
    hide ResultParam, ImageParts;
    if results != [] {
      assert (results + [m])[1..] == results[1..] + [m];
      ResultParamsSnoc(results[1..], m, compat, clean);
    } else {
      assert results + [m] == [m] && [m][1..] == [];
      assert ImageParts(Output(m)) + [] == ImageParts(Output(m));
    }
  }

  lemma {:induction false} UniqueConcat(a: seq<string>, b: seq<string>)
    ensures Unique(a + b) == Unique(Unique(a) + b)
    decreases |b|
  {
    if b == [] {
      assert a + b == a && Unique(a) + b == Unique(a);
      UniqueIsUnique(a);
    } else {
      assert (a + b)[..|a + b| - 1] == a + b[..|b| - 1];
      assert (Unique(a) + b)[..|Unique(a) + b| - 1] == Unique(a) + b[..|b| - 1];
      UniqueConcat(a, b[..|b| - 1]);
    }
  }

  lemma {:induction false} UniqueIsUnique(a: seq<string>)
    ensures Unique(Unique(a)) == Unique(a)
    decreases |a|
  {
    if a != [] {
      var before := Unique(a[..|a| - 1]);
      UniqueIsUnique(a[..|a| - 1]);
      assert (before + [a[|a| - 1]])[..|before|] == before;
    }
  }

  /** One run of tool results: the tool messages, their images and the tools they make available. */
  method ConvertResults(messages: seq<Message>, i: nat, model: Model, compat: Compat, clean: string -> string)
    returns (params: seq<Param>, images: seq<Part>, deferredNames: seq<string>, j: nat)
    requires i < |messages| && messages[i].ToolResult?
    ensures j == i + ResultCount(messages[i..]) && i < j <= |messages|
    ensures params == ResultParams(messages[i..j], compat, clean)
    ensures images == if model.readsImages then ResultImages(messages[i..j]) else []
    ensures deferredNames == if compat.deferredKimi then Unique(AddedNames(messages[i..j])) else []
  {
    hide ResultParams, ResultParam, ResultImages, ImageParts, AddedNames, Unique, Output, ResultCount;
    params, images, deferredNames, j := [], [], [], i;
    NoResults(compat, clean);
    assert messages[i..i] == [];
    while j < |messages| && messages[j].ToolResult?
      invariant i <= j <= |messages|
      invariant forall k :: i <= k < j ==> messages[k].ToolResult?
      invariant params == ResultParams(messages[i..j], compat, clean)
      invariant images == if model.readsImages then ResultImages(messages[i..j]) else []
      invariant deferredNames == if compat.deferredKimi then Unique(AddedNames(messages[i..j])) else []
    {
      var toolMsg := messages[j];
      ResultParamsSnoc(messages[i..j], toolMsg, compat, clean);
      assert messages[i..j] + [toolMsg] == messages[i..j + 1];
      params := params + [ResultParam(toolMsg, compat, clean)];
      if compat.deferredKimi {
        UniqueConcat(AddedNames(messages[i..j]), toolMsg.addedToolNames);
        deferredNames := Unique(deferredNames + toolMsg.addedToolNames);
      }
      if model.readsImages {
        images := images + ImageParts(Output(toolMsg));
      }
      j := j + 1;
    }
    ResultCountIs(messages, i, j);
  }

  lemma NoResults(compat: Compat, clean: string -> string)
    ensures ResultParams([], compat, clean) == [] && ResultImages([]) == [] && Unique(AddedNames([])) == []
  {
  }

  lemma {:induction false} ResultCountIs(messages: seq<Message>, i: nat, j: nat)
    requires i <= j <= |messages| && (forall k :: i <= k < j ==> messages[k].ToolResult?)
    requires j < |messages| ==> !messages[j].ToolResult?
    ensures ResultCount(messages[i..]) == j - i
    decreases j - i
  {
    if i < j {
      assert messages[i..][1..] == messages[i + 1..];
      ResultCountIs(messages, i + 1, j);
    }
  }

  // The three kinds of turn of the loop.
  lemma ConvertUser(messages: seq<Message>, i: nat, last: Role, model: Model, tools: seq<string>, compat: Compat,
                    clean: string -> string, done: seq<Param>)
    requires i < |messages| && messages[i].User?
    ensures var params := UserParams(messages[i].content, clean);
            done + Convert(messages[i..], last, model, tools, compat, clean)
            == (done + (if compat.requiresAssistantAfterToolResult && last.ResultRole? then [Bridge()] else [])
                + params)
               + Convert(messages[i + 1..], if params == [] then last else UserRole, model, tools, compat, clean)
  {
    hide UserParams;
    assert messages[i..][0] == messages[i] && messages[i..][1..] == messages[i + 1..];
    var params := UserParams(messages[i].content, clean);
    var bridge := if compat.requiresAssistantAfterToolResult && last.ResultRole? then [Bridge()] else [];
    var tail := Convert(messages[i + 1..], if params == [] then last else UserRole, model, tools, compat, clean);
    assert Convert(messages[i..], last, model, tools, compat, clean) == bridge + params + tail;
    Associate(done, bridge, params, tail);
  }

  lemma Associate(a: seq<Param>, b: seq<Param>, c: seq<Param>, d: seq<Param>)
    ensures a + (b + c + d) == (a + b + c) + d
  {
  }

  lemma ConvertAssistant(messages: seq<Message>, i: nat, last: Role, model: Model, tools: seq<string>, compat: Compat,
                         clean: string -> string, done: seq<Param>)
    requires i < |messages| && messages[i].Assistant?
    ensures var blocks := messages[i].blocks;
            var params := AssistantParams(if blocks.Some? then blocks.value else [], model, compat, clean);
            done + Convert(messages[i..], last, model, tools, compat, clean)
            == (done + params)
               + Convert(messages[i + 1..], if params == [] then last else AssistantRole, model, tools, compat, clean)
  {
    hide AssistantParams;
    assert messages[i..][1..] == messages[i + 1..];
  }

  lemma RunConverts(messages: seq<Message>, last: Role, model: Model, tools: seq<string>, compat: Compat,
                    clean: string -> string)
    requires messages != [] && messages[0].ToolResult?
    ensures var n := ResultCount(messages);
            var images := if model.readsImages then ResultImages(messages[..n]) else [];
            Convert(messages, last, model, tools, compat, clean)
            == ResultParams(messages[..n], compat, clean) + ImageParams(images, compat)
               + DeferredParams(messages[..n], tools, compat)
               + Convert(messages[n..], if images == [] then ResultRole else UserRole, model, tools, compat, clean)
  {
    hide ResultParams, ImageParams, DeferredParams, ResultImages;
  }

  lemma ConvertResultRun(messages: seq<Message>, i: nat, last: Role, model: Model, tools: seq<string>, compat: Compat,
                         clean: string -> string, done: seq<Param>)
    requires i < |messages| && messages[i].ToolResult?
    ensures var j := i + ResultCount(messages[i..]);
            var images := if model.readsImages then ResultImages(messages[i..j]) else [];
            done + Convert(messages[i..], last, model, tools, compat, clean)
            == (done + ResultParams(messages[i..j], compat, clean)
                + (ImageParams(images, compat) + DeferredParams(messages[i..j], tools, compat)))
               + Convert(messages[j..], if images == [] then ResultRole else UserRole, model, tools, compat, clean)
  {
    hide ResultParams, ImageParams, DeferredParams, ResultImages, Convert;
    var n := ResultCount(messages[i..]);
    var j := i + n;
    assert messages[i..][..n] == messages[i..j] && messages[i..][n..] == messages[j..];
    var images := if model.readsImages then ResultImages(messages[i..j]) else [];
    var a, b := ResultParams(messages[i..j], compat, clean), ImageParams(images, compat);
    var c := DeferredParams(messages[i..j], tools, compat);
    var tail := Convert(messages[j..], if images == [] then ResultRole else UserRole, model, tools, compat, clean);
    RunConverts(messages[i..], last, model, tools, compat, clean);
    Associate(done, a, b + c, tail);
    assert a + b + c == a + (b + c);
  }

  /** What follows the tool messages of a run. */
  method AfterResults(images: seq<Part>, deferredNames: seq<string>, tools: seq<string>, compat: Compat)
    returns (params: seq<Param>)
    ensures params == ImageParams(images, compat)
                      + if compat.deferredKimi && Known(deferredNames, tools) != []
                        then [ToolsParam(Known(deferredNames, tools))] else []
  {
    params := [];
    if |images| > 0 {
      if compat.requiresAssistantAfterToolResult {
        params := params + [Bridge()];
      }
      params := params + [UserParam(Parts([TextPart(ATTACHED)] + images))];
    }
    var deferred := Known(deferredNames, tools);
    if compat.deferredKimi && |deferred| > 0 {
      params := params + [ToolsParam(deferred)];
    }
  }

  /** The parameters of a transformed history. */
  method ConvertEach(transformed: seq<Message>, model: Model, tools: seq<string>, compat: Compat,
                     clean: string -> string)
    returns (params: seq<Param>)
    ensures params == Convert(transformed, NoRole, model, tools, compat, clean)
  {
    hide UserParams, AssistantParams, ResultParams, ResultImages, ImageParams, DeferredParams, Known, Unique,
      AddedNames, Convert;
    params := [];
    ghost var goal := Convert(transformed, NoRole, model, tools, compat, clean);
    var lastRole := NoRole;
    var i := 0;
    assert transformed[0..] == transformed;
    while i < |transformed|
      invariant 0 <= i <= |transformed|
      invariant params + Convert(transformed[i..], lastRole, model, tools, compat, clean) == goal
    {
      var msg := transformed[i];
      match msg {
        case User(content) =>
          ConvertUser(transformed, i, lastRole, model, tools, compat, clean, params);
          if compat.requiresAssistantAfterToolResult && lastRole.ResultRole? {
            params := params + [Bridge()];
          }
          var added := UserParams(content, clean);
          i := i + 1;
          if added == [] {
            continue;
          }
          params := params + added;
          lastRole := UserRole;
        case Assistant(blocks, _, _, _, _) =>
          ConvertAssistant(transformed, i, lastRole, model, tools, compat, clean, params);
          var added := AssistantParams(if blocks.Some? then blocks.value else [], model, compat, clean);
          i := i + 1;
          if added == [] {
            continue;
          }
          params := params + added;
          lastRole := AssistantRole;
        case ToolResult(_, _, _, _, _) =>
          ConvertResultRun(transformed, i, lastRole, model, tools, compat, clean, params);
          var results, images, deferredNames, j := ConvertResults(transformed, i, model, compat, clean);
          var after := AfterResults(images, deferredNames, tools, compat);
          AfterIsDeferred(transformed[i..j], deferredNames, tools, compat);
          params := params + results + after;
          i := j;
          lastRole := if |images| > 0 then UserRole else ResultRole;
      }
    }
    assert transformed[|transformed|..] == [];
    ConvertNothing(lastRole, model, tools, compat, clean);
    assert params + [] == params;
  }

  lemma AfterIsDeferred(results: seq<Message>, deferredNames: seq<string>, tools: seq<string>, compat: Compat)
    requires deferredNames == if compat.deferredKimi then Unique(AddedNames(results)) else []
    ensures DeferredParams(results, tools, compat)
            == if compat.deferredKimi && Known(deferredNames, tools) != []
               then [ToolsParam(Known(deferredNames, tools))] else []
  {
  }

  lemma ConvertNothing(last: Role, model: Model, tools: seq<string>, compat: Compat, clean: string -> string)
    ensures Convert([], last, model, tools, compat, clean) == []
  {
  }

  /** The request for a history. */
  method BuildRequest(systemPrompt: string, messages: seq<Message>, model: Model, tools: seq<string>, compat: Compat,
                      clean: string -> string) returns (params: seq<Param>)
    ensures params == ConvertMessages(systemPrompt, messages, model, tools, compat, clean)
  {
    hide Convert, Transform, NormalizeToolCallId, CompletionsNormalizer;
    params := [];
    var transformed := TransformMessages(messages, model, CompletionsNormalizer(model));
    if systemPrompt != "" {
      params := params + [SystemParam(systemPrompt, model, compat, clean)];
    }
    var converted := ConvertEach(transformed, model, tools, compat, clean);
    params := params + converted;
  }
}
