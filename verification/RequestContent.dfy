/** What a request says, read off its parameters and read off the transformed history. */
module RequestContent {
  import opened Options
  import opened Messages
  import opened Completions
  import Text

  datatype Piece = Words(text: string) | Picture(url: string)

  datatype Asked = Asked(id: string, name: string, arguments: string)

  datatype Item =
    | System(role: string, text: string)
    | FromUser(pieces: seq<Piece>)
    | FromAssistant(text: string, calls: seq<Asked>, fields: map<string, string>)
    | FromTool(id: string, text: string, name: Option<string>)
    | Offer(tools: seq<string>)

  /** A message of the assistant. The sentence that bridges tool results and a user message says nothing. */
  function Speech(text: string, calls: seq<Asked>, fields: map<string, string>): seq<Item> {
    if text == "I have processed the tool results." && calls == [] && fields == map[] then []
    else [FromAssistant(text, calls, fields)]
  }

  // ---------- What the parameters say ----------

  function PiecesOf(parts: seq<Part>): seq<Piece> {
    if parts == [] then []
    else [match parts[0] case TextPart(text) => Words(text) case ImagePart(url) => Picture(url)] + PiecesOf(parts[1..])
  }

  function WordsOf(parts: seq<Part>): string {
    if parts == [] then "" else (if parts[0].TextPart? then parts[0].text else "") + WordsOf(parts[1..])
  }

  function WordsIn(content: ParamContent): string {
    match content
    case Null => ""
    case Str(text) => text
    case Parts(parts) => WordsOf(parts)
  }

  function CallsMade(calls: seq<CallParam>): seq<Asked> {
    if calls == [] then [] else [Asked(calls[0].id, calls[0].name, calls[0].arguments)] + CallsMade(calls[1..])
  }

  function ItemOf(param: Param): seq<Item> {
    match param
    case Instructions(role, text) => [System(role, text)]
    case UserParam(content) =>
      [FromUser(match content
                case Null => []
                case Str(text) => [Words(text)]
                case Parts(parts) => PiecesOf(parts))]
    case AssistantParam(content, calls, extra) =>
      Speech(WordsIn(content), CallsMade(calls), extra)
    case ToolParam(id, text, name) => [FromTool(id, text, name)]
    case ToolsParam(tools) => [Offer(tools)]
  }

  function View(params: seq<Param>): seq<Item> {
    if params == [] then [] else ItemOf(params[0]) + View(params[1..])
  }

  // ---------- What the history says ----------

  /** Text blocks, one to a line. */
  function Lines(blocks: seq<Block>, before: Option<string>): Option<string> {
    if blocks == [] then before
    else
      Lines(blocks[1..],
            if !blocks[0].Text? then before
            else if before.None? then Some(blocks[0].text)
            else Some(before.value + "\n" + blocks[0].text))
  }

  /** Thinking that is more than white space. */
  function Thoughts(blocks: seq<Block>, before: Option<string>, separator: string, clean: string -> string)
      : Option<string> {
    if blocks == [] then before
    else
      Thoughts(blocks[1..],
               if !blocks[0].Thinking? || !HasInk(blocks[0].thinking) then before
               else if before.None? then Some(clean(blocks[0].thinking))
               else Some(before.value + separator + clean(blocks[0].thinking)), separator, clean)
  }

  function FirstSignature(blocks: seq<Block>): Option<string> {
    if blocks == [] then None
    else if blocks[0].Thinking? && HasInk(blocks[0].thinking) then blocks[0].thinkingSignature
    else FirstSignature(blocks[1..])
  }

  function Spoken(blocks: seq<Block>, clean: string -> string): string {
    if blocks == [] then ""
    else (if blocks[0].Text? && HasInk(blocks[0].text) then clean(blocks[0].text) else "") + Spoken(blocks[1..], clean)
  }

  function Requested(blocks: seq<Block>): seq<Asked> {
    if blocks == [] then []
    else
      (match blocks[0]
       case ToolCall(id, name, arguments, _) => [Asked(id, name, arguments)]
       case _ => [])
      + Requested(blocks[1..])
  }

  function Pieces(blocks: seq<Block>, clean: string -> string): seq<Piece> {
    if blocks == [] then []
    else
      (match blocks[0]
       case Text(text, _) => [Words(clean(text))]
       case Image(data, mimeType) => [Picture("data:" + mimeType + ";base64," + data)]
       case _ => [])
      + Pieces(blocks[1..], clean)
  }

  function Pictures(blocks: seq<Block>): seq<Piece> {
    if blocks == [] then []
    else
      (match blocks[0]
       case Image(data, mimeType) => [Picture("data:" + mimeType + ";base64," + data)]
       case _ => [])
      + Pictures(blocks[1..])
  }

  /** Tools that results make available: those there are, each once. */
  function Offered(before: seq<string>, names: seq<string>, tools: seq<string>): seq<string> {
    if names == [] then before
    else
      var offered, last := Offered(before, names[..|names| - 1], tools), names[|names| - 1];
      if last in tools && last !in offered then offered + [last] else offered
  }

  /** The text of a result; only one without any gets a placeholder. */
  function ResultText(blocks: seq<Block>): string {
    match Lines(blocks, None)
    case Some(text) => if text != "" then text else Placeholder(blocks)
    case None => Placeholder(blocks)
  }

  function Placeholder(blocks: seq<Block>): string {
    if exists b :: b in blocks && b.Image? then "(see attached image)" else "(no tool output)"
  }

  /** The field that carries the thinking is named by its first signature. */
  function Fields(blocks: seq<Block>, model: Model, compat: Compat): map<string, string> {
    var thoughts := Thoughts(blocks, None, "\n", (t: string) => t);
    var signature := FirstSignature(blocks);
    (if compat.requiresReasoningContent && model.reasoning then map["reasoning_content" := ""] else map[])
    + (if compat.requiresThinkingAsText || thoughts.None? || signature.None? || signature.value == "" then map[]
       else if model.provider == "opencode-go" && signature.value == "reasoning"
       then map["reasoning_content" := thoughts.value]
       else map[signature.value := thoughts.value])
  }

  /** Nothing is sent of a message without text and calls. */
  function AssistantItem(blocks: seq<Block>, model: Model, compat: Compat, clean: string -> string): seq<Item> {
    var thoughts := if compat.requiresThinkingAsText then Thoughts(blocks, None, "\n\n", clean) else None;
    var text := Spoken(blocks, clean);
    if thoughts.None? && text == "" && Requested(blocks) == [] then []
    else
      Speech((if thoughts.Some? then thoughts.value else "") + text, Requested(blocks), Fields(blocks, model, compat))
  }

  function UserItem(content: Content, clean: string -> string): seq<Item> {
    match content
    case Absent => []
    case Plain(text) => [FromUser([Words(clean(text))])]
    case Blocks(blocks) => if Pieces(blocks, clean) == [] then [] else [FromUser(Pieces(blocks, clean))]
  }

  /** What waits for the end of a run of results. */
  function Waiting(pictures: seq<Piece>, offered: seq<string>): seq<Item> {
    (if pictures == [] then [] else [FromUser([Words("Attached image(s) from tool result:")] + pictures)])
    + (if offered == [] then [] else [Offer(offered)])
  }

  /** Message by message: `pictures` and `offered` come from the results just before. */
  function History(messages: seq<Message>, pictures: seq<Piece>, offered: seq<string>, model: Model,
                   tools: seq<string>, compat: Compat, clean: string -> string): seq<Item>
    decreases |messages|
  {
    if messages == [] then Waiting(pictures, offered)
    else
      var rest := messages[1..];
      match messages[0]
      case User(content) =>
        Waiting(pictures, offered) + UserItem(content, clean) + History(rest, [], [], model, tools, compat, clean)
      case Assistant(blocks, _, _, _, _) =>
        Waiting(pictures, offered)
        + AssistantItem(if blocks.Some? then blocks.value else [], model, compat, clean)
        + History(rest, [], [], model, tools, compat, clean)
      case ToolResult(id, name, output, added, _) =>
        var blocks := if output.Some? then output.value else [];
        [FromTool(id, clean(ResultText(blocks)),
                  if compat.requiresToolResultName && name != "" then Some(name) else None)]
        + History(rest, if model.readsImages then pictures + Pictures(blocks) else pictures,
                  if compat.deferredKimi then Offered(offered, added, tools) else offered, model, tools, compat, clean)
  }

  // ---------- One message ----------

  lemma JoinMerges(a: string, b: string, rest: seq<string>, separator: string)
    ensures Text.Join([a + separator + b] + rest, separator) == Text.Join([a] + ([b] + rest), separator)
  {
    var all := [a] + ([b] + rest);
    assert all[1..] == [b] + rest && ([b] + rest)[1..] == rest && ([a + separator + b] + rest)[1..] == rest;
    if rest != [] {
      assert a + separator + b + separator + Text.Join(rest, separator)
             == a + separator + (b + separator + Text.Join(rest, separator));
    }
  }

  lemma {:induction false} LinesAre(blocks: seq<Block>, before: Option<string>)
    ensures Lines(blocks, before)
            == if before.None? && Texts(blocks) == [] then None
               else Some(Text.Join((if before.Some? then [before.value] else []) + Texts(blocks), "\n"))
    decreases |blocks|
  {
    if blocks != [] {
      var rest := Texts(blocks[1..]);
      if !blocks[0].Text? {
        assert Texts(blocks) == rest;
        LinesAre(blocks[1..], before);
      } else if before.None? {
        LinesAre(blocks[1..], Some(blocks[0].text));
        assert [] + Texts(blocks) == [blocks[0].text] + rest;
      } else {
        LinesAre(blocks[1..], Some(before.value + "\n" + blocks[0].text));
        JoinMerges(before.value, blocks[0].text, rest, "\n");
      }
    }
  }

  lemma {:induction false} ThoughtsAre(blocks: seq<Block>, before: Option<string>, separator: string,
                                       clean: string -> string)
    ensures var thoughts := Mapped(InkyThinking(blocks), clean);
            Thoughts(blocks, before, separator, clean)
            == if before.None? && thoughts == [] then None
               else Some(Text.Join((if before.Some? then [before.value] else []) + thoughts, separator))
    decreases |blocks|
  {
    hide HasInk;
    if blocks != [] {
      var rest := Mapped(InkyThinking(blocks[1..]), clean);
      if !blocks[0].Thinking? || !HasInk(blocks[0].thinking) {
        assert InkyThinking(blocks) == InkyThinking(blocks[1..]);
        ThoughtsAre(blocks[1..], before, separator, clean);
      } else {
        var thought := clean(blocks[0].thinking);
        assert InkyThinking(blocks)[1..] == InkyThinking(blocks[1..]);
        assert Mapped(InkyThinking(blocks), clean) == [thought] + rest;
        if before.None? {
          ThoughtsAre(blocks[1..], Some(thought), separator, clean);
          assert [] + ([thought] + rest) == [thought] + rest;
        } else {
          ThoughtsAre(blocks[1..], Some(before.value + separator + thought), separator, clean);
          JoinMerges(before.value, thought, rest, separator);
        }
      }
    }
  }

  lemma JoinTight(first: string, rest: seq<string>)
    ensures Text.Join([first] + rest, "") == first + Text.Join(rest, "")
  {
    assert ([first] + rest)[1..] == rest;
  }

  lemma {:induction false} SpokenIs(blocks: seq<Block>, clean: string -> string)
    ensures Spoken(blocks, clean) == Text.Join(InkyTexts(blocks, clean), "")
  {
    hide HasInk, Text.Join;
    if blocks == [] {
      JoinNothing();
    } else {
      var rest := InkyTexts(blocks[1..], clean);
      SpokenIs(blocks[1..], clean);
      if blocks[0].Text? && HasInk(blocks[0].text) {
        JoinTight(clean(blocks[0].text), rest);
      } else {
        assert InkyTexts(blocks, clean) == rest;
      }
    }
  }

  lemma JoinNothing()
    ensures Text.Join([], "") == ""
  {
  }

  lemma {:induction false} WordsAre(texts: seq<string>)
    ensures WordsOf(TextParts(texts)) == Text.Join(texts, "")
  {
    hide Text.Join;
    if texts == [] {
      JoinNothing();
    } else {
      assert TextParts(texts)[1..] == TextParts(texts[1..]);
      assert [texts[0]] + texts[1..] == texts;
      WordsAre(texts[1..]);
      JoinTight(texts[0], texts[1..]);
    }
  }

  lemma {:induction false} RequestedAre(blocks: seq<Block>)
    ensures CallsMade(CallParams(Calls(blocks))) == Requested(blocks)
    ensures Requested(blocks) == [] <==> CallParams(Calls(blocks)) == []
  {
    if blocks != [] {
      RequestedAre(blocks[1..]);
      if blocks[0].ToolCall? {
        assert Calls(blocks)[1..] == Calls(blocks[1..]);
        assert CallParams(Calls(blocks))[1..] == CallParams(Calls(blocks[1..]));
      } else {
        assert Calls(blocks) == Calls(blocks[1..]);
      }
    }
  }

  lemma {:induction false} PiecesAre(blocks: seq<Block>, clean: string -> string)
    ensures PiecesOf(UserParts(blocks, clean)) == Pieces(blocks, clean)
    ensures Pieces(blocks, clean) == [] <==> UserParts(blocks, clean) == []
  {
    if blocks != [] {
      PiecesAre(blocks[1..], clean);
      if blocks[0].Text? || blocks[0].Image? {
        assert UserParts(blocks, clean)[1..] == UserParts(blocks[1..], clean);
      } else {
        assert UserParts(blocks, clean) == UserParts(blocks[1..], clean);
      }
    }
  }

  lemma {:induction false} PicturesAre(blocks: seq<Block>)
    ensures PiecesOf(ImageParts(blocks)) == Pictures(blocks)
  {
    if blocks != [] {
      PicturesAre(blocks[1..]);
      if blocks[0].Image? {
        assert ImageParts(blocks)[1..] == ImageParts(blocks[1..]);
      } else {
        assert ImageParts(blocks) == ImageParts(blocks[1..]);
      }
    }
  }

  lemma {:induction false} PiecesOfBoth(a: seq<Part>, b: seq<Part>)
    ensures PiecesOf(a + b) == PiecesOf(a) + PiecesOf(b)
  {
    if a == [] {
      assert a + b == b;
    } else {
      assert (a + b)[1..] == a[1..] + b;
      PiecesOfBoth(a[1..], b);
    }
  }

  lemma {:induction false} FirstSignatureIs(blocks: seq<Block>)
    ensures var thinking := InkyThinking(blocks);
            FirstSignature(blocks)
            == if thinking != [] && thinking[0].Thinking? then thinking[0].thinkingSignature else None
  {
    hide HasInk;
    if blocks != [] {
      FirstSignatureIs(blocks[1..]);
      if !(blocks[0].Thinking? && HasInk(blocks[0].thinking)) {
        assert InkyThinking(blocks) == InkyThinking(blocks[1..]);
      }
    }
  }

  lemma {:induction false} InkyIsThinking(blocks: seq<Block>, clean: string -> string)
    ensures forall b :: b in InkyThinking(blocks) ==> b.Thinking?
    ensures Mapped(InkyThinking(blocks), clean) == [] <==> InkyThinking(blocks) == []
  {
    hide HasInk;
    if blocks != [] {
      InkyIsThinking(blocks[1..], clean);
      if !(blocks[0].Thinking? && HasInk(blocks[0].thinking)) {
        assert InkyThinking(blocks) == InkyThinking(blocks[1..]);
      }
    }
  }

  lemma FieldsAre(blocks: seq<Block>, model: Model, compat: Compat)
    ensures AssistantExtra(blocks, model, compat) == Fields(blocks, model, compat)
  {
    hide InkyThinking, Mapped, Thoughts, FirstSignature, Text.Join;
    var same := (t: string) => t;
    ThoughtsAre(blocks, None, "\n", same);
    assert [] + Mapped(InkyThinking(blocks), same) == Mapped(InkyThinking(blocks), same);
    FirstSignatureIs(blocks);
    InkyIsThinking(blocks, same);
  }

  lemma ContentSays(blocks: seq<Block>, compat: Compat, clean: string -> string)
    ensures var content := AssistantContent(blocks, compat, clean);
            var thoughts := if compat.requiresThinkingAsText then Thoughts(blocks, None, "\n\n", clean) else None;
            && WordsIn(content) == (if thoughts.Some? then thoughts.value else "") + Spoken(blocks, clean)
            && (NonEmptyContent(content) <==> thoughts.Some? || Spoken(blocks, clean) != "")
  {
    hide InkyThinking, InkyTexts, Mapped, Thoughts, Text.Join, Spoken, TextParts;
    var thoughts, texts := Mapped(InkyThinking(blocks), clean), InkyTexts(blocks, clean);
    ThoughtsAre(blocks, None, "\n\n", clean);
    assert [] + thoughts == thoughts;
    InkyIsThinking(blocks, clean);
    SpokenIs(blocks, clean);
    WordsAre(texts);
    var thought := Text.Join(thoughts, "\n\n");
    assert ([TextPart(thought)] + TextParts(texts))[1..] == TextParts(texts);
    assert WordsOf([TextPart(thought)] + TextParts(texts)) == thought + WordsOf(TextParts(texts));
  }

  lemma AssistantSays(blocks: seq<Block>, model: Model, compat: Compat, clean: string -> string)
    ensures View(AssistantParams(blocks, model, compat, clean)) == AssistantItem(blocks, model, compat, clean)
  {
    hide AssistantContent, WordsIn, NonEmptyContent, Thoughts, Spoken, Requested, CallParams, Calls, Fields,
      AssistantExtra, CallsMade, Speech;
    ContentSays(blocks, compat, clean);
    RequestedAre(blocks);
    FieldsAre(blocks, model, compat);
    ViewOne(AssistantParam(AssistantContent(blocks, compat, clean), CallParams(Calls(blocks)),
                           AssistantExtra(blocks, model, compat)));
  }

  lemma ViewOne(p: Param)
    ensures View([p]) == ItemOf(p)
  {
    assert ItemOf(p) + [] == ItemOf(p);
  }

  lemma UserSays(content: Content, clean: string -> string)
    ensures View(UserParams(content, clean)) == UserItem(content, clean)
  {
    if content.Blocks? {
      PiecesAre(content.blocks, clean);
    }
  }

  lemma ResultSays(msg: Message, compat: Compat, clean: string -> string)
    requires msg.ToolResult?
    ensures ItemOf(ResultParam(msg, compat, clean))
            == [FromTool(msg.toolCallId, clean(ResultText(Output(msg))),
                         if compat.requiresToolResultName && msg.toolName != "" then Some(msg.toolName) else None)]
  {
    hide Lines, Texts, Text.Join;
    LinesAre(Output(msg), None);
    assert [] + Texts(Output(msg)) == Texts(Output(msg));
    EmptyLines();
  }

  lemma EmptyLines()
    ensures Text.Join([], "\n") == ""
  {
  }

  // ---------- A run of results ----------

  lemma {:induction false} ViewBoth(a: seq<Param>, b: seq<Param>)
    ensures View(a + b) == View(a) + View(b)
  {
    hide ItemOf;
    if a == [] {
      assert a + b == b;
    } else {
      assert (a + b)[1..] == a[1..] + b;
      ViewBoth(a[1..], b);
    }
  }

  lemma {:induction false} KnownMore(names: seq<string>, name: string, tools: seq<string>)
    ensures Known(names + [name], tools) == Known(names, tools) + if name in tools then [name] else []
    ensures forall t :: t in tools ==> (t in Known(names, tools) <==> t in names)
    decreases |names|
  {
    if names == [] {
      assert names + [name] == [name] && [name][1..] == [];
    } else {
      assert (names + [name])[1..] == names[1..] + [name];
      KnownMore(names[1..], name, tools);
    }
  }

  lemma {:induction false} OfferedIs(before: seq<string>, names: seq<string>, tools: seq<string>)
    ensures Known(Unique(before + names), tools) == Offered(Known(Unique(before), tools), names, tools)
    decreases |names|
  {
    hide Known;
    if names == [] {
      assert before + names == before;
    } else {
      var n := |names| - 1;
      assert (before + names)[..|before + names| - 1] == before + names[..n];
      OfferedIs(before, names[..n], tools);
      KnownMore(Unique(before + names[..n]), names[n], tools);
    }
  }

  lemma BridgeIsSilent()
    ensures View([Bridge()]) == []
  {
    ViewOne(Bridge());
  }

  lemma {:induction false} AllImages(results: seq<Message>)
    requires results != []
    ensures PiecesOf(ResultImages(results)) == Pictures(Output(results[0])) + PiecesOf(ResultImages(results[1..]))
  {
    PicturesAre(Output(results[0]));
    PiecesOfBoth(ImageParts(Output(results[0])), ResultImages(results[1..]));
  }

  lemma ImagesSay(images: seq<Part>, compat: Compat)
    ensures View(ImageParams(images, compat)) == Waiting(PiecesOf(images), [])
  {
    var attached := UserParam(Parts([TextPart(ATTACHED)] + images));
    assert ([TextPart(ATTACHED)] + images)[1..] == images;
    ViewOne(attached);
    BridgeIsSilent();
    ViewBoth([Bridge()], [attached]);
  }

  /** What the images and the tools of a run of results add. */
  lemma AfterRunSays(images: seq<Part>, results: seq<Message>, tools: seq<string>, compat: Compat)
    ensures View(ImageParams(images, compat) + DeferredParams(results, tools, compat))
            == Waiting(PiecesOf(images), if compat.deferredKimi then Known(Unique(AddedNames(results)), tools) else [])
  {
    hide Known, Unique, AddedNames, ImageParams, PiecesOf;
    ImagesSay(images, compat);
    ViewBoth(ImageParams(images, compat), DeferredParams(results, tools, compat));
    ViewOne(ToolsParam(Known(Unique(AddedNames(results)), tools)));
  }

  /** What a run of results says, with what came before it in the run. */
  function Run(results: seq<Message>, pictures: seq<Piece>, names: seq<string>, model: Model, tools: seq<string>,
               compat: Compat, clean: string -> string): seq<Item> {
    View(ResultParams(results, compat, clean))
    + Waiting(if model.readsImages then pictures + PiecesOf(ResultImages(results)) else pictures,
              if compat.deferredKimi then Known(Unique(names + AddedNames(results)), tools) else [])
  }

  lemma EmptyRun(pictures: seq<Piece>, names: seq<string>, model: Model, tools: seq<string>, compat: Compat,
                 clean: string -> string)
    ensures Run([], pictures, names, model, tools, compat, clean)
            == Waiting(pictures, if compat.deferredKimi then Known(Unique(names), tools) else [])
  {
    assert names + [] == names && pictures + [] == pictures;
  }

  lemma RunMore(results: seq<Message>, pictures: seq<Piece>, names: seq<string>, model: Model, tools: seq<string>,
                compat: Compat, clean: string -> string)
    requires results != [] && results[0].ToolResult?
    ensures var m := results[0];
            Run(results, pictures, names, model, tools, compat, clean)
            == ItemOf(ResultParam(m, compat, clean))
               + Run(results[1..], if model.readsImages then pictures + Pictures(Output(m)) else pictures,
                     names + m.addedToolNames, model, tools, compat, clean)
  {
    hide ItemOf, ResultParam, Waiting, Known, Unique, Output, Pictures, ResultImages;
    var m := results[0];
    AllImages(results);
    var rest := PiecesOf(ResultImages(results[1..]));
    assert pictures + Pictures(Output(m)) + rest == pictures + (Pictures(Output(m)) + rest);
    assert names + m.addedToolNames + AddedNames(results[1..]) == names + (m.addedToolNames + AddedNames(results[1..]));
    assert ResultParams(results, compat, clean)[1..] == ResultParams(results[1..], compat, clean);
  }

  lemma WaitingEnds(messages: seq<Message>, pictures: seq<Piece>, offered: seq<string>, model: Model,
                    tools: seq<string>, compat: Compat, clean: string -> string)
    requires messages == [] || !messages[0].ToolResult?
    ensures History(messages, pictures, offered, model, tools, compat, clean)
            == Waiting(pictures, offered) + History(messages, [], [], model, tools, compat, clean)
  {
    hide AssistantItem, UserItem;
  }

  lemma ResultWaits(messages: seq<Message>, pictures: seq<Piece>, offered: seq<string>, model: Model,
                    tools: seq<string>, compat: Compat, clean: string -> string)
    requires messages != [] && messages[0].ToolResult?
    ensures var m := messages[0];
            History(messages, pictures, offered, model, tools, compat, clean)
            == ItemOf(ResultParam(m, compat, clean))
               + History(messages[1..], if model.readsImages then pictures + Pictures(Output(m)) else pictures,
                         if compat.deferredKimi then Offered(offered, m.addedToolNames, tools) else offered, model,
                         tools, compat, clean)
  {
    hide ItemOf, ResultParam, Pictures, Offered, ResultText;
    ResultSays(messages[0], compat, clean);
  }

  lemma {:induction false} RunSays(messages: seq<Message>, pictures: seq<Piece>, names: seq<string>, model: Model,
                                   tools: seq<string>, compat: Compat, clean: string -> string)
    ensures var n := ResultCount(messages);
            History(messages, pictures, if compat.deferredKimi then Known(Unique(names), tools) else [], model, tools,
                    compat, clean)
            == Run(messages[..n], pictures, names, model, tools, compat, clean)
               + History(messages[n..], [], [], model, tools, compat, clean)
    decreases |messages|
  {
    hide Run, Known, Unique, ResultParam, ItemOf, Pictures, History, Offered, Output, Waiting;
    var n := ResultCount(messages);
    var offered := if compat.deferredKimi then Known(Unique(names), tools) else [];
    if n == 0 {
      EmptyRun(pictures, names, model, tools, compat, clean);
      WaitingEnds(messages, pictures, offered, model, tools, compat, clean);
    } else {
      ResultWaits(messages, pictures, offered, model, tools, compat, clean);
      var m, rest := messages[0], messages[1..];
      assert messages[..n][1..] == rest[..n - 1] && messages[n..] == rest[n - 1..];
      RunMore(messages[..n], pictures, names, model, tools, compat, clean);
      OfferedIs(names, m.addedToolNames, tools);
      RunSays(rest, if model.readsImages then pictures + Pictures(Output(m)) else pictures, names + m.addedToolNames,
              model, tools, compat, clean);
    }
  }

  // ---------- The whole request ----------

  lemma RunOfResultsSays(results: seq<Message>, model: Model, tools: seq<string>, compat: Compat,
                         clean: string -> string)
    ensures var images := if model.readsImages then ResultImages(results) else [];
            View(ResultParams(results, compat, clean) + ImageParams(images, compat)
                 + DeferredParams(results, tools, compat))
            == Run(results, [], [], model, tools, compat, clean)
  {
    hide ResultParams, ImageParams, DeferredParams, ResultImages, Known, Unique, Waiting;
    var images := if model.readsImages then ResultImages(results) else [];
    var a, b, c := ResultParams(results, compat, clean), ImageParams(images, compat),
                   DeferredParams(results, tools, compat);
    assert a + b + c == a + (b + c);
    ViewBoth(a, b + c);
    AfterRunSays(images, results, tools, compat);
    assert [] + AddedNames(results) == AddedNames(results);
    assert [] + PiecesOf(ResultImages(results)) == PiecesOf(ResultImages(results));
  }

  lemma {:induction false} ConvertSays(messages: seq<Message>, last: Role, model: Model, tools: seq<string>,
                                       compat: Compat, clean: string -> string)
    ensures View(Convert(messages, last, model, tools, compat, clean))
            == History(messages, [], [], model, tools, compat, clean)
    decreases |messages|
  {
    hide View, UserParams, UserItem, AssistantParams, AssistantItem, Run, ResultParams, ImageParams, DeferredParams,
      ResultImages, Known, Unique, ResultText, Bridge;
    if messages == [] {
      NothingSaid();
    } else {
      var msg, rest := messages[0], messages[1..];
      match msg
      case User(content) =>
        var params := UserParams(content, clean);
        var bridge := if compat.requiresAssistantAfterToolResult && last.ResultRole? then [Bridge()] else [];
        var next := if params == [] then last else UserRole;
        var tail := Convert(rest, next, model, tools, compat, clean);
        ConvertSays(rest, next, model, tools, compat, clean);
        UserSays(content, clean);
        BridgeIsSilent();
        NothingSaid();
        ViewThree(bridge, params, tail);
        assert View(bridge) == [];
      case Assistant(blocks, _, _, _, _) =>
        var params := AssistantParams(if blocks.Some? then blocks.value else [], model, compat, clean);
        var next := if params == [] then last else AssistantRole;
        ConvertSays(rest, next, model, tools, compat, clean);
        AssistantSays(if blocks.Some? then blocks.value else [], model, compat, clean);
        ViewBoth(params, Convert(rest, next, model, tools, compat, clean));
      case ToolResult(_, _, _, _, _) =>
        var n := ResultCount(messages);
        var images := if model.readsImages then ResultImages(messages[..n]) else [];
        var next := if images == [] then ResultRole else UserRole;
        RunConverts(messages, last, model, tools, compat, clean);
        ConvertSays(messages[n..], next, model, tools, compat, clean);
        RunOfResultsSays(messages[..n], model, tools, compat, clean);
        NoneKnown(tools);
        RunSays(messages, [], [], model, tools, compat, clean);
        ViewBoth(ResultParams(messages[..n], compat, clean) + ImageParams(images, compat)
                 + DeferredParams(messages[..n], tools, compat),
                 Convert(messages[n..], next, model, tools, compat, clean));
    }
  }

  lemma NothingSaid()
    ensures View([]) == []
  {
  }

  lemma NoneKnown(tools: seq<string>)
    ensures Known(Unique([]), tools) == []
  {
  }

  lemma ViewThree(a: seq<Param>, b: seq<Param>, c: seq<Param>)
    ensures View(a + b + c) == View(a) + View(b) + View(c)
  {
    ViewBoth(a + b, c);
    ViewBoth(a, b);
  }

  /** A request says what the transformed history says, in its order, and nothing else: every text, image, call
      and result, and a placeholder exactly for a result without text. */
  lemma RequestSaysHistory(systemPrompt: string, messages: seq<Message>, model: Model, tools: seq<string>,
                           compat: Compat, clean: string -> string)
    ensures View(ConvertMessages(systemPrompt, messages, model, tools, compat, clean))
            == (if systemPrompt == "" then []
                else [System(if model.reasoning && compat.supportsDeveloperRole then "developer" else "system",
                             clean(systemPrompt))])
               + History(Transform(messages, model, CompletionsNormalizer(model)), [], [], model, tools, compat, clean)
  {
    hide Convert, Transform, CompletionsNormalizer, History;
    var transformed := Transform(messages, model, CompletionsNormalizer(model));
    var system := if systemPrompt == "" then [] else [SystemParam(systemPrompt, model, compat, clean)];
    ViewBoth(system, Convert(transformed, NoRole, model, tools, compat, clean));
    ConvertSays(transformed, NoRole, model, tools, compat, clean);
    ViewOne(SystemParam(systemPrompt, model, compat, clean));
  }

  // ---------- What the transformation of blocks keeps ----------

  /** The words of another model's message: its texts, and its thinking unless that is redacted or blank. */
  function Voiced(blocks: seq<Block>): seq<string> {
    if blocks == [] then []
    else
      (match blocks[0]
       case Text(text, _) => [text]
       case Thinking(thinking, _, redacted) => if !redacted && HasInk(thinking) then [thinking] else []
       case _ => [])
      + Voiced(blocks[1..])
  }

  /** A model gets its own blocks back, without blank thinking that is neither signed nor redacted. */
  function Owned(blocks: seq<Block>): seq<Block> {
    if blocks == [] then []
    else
      (match blocks[0]
       case Thinking(thinking, signature, redacted) =>
         if redacted || HasInk(thinking) || (signature.Some? && signature.value != "") then [blocks[0]] else []
       case _ => [blocks[0]])
      + Owned(blocks[1..])
  }

  /** The calls with the ids they go out under. */
  function Renumbered(calls: seq<Asked>, msg: Message, norm: Normalizer): seq<Asked> {
    if calls == [] then [] else [calls[0].(id := norm(calls[0].id, msg))] + Renumbered(calls[1..], msg, norm)
  }

  /** Nothing of the other model's signatures is left. */
  predicate Unsigned(block: Block) {
    match block
    case Text(_, signature) => signature.None?
    case Thinking(_, _, _) => false
    case ToolCall(_, _, _, signature) => !Given(signature)
    case Image(_, _) => true
  }

  lemma {:induction false} OwnBlocksStay(blocks: seq<Block>, msg: Message, model: Model, norm: Normalizer)
    requires msg.Assistant? && SameModel(msg, model)
    ensures TransformBlocks(blocks, msg, model, norm) == Owned(blocks)
  {
    hide HasInk;
    if blocks != [] {
      OwnBlocksStay(blocks[1..], msg, model, norm);
    }
  }

  lemma {:induction false} TextsBoth(a: seq<Block>, b: seq<Block>)
    ensures Texts(a + b) == Texts(a) + Texts(b)
  {
    if a == [] {
      assert a + b == b;
    } else {
      assert (a + b)[1..] == a[1..] + b;
      TextsBoth(a[1..], b);
    }
  }

  lemma {:induction false} RequestedBoth(a: seq<Block>, b: seq<Block>)
    ensures Requested(a + b) == Requested(a) + Requested(b)
  {
    if a == [] {
      assert a + b == b;
    } else {
      assert (a + b)[1..] == a[1..] + b;
      RequestedBoth(a[1..], b);
    }
  }

  lemma {:induction false} PicturesBoth(a: seq<Block>, b: seq<Block>)
    ensures Pictures(a + b) == Pictures(a) + Pictures(b)
  {
    if a == [] {
      assert a + b == b;
    } else {
      assert (a + b)[1..] == a[1..] + b;
      PicturesBoth(a[1..], b);
    }
  }

  lemma OthersBlockStays(block: Block, msg: Message, model: Model, norm: Normalizer)
    requires msg.Assistant? && !SameModel(msg, model)
    ensures var out := TransformBlock(block, msg, model, norm);
            && Texts(out) == Voiced([block]) && Pictures(out) == Pictures([block])
            && Requested(out) == Renumbered(Requested([block]), msg, norm)
            && forall b :: b in out ==> Unsigned(b)
  {
    hide HasInk;
    assert [block][1..] == [];
  }

  /** Of another model's message all words, calls and images stay, in their order. */
  lemma {:induction false} OthersBlocksStay(blocks: seq<Block>, msg: Message, model: Model, norm: Normalizer)
    requires msg.Assistant? && !SameModel(msg, model)
    ensures var out := TransformBlocks(blocks, msg, model, norm);
            && Texts(out) == Voiced(blocks)
            && Requested(out) == Renumbered(Requested(blocks), msg, norm)
            && Pictures(out) == Pictures(blocks)
            && forall b :: b in out ==> Unsigned(b)
  {
    hide HasInk, TransformBlock, Texts, Pictures, Requested, Voiced;
    if blocks == [] {
      NoBlocks();
    } else {
      OthersBlocksStay(blocks[1..], msg, model, norm);
      OthersBlockStays(blocks[0], msg, model, norm);
      var first, rest := TransformBlock(blocks[0], msg, model, norm), TransformBlocks(blocks[1..], msg, model, norm);
      TextsBoth(first, rest);
      PicturesBoth(first, rest);
      PicturesBoth([blocks[0]], blocks[1..]);
      RequestedBoth(first, rest);
      RequestedBoth([blocks[0]], blocks[1..]);
      VoicedBoth(blocks);
      RenumberedBoth(Requested([blocks[0]]), Requested(blocks[1..]), msg, norm);
      assert [blocks[0]] + blocks[1..] == blocks;
    }
  }

  lemma NoBlocks()
    ensures Texts([]) == [] && Pictures([]) == [] && Requested([]) == [] && Voiced([]) == []
  {
  }

  lemma VoicedBoth(blocks: seq<Block>)
    requires blocks != []
    ensures Voiced(blocks) == Voiced([blocks[0]]) + Voiced(blocks[1..])
  {
    hide HasInk;
    assert [blocks[0]][1..] == [];
  }

  lemma {:induction false} RenumberedBoth(a: seq<Asked>, b: seq<Asked>, msg: Message, norm: Normalizer)
    ensures Renumbered(a + b, msg, norm) == Renumbered(a, msg, norm) + Renumbered(b, msg, norm)
  {
    if a == [] {
      assert a + b == b;
    } else {
      assert (a + b)[1..] == a[1..] + b;
      RenumberedBoth(a[1..], b, msg, norm);
    }
  }

  // ---------- What images are replaced by ----------

  /** The blocks other than images and placeholders. */
  function Apart(blocks: seq<Block>, placeholder: string): seq<Block> {
    if blocks == [] then []
    else (if blocks[0].Image? || (blocks[0].Text? && blocks[0].text == placeholder) then [] else [blocks[0]])
         + Apart(blocks[1..], placeholder)
  }

  /** Nothing but images goes, nothing but placeholders comes, and an image leaves one behind. */
  lemma {:induction false} OnlyImagesAreReplaced(blocks: seq<Block>, placeholder: string, afterOne: bool)
    ensures var out := PlaceholderTail(blocks, placeholder, afterOne);
            && (forall b :: b in out ==> !b.Image?)
            && Apart(out, placeholder) == Apart(blocks, placeholder)
            && (!afterOne && (exists b :: b in blocks && b.Image?) ==>
                  exists b :: b in out && b.Text? && b.text == placeholder)
  {
    if blocks != [] {
      var first, rest := blocks[0], blocks[1..];
      var next := first.Image? || (first.Text? && first.text == placeholder);
      var out, tail := PlaceholderTail(blocks, placeholder, afterOne), PlaceholderTail(rest, placeholder, next);
      OnlyImagesAreReplaced(rest, placeholder, next);
      assert PlaceholderTail(rest, placeholder, first.Image? || (first.Text? && first.text == placeholder)) == tail;
      if first.Image? && afterOne {
        assert out == tail;
      } else {
        assert out[1..] == tail && out == [out[0]] + tail;
      }
    }
  }
}
