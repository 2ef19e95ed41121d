/** Translating chat requests between the Anthropic and the OpenAI formats. */
module RequestTranslation {
  import opened Wrappers
  import opened Text
  import opened DataUrls

  /** A JSON value the translators copy without looking inside. */
  datatype Json = Json(text: string)

  /** A field's value: `.get` makes an explicit null of an absent one. */
  datatype Nullable = Null | Str(text: string)

  const EMPTY_SCHEMA := Json("{\"type\": \"object\", \"properties\": {}}")

  // ------------------------------------------------------------------ Anthropic requests

  datatype ImageSource = Base64(mediaType: Option<string>, data: Option<string>) | OtherSource

  datatype Block = TextBlock(text: Option<string>) | ImageBlock(source: Option<ImageSource>) | OtherBlock

  datatype Content = Plain(text: string) | Blocks(blocks: seq<Block>)

  datatype Message = Message(role: Option<string>, content: Content)

  datatype SystemPart = SystemPart(isText: bool, text: Option<string>)

  datatype System = SystemText(text: string) | SystemParts(parts: seq<SystemPart>)

  datatype Tool = Tool(name: Option<Nullable>, description: Option<Nullable>, inputSchema: Option<Json>)

  datatype Choice = AutoChoice | AnyChoice | ToolChoice(name: Option<Nullable>) | OtherChoice

  datatype AnthropicRequest = AnthropicRequest(
    model: Option<string>, stream: Option<bool>, temperature: Option<real>, maxTokens: Option<int>,
    system: Option<System>, messages: Option<seq<Message>>, tools: Option<seq<Tool>>, toolChoice: Option<Choice>)

  // ------------------------------------------------------------------ OpenAI requests

  datatype Part = TextPart(text: Option<string>) | ImagePart(url: Option<string>) | OtherPart

  datatype OContent = OPlain(text: string) | OParts(parts: seq<Part>)

  datatype OMessage = OMessage(role: Option<string>, content: OContent)

  datatype Function = Function(name: Option<Nullable>, description: Option<Nullable>, parameters: Option<Json>)

  datatype OTool = OFunction(fn: Option<Function>) | OOther

  datatype OChoice = ONamed(word: string) | OFunctionChoice(name: Option<Nullable>) | OOtherChoice

  datatype OpenAIRequest = OpenAIRequest(
    model: Option<string>, stream: Option<bool>, temperature: Option<real>,
    maxTokens: Option<int>, maxCompletionTokens: Option<int>,
    messages: Option<seq<OMessage>>, tools: Option<seq<OTool>>, toolChoice: Option<OChoice>)

  // ------------------------------------------------------------------ Anthropic to OpenAI

  /** The parts a block becomes: one, or none when it is dropped. */
  function PartOf(b: Block): seq<Part> {
    match b
    case TextBlock(text) => [TextPart(Some(text.Or("")))]
    case ImageBlock(Some(Base64(mediaType, data))) =>
      [ImagePart(Some(Build(mediaType.Or("image/jpeg"), data.Or(""))))]
    case _ => []
  }

  function PartsOf(blocks: seq<Block>): seq<Part> {
    if blocks == [] then [] else PartsOf(blocks[..|blocks| - 1]) + PartOf(blocks[|blocks| - 1])
  }

  function OContentOf(c: Content): OContent {
    match c
    case Plain(text) => OPlain(text)
    case Blocks(blocks) => if PartsOf(blocks) == [] then OPlain("") else OParts(PartsOf(blocks))
  }

  function OMessageOf(m: Message): OMessage { OMessage(m.role, OContentOf(m.content)) }

  function OMessagesOf(ms: seq<Message>): seq<OMessage> {
    seq(|ms|, i requires 0 <= i < |ms| => OMessageOf(ms[i]))
  }

  function TextsOf(parts: seq<SystemPart>): seq<string> {
    if parts == [] then []
    else TextsOf(parts[..|parts| - 1])
         + if parts[|parts| - 1].isText then [parts[|parts| - 1].text.Or("")] else []
  }

  /** `"\n".join`. */
  function JoinLines(texts: seq<string>): string {
    if texts == [] then "" else if |texts| == 1 then texts[0] else texts[0] + "\n" + JoinLines(texts[1..])
  }

  function SystemMessages(system: Option<System>): seq<OMessage> {
    var text := match system
                case None => ""
                case Some(SystemText(text)) => text
                case Some(SystemParts(parts)) => JoinLines(TextsOf(parts));
    if text == "" then [] else [OMessage(Some("system"), OPlain(text))]
  }

  function OToolOf(t: Tool): OTool {
    OFunction(Some(Function(Some(t.name.Or(Null)), Some(t.description.Or(Str(""))),
        Some(t.inputSchema.Or(EMPTY_SCHEMA)))))
  }

  function OToolsOf(ts: seq<Tool>): seq<OTool> {
    seq(|ts|, i requires 0 <= i < |ts| => OToolOf(ts[i]))
  }

  function OChoiceOf(c: Option<Choice>): Option<OChoice> {
    match c
    case Some(AutoChoice) => Some(ONamed("auto"))
    case Some(AnyChoice) => Some(ONamed("required"))
    case Some(ToolChoice(name)) => Some(OFunctionChoice(Some(name.Or(Null))))
    case _ => None
  }

  function ToOpenAI(a: AnthropicRequest): OpenAIRequest {
    OpenAIRequest(
      Some(a.model.Or("gpt-4o")), Some(a.stream.Or(false)), a.temperature, a.maxTokens, None,
      Some(SystemMessages(a.system) + OMessagesOf(a.messages.Or([]))),
      if a.tools.Or([]) == [] then None else Some(OToolsOf(a.tools.value)),
      if a.tools == None then None else OChoiceOf(a.toolChoice))
  }

  // ------------------------------------------------------------------ OpenAI to Anthropic

  function BlockOf(p: Part): seq<Block> {
    match p
    case TextPart(text) => [TextBlock(Some(text.Or("")))]
    case ImagePart(url) =>
      (match Parse(url.Or(""))
       case NoImage => []
       case Image(mediaType, data) => [ImageBlock(Some(Base64(Some(mediaType), Some(data))))])
    case OtherPart => []
  }

  function BlocksOf(parts: seq<Part>): seq<Block> {
    if parts == [] then [] else BlocksOf(parts[..|parts| - 1]) + BlockOf(parts[|parts| - 1])
  }

  function ContentOf(c: OContent): Content {
    match c
    case OPlain(text) => Plain(text)
    case OParts(parts) => if BlocksOf(parts) == [] then Plain("") else Blocks(BlocksOf(parts))
  }

  function RoleOf(role: Option<string>): Option<string> {
    if role == Some("assistant") || role == Some("user") then role else Some("user")
  }

  function MessageOf(m: OMessage): Message { Message(RoleOf(m.role), ContentOf(m.content)) }

  predicate IsSystem(m: OMessage) { m.role == Some("system") }

  function Conversation(ms: seq<OMessage>): seq<Message> {
    if ms == [] then []
    else Conversation(ms[..|ms| - 1]) + if IsSystem(ms[|ms| - 1]) then [] else [MessageOf(ms[|ms| - 1])]
  }

  /** `str(content)`; how Python prints a list of parts is a parameter. */
  function Show(c: OContent, repr: seq<Part> -> string): string {
    if c.OPlain? then c.text else repr(c.parts)
  }

  function SystemTexts(ms: seq<OMessage>, repr: seq<Part> -> string): seq<string> {
    if ms == [] then []
    else SystemTexts(ms[..|ms| - 1], repr)
         + if IsSystem(ms[|ms| - 1]) then [Show(ms[|ms| - 1].content, repr)] else []
  }

  function ToolOf(t: OTool): seq<Tool> {
    match t
    case OFunction(f) =>
      var f := f.Or(Function(None, None, None));
      [Tool(Some(f.name.Or(Null)), Some(f.description.Or(Str(""))), Some(f.parameters.Or(EMPTY_SCHEMA)))]
    case OOther => []
  }

  function ToolsOf(ts: seq<OTool>): seq<Tool> {
    if ts == [] then [] else ToolsOf(ts[..|ts| - 1]) + ToolOf(ts[|ts| - 1])
  }

  function ChoiceOf(c: Option<OChoice>): Option<Choice> {
    match c
    case Some(OFunctionChoice(name)) => Some(ToolChoice(Some(name.Or(Null))))
    case Some(ONamed(name)) =>
      if name == "required" then Some(AnyChoice) else if name == "auto" then Some(AutoChoice) else None
    case _ => None
  }

  function NonZero(n: Option<int>): Option<int> { if n == Some(0) then None else n }

  function ToAnthropic(o: OpenAIRequest, repr: seq<Part> -> string): AnthropicRequest {
    var messages, texts := o.messages.Or([]), SystemTexts(o.messages.Or([]), repr);
    AnthropicRequest(
      Some(o.model.Or("claude-3-5-sonnet-20241022")), Some(o.stream.Or(false)), o.temperature,
      Some(NonZero(o.maxTokens).Or(NonZero(o.maxCompletionTokens).Or(4096))),
      if texts == [] then None else Some(SystemText(JoinLines(texts))),
      Some(Conversation(messages)),
      if ToolsOf(o.tools.Or([])) == [] then None else Some(ToolsOf(o.tools.Or([]))),
      if o.tools == None then None else ChoiceOf(o.toolChoice))
  }

  // ------------------------------------------------------------------ what survives the round trip

  ghost predicate GoodBlock(b: Block) {
    match b
    case TextBlock(text) => text.Some?
    case ImageBlock(Some(Base64(Some(mediaType), Some(data)))) => Clean(mediaType, data)
    case _ => false
  }

  ghost predicate GoodBlocks(blocks: seq<Block>) {
    forall i :: 0 <= i < |blocks| ==> GoodBlock(blocks[i])
  }

  ghost predicate GoodContent(c: Content) {
    c.Blocks? ==> c.blocks != [] && GoodBlocks(c.blocks)
  }

  ghost predicate GoodMessage(m: Message) {
    (m.role == Some("user") || m.role == Some("assistant")) && GoodContent(m.content)
  }

  ghost predicate GoodMessages(ms: seq<Message>) {
    forall i :: 0 <= i < |ms| ==> GoodMessage(ms[i])
  }

  predicate GoodTool(t: Tool) { t.name.Some? && t.description.Some? && t.inputSchema.Some? }

  predicate GoodTools(ts: seq<Tool>) {
    ts != [] && forall i :: 0 <= i < |ts| ==> GoodTool(ts[i])
  }

  /** A choice that comes back: a named tool must have its name, if only a null. */
  predicate GoodChoice(c: Choice) { c != OtherChoice && (c.ToolChoice? ==> c.name.Some?) }

  /** The requests whose every field is present in the form the translators keep. */
  ghost predicate Complete(a: AnthropicRequest) {
    && a.model.Some? && a.stream.Some? && a.maxTokens.Some? && a.maxTokens != Some(0)
    && (a.system == None || (a.system.value.SystemText? && a.system.value.text != ""))
    && a.messages.Some? && GoodMessages(a.messages.value)
    && (a.tools.Some? ==> GoodTools(a.tools.value))
    && (a.toolChoice.Some? ==> a.tools.Some? && GoodChoice(a.toolChoice.value))
  }

  // ---- blocks

  /** A block and back: itself, something else, or nothing. */
  function BlockBack(b: Block): seq<Block> { BlocksOf(PartOf(b)) }

  lemma BlockSurvives(b: Block)
    ensures |BlockBack(b)| <= 1
    ensures BlockBack(b) == [b] <==> GoodBlock(b)
  {
    hide Parse, Build, Clean;
    OnePart(PartOf(b));
    match b
    case ImageBlock(Some(Base64(mediaType, data))) =>
      DataUrlRoundTrip(mediaType.Or("image/jpeg"), data.Or(""));
    case _ =>
  }

  lemma OnePart(parts: seq<Part>)
    requires |parts| <= 1
    ensures BlocksOf(parts) == if parts == [] then [] else BlockOf(parts[0])
  {
    hide BlockOf;
    assert parts != [] ==> parts[..0] == [];
  }

  lemma {:induction false} BlocksOfAppend(a: seq<Part>, b: seq<Part>)
    ensures BlocksOf(a + b) == BlocksOf(a) + BlocksOf(b)
    decreases |b|
  {
    hide BlockOf;
    if b == [] {
      assert a + b == a;
    } else {
      assert (a + b)[..|a + b| - 1] == a + b[..|b| - 1];
      BlocksOfAppend(a, b[..|b| - 1]);
    }
  }

  function BlocksBack(blocks: seq<Block>): seq<Block> { BlocksOf(PartsOf(blocks)) }

  /** A block list comes back as it was exactly when every block does: a dropped block shortens it. */
  lemma {:induction false} BlocksSurvive(blocks: seq<Block>)
    ensures |BlocksBack(blocks)| <= |blocks|
    ensures BlocksBack(blocks) == blocks <==> GoodBlocks(blocks)
  {
    hide *;
    if blocks == [] {
      EmptySurvives();
    } else {
      LastGood(blocks);
      var init, last := blocks[..|blocks| - 1], blocks[|blocks| - 1];
      BlocksSurvive(init);
      BlocksBackGrows(blocks);
      BlockSurvives(last);
      assert blocks == init + [last];
      LastApart(BlocksBack(init), BlockBack(last), init, last);
    }
  }

  lemma EmptySurvives()
    ensures BlocksBack([]) == [] && GoodBlocks([])
  {
  }

  lemma LastGood(blocks: seq<Block>)
    requires blocks != []
    ensures GoodBlocks(blocks) <==> GoodBlocks(blocks[..|blocks| - 1]) && GoodBlock(blocks[|blocks| - 1])
  {
    hide GoodBlock;
    var init := blocks[..|blocks| - 1];
    assert forall i :: 0 <= i < |init| ==> init[i] == blocks[i];
  }

  lemma BlocksBackGrows(blocks: seq<Block>)
    requires blocks != []
    ensures BlocksBack(blocks) == BlocksBack(blocks[..|blocks| - 1]) + BlockBack(blocks[|blocks| - 1])
  {
    hide BlockOf, PartOf, BlocksOf;
    BlocksOfAppend(PartsOf(blocks[..|blocks| - 1]), PartOf(blocks[|blocks| - 1]));
  }

  /** Two lists with at most one element after a shorter part are equal piece by piece. */
  lemma LastApart<T>(a: seq<T>, b: seq<T>, init: seq<T>, last: T)
    requires |a| <= |init| && |b| <= 1
    ensures a + b == init + [last] <==> a == init && b == [last]
  {
    if a + b == init + [last] {
      assert |a| == |init| && |b| == 1;
      assert a == (a + b)[..|a|] == init;
      assert b[0] == (a + b)[|a|] == last;
    }
  }

  // ---- messages

  function ContentBack(c: Content): Content { ContentOf(OContentOf(c)) }

  lemma ContentSurvives(c: Content)
    ensures ContentBack(c) == c <==> GoodContent(c)
  {
    hide PartsOf, BlocksOf, GoodBlocks;
    if c.Blocks? {
      BlocksSurvive(c.blocks);
      NoBlocks();
    }
  }

  lemma NoBlocks()
    ensures BlocksOf([]) == []
  {
  }

  /** The conversation part of a message list, translated and back. */
  function MessagesBack(ms: seq<Message>): seq<Message> { Conversation(OMessagesOf(ms)) }

  /** One message and back: dropped if it is a system message. */
  function MessageBack(m: Message): seq<Message> {
    if IsSystem(OMessageOf(m)) then [] else [MessageOf(OMessageOf(m))]
  }

  lemma MessageSurvives(m: Message)
    ensures |MessageBack(m)| <= 1 && (MessageBack(m) == [m] <==> GoodMessage(m))
  {
    ContentSurvives(m.content);
    hide ContentOf, OContentOf, GoodContent;
  }

  lemma MessagesBackGrows(ms: seq<Message>)
    requires ms != []
    ensures MessagesBack(ms) == MessagesBack(ms[..|ms| - 1]) + MessageBack(ms[|ms| - 1])
  {
    hide OMessageOf, MessageOf;
    assert OMessagesOf(ms)[..|ms| - 1] == OMessagesOf(ms[..|ms| - 1]);
  }

  lemma LastMessageGood(ms: seq<Message>)
    ensures ms == [] ==> GoodMessages(ms) && MessagesBack(ms) == []
    ensures ms != [] ==> (GoodMessages(ms) <==> GoodMessages(ms[..|ms| - 1]) && GoodMessage(ms[|ms| - 1]))
  {
    hide GoodMessage;
    if ms != [] {
      var init := ms[..|ms| - 1];
      assert forall i :: 0 <= i < |init| ==> init[i] == ms[i];
    }
  }

  lemma {:induction false} MessagesSurvive(ms: seq<Message>)
    ensures |MessagesBack(ms)| <= |ms|
    ensures MessagesBack(ms) == ms <==> GoodMessages(ms)
  {
    hide *;
    LastMessageGood(ms);
    if ms != [] {
      var init, last := ms[..|ms| - 1], ms[|ms| - 1];
      MessagesSurvive(init);
      MessagesBackGrows(ms);
      MessageSurvives(last);
      assert ms == init + [last];
      LastApart(MessagesBack(init), MessageBack(last), init, last);
    }
  }

  lemma {:induction false} ConversationAppend(a: seq<OMessage>, b: seq<OMessage>)
    ensures Conversation(a + b) == Conversation(a) + Conversation(b)
    decreases |b|
  {
    hide MessageOf;
    if b == [] {
      assert a + b == a;
    } else {
      assert (a + b)[..|a + b| - 1] == a + b[..|b| - 1];
      ConversationAppend(a, b[..|b| - 1]);
    }
  }

  /** System messages leave no trace in the conversation. */
  lemma SystemApart(system: Option<System>, ms: seq<Message>)
    ensures Conversation(SystemMessages(system) + OMessagesOf(ms)) == MessagesBack(ms)
  {
    var front := SystemMessages(system);
    ConversationAppend(front, OMessagesOf(ms));
    hide OMessagesOf;
    assert front != [] ==> front[..0] == [] && IsSystem(front[0]);
    assert Conversation(front) == [];
    assert [] + MessagesBack(ms) == MessagesBack(ms);
  }

  lemma {:induction false} NoSystemTexts(front: seq<OMessage>, ms: seq<Message>, repr: seq<Part> -> string)
    requires GoodMessages(ms)
    ensures SystemTexts(front + OMessagesOf(ms), repr) == SystemTexts(front, repr)
    decreases |ms|
  {
    if ms == [] {
      assert front + OMessagesOf(ms) == front;
    } else {
      hide *;
      var init, last := ms[..|ms| - 1], ms[|ms| - 1];
      LastSpeaks(ms);
      NoSystemTexts(front, init, repr);
      assert front + OMessagesOf(ms) == (front + OMessagesOf(init)) + [OMessageOf(last)];
      NotASystemText(front + OMessagesOf(init), OMessageOf(last), repr);
    }
  }

  lemma LastSpeaks(ms: seq<Message>)
    requires GoodMessages(ms) && ms != []
    ensures var init, last := ms[..|ms| - 1], ms[|ms| - 1];
            GoodMessages(init) && OMessagesOf(ms) == OMessagesOf(init) + [OMessageOf(last)]
                && !IsSystem(OMessageOf(last))
  {
    assert GoodMessage(ms[|ms| - 1]);
  }

  lemma NotASystemText(front: seq<OMessage>, m: OMessage, repr: seq<Part> -> string)
    requires !IsSystem(m)
    ensures SystemTexts(front + [m], repr) == SystemTexts(front, repr)
  {
    hide IsSystem, Show;
    assert (front + [m])[..|front|] == front;
  }

  /** With only user and assistant messages, the system prompt comes back joined into one text. */
  lemma SystemBack(system: Option<System>, ms: seq<Message>, repr: seq<Part> -> string)
    requires GoodMessages(ms)
    ensures var front := SystemMessages(system);
            SystemTexts(front + OMessagesOf(ms), repr) == if front == [] then [] else [front[0].content.text]
  {
    var front := SystemMessages(system);
    NoSystemTexts(front, ms, repr);
    hide OMessagesOf, JoinLines, TextsOf;
    assert front != [] ==> front[..0] == [];
  }

  // ---- tools

  lemma {:induction false} ToolsSurvive(ts: seq<Tool>)
    ensures |ToolsOf(OToolsOf(ts))| == |ts|
    ensures ToolsOf(OToolsOf(ts)) == ts
            <==> forall i :: 0 <= i < |ts| ==> GoodTool(ts[i])
  {
    if ts != [] {
      var init, last := ts[..|ts| - 1], ts[|ts| - 1];
      ToolsSurvive(init);
      assert OToolsOf(ts)[..|ts| - 1] == OToolsOf(init);
      assert ts == init + [last];
      LastApart(ToolsOf(OToolsOf(init)), ToolOf(OToolOf(last)), init, last);
    }
  }

  // ---- whole requests

  /**
    Anthropic to OpenAI and back is the identity exactly on the complete requests. How Python
    prints a list never matters to the answer.
   */
  lemma RoundTrip(a: AnthropicRequest, repr: seq<Part> -> string)
    ensures ToAnthropic(ToOpenAI(a), repr) == a <==> Complete(a)
  {
    hide *;
    FieldsBack(a, repr);
    MessagesField(a, repr);
    ToolsField(a, repr);
    if GoodMessages(a.messages.Or([])) {
      SystemField(a, repr);
    }
    CompleteFields(a);
  }

  /** `Complete`, field by field. */
  lemma CompleteFields(a: AnthropicRequest)
    ensures Complete(a) <==>
              && a.model.Some? && a.stream.Some? && a.maxTokens.Some? && a.maxTokens != Some(0)
              && (a.messages.Some? && GoodMessages(a.messages.Or([])))
              && (a.system == None || (a.system.value.SystemText? && a.system.value.text != ""))
              && (a.tools.Some? ==> GoodTools(a.tools.value))
              && (a.toolChoice.Some? ==> a.tools.Some? && GoodChoice(a.toolChoice.value))
    ensures a.messages.Some? ==> a.messages.value == a.messages.Or([])
  {
    hide GoodMessages, GoodTools;
  }

  lemma FieldsBack(a: AnthropicRequest, repr: seq<Part> -> string)
    ensures var b := ToAnthropic(ToOpenAI(a), repr);
            && (b.model == a.model <==> a.model.Some?) && (b.stream == a.stream <==> a.stream.Some?)
            && b.temperature == a.temperature
            && (b.maxTokens == a.maxTokens <==> a.maxTokens.Some? && a.maxTokens != Some(0))
  {
    hide Conversation, SystemTexts, OMessagesOf, ToolsOf, OToolsOf, JoinLines, SystemMessages;
  }

  lemma MessagesField(a: AnthropicRequest, repr: seq<Part> -> string)
    ensures ToAnthropic(ToOpenAI(a), repr).messages == a.messages
            <==> a.messages.Some? && GoodMessages(a.messages.Or([]))
  {
    SystemApart(a.system, a.messages.Or([]));
    MessagesSurvive(a.messages.Or([]));
    hide Conversation, SystemTexts, OMessagesOf, ToolsOf, OToolsOf, JoinLines, SystemMessages, MessagesBack,
         GoodMessages;
  }

  lemma SystemField(a: AnthropicRequest, repr: seq<Part> -> string)
    requires GoodMessages(a.messages.Or([]))
    ensures ToAnthropic(ToOpenAI(a), repr).system == a.system
            <==> a.system == None || (a.system.value.SystemText? && a.system.value.text != "")
  {
    SystemBack(a.system, a.messages.Or([]), repr);
    OneLine();
    hide Conversation, SystemTexts, OMessagesOf, ToolsOf, OToolsOf, JoinLines, TextsOf, GoodMessages;
  }

  lemma ToolsField(a: AnthropicRequest, repr: seq<Part> -> string)
    ensures var b := ToAnthropic(ToOpenAI(a), repr);
            b.tools == a.tools && b.toolChoice == a.toolChoice <==>
              && (a.tools.Some? ==> GoodTools(a.tools.value))
              && (a.toolChoice.Some? ==> a.tools.Some? && GoodChoice(a.toolChoice.value))
  {
    ToolsSurvive(a.tools.Or([]));
    NoTools();
    hide Conversation, SystemTexts, OMessagesOf, ToolsOf, OToolsOf, JoinLines, SystemMessages;
  }

  /** A tool without a name comes back with a null one, which is not the same request. */
  lemma NamelessToolGainsNull(description: Nullable, schema: Json)
    ensures var t := Tool(None, Some(description), Some(schema));
            ToolOf(OToolOf(t)) == [Tool(Some(Null), Some(description), Some(schema))] != [t]
  {
  }

  lemma OneLine()
    ensures forall s :: JoinLines([s]) == s
  {
  }

  lemma NoTools()
    ensures ToolsOf([]) == []
  {
  }

  // ------------------------------------------------------------------ the translators' loops

  lemma Prefix<T>(xs: seq<T>, i: nat)
    requires i < |xs|
    ensures |xs[..i + 1]| == i + 1 && xs[..i + 1][..i] == xs[..i] && xs[..i + 1][i] == xs[i]
    ensures xs[..|xs|] == xs
  {
  }

  method TranslateBlocks(blocks: seq<Block>) returns (parts: seq<Part>)
    ensures parts == PartsOf(blocks)
  {
    hide PartOf;
    parts := [];
    for i := 0 to |blocks|
      invariant parts == PartsOf(blocks[..i])
    {
      Prefix(blocks, i);
      parts := parts + PartOf(blocks[i]);
    }
    assert blocks[..|blocks|] == blocks;
  }

  /** Anthropic to OpenAI. */
  method TranslateToOpenAI(body: AnthropicRequest) returns (request: OpenAIRequest)
    ensures request == ToOpenAI(body)
  {
    var messages := SystemMessages(body.system);
    hide SystemMessages, PartsOf;
    var ms := body.messages.Or([]);
    for i := 0 to |ms|
      invariant messages == SystemMessages(body.system) + OMessagesOf(ms[..i])
    {
      var content := ms[i].content;
      var translated := OPlain("");
      if content.Blocks? {
        var parts := TranslateBlocks(content.blocks);
        if parts != [] {
          translated := OParts(parts);
        }
      } else {
        translated := OPlain(content.text);
      }
      assert OMessagesOf(ms[..i + 1]) == OMessagesOf(ms[..i]) + [OMessage(ms[i].role, translated)];
      messages := messages + [OMessage(ms[i].role, translated)];
    }
    assert ms[..|ms|] == ms;
    var tools, choice := None, None;
    if body.tools.Some? {
      var ts := [];
      for i := 0 to |body.tools.value|
        invariant ts == OToolsOf(body.tools.value[..i])
      {
        ts := ts + [OToolOf(body.tools.value[i])];
      }
      assert body.tools.value[..|body.tools.value|] == body.tools.value;
      if ts != [] {
        tools := Some(ts);
      }
      choice := OChoiceOf(body.toolChoice);
    }
    return OpenAIRequest(Some(body.model.Or("gpt-4o")), Some(body.stream.Or(false)), body.temperature,
                         body.maxTokens, None, Some(messages), tools, choice);
  }

  method TranslateParts(parts: seq<Part>) returns (blocks: seq<Block>)
    ensures blocks == BlocksOf(parts)
  {
    hide BlockOf;
    blocks := [];
    for i := 0 to |parts|
      invariant blocks == BlocksOf(parts[..i])
    {
      Prefix(parts, i);
      blocks := blocks + BlockOf(parts[i]);
    }
    assert parts[..|parts|] == parts;
  }

  /** The loop that parts the system prompt from the conversation. */
  method SplitMessages(ms: seq<OMessage>, repr: seq<Part> -> string)
    returns (texts: seq<string>, messages: seq<Message>)
    ensures texts == SystemTexts(ms, repr) && messages == Conversation(ms)
  {
    hide BlocksOf, Show;
    texts, messages := [], [];
    for i := 0 to |ms|
      invariant texts == SystemTexts(ms[..i], repr) && messages == Conversation(ms[..i])
    {
      Prefix(ms, i);
      var m := ms[i];
      if m.role == Some("system") {
        texts := texts + [Show(m.content, repr)];
      } else {
        var role := if m.role != Some("assistant") && m.role != Some("user") then Some("user") else m.role;
        var content := Plain("");
        if m.content.OParts? {
          var blocks := TranslateParts(m.content.parts);
          if blocks != [] {
            content := Blocks(blocks);
          }
        } else {
          content := Plain(m.content.text);
        }
        messages := messages + [Message(role, content)];
      }
    }
    assert ms[..|ms|] == ms;
  }

  method TranslateTools(ts: seq<OTool>) returns (tools: seq<Tool>)
    ensures tools == ToolsOf(ts)
  {
    hide ToolOf;
    tools := [];
    for i := 0 to |ts|
      invariant tools == ToolsOf(ts[..i])
    {
      Prefix(ts, i);
      tools := tools + ToolOf(ts[i]);
    }
    assert ts[..|ts|] == ts;
  }

  /** OpenAI to Anthropic. */
  method TranslateToAnthropic(body: OpenAIRequest, repr: seq<Part> -> string) returns (request: AnthropicRequest)
    ensures request == ToAnthropic(body, repr)
  {
    hide Conversation, SystemTexts, ToolsOf, JoinLines;
    var maxTokens := if NonZero(body.maxTokens).Some? then body.maxTokens.value
                     else if NonZero(body.maxCompletionTokens).Some? then body.maxCompletionTokens.value else 4096;
    var texts, messages := SplitMessages(body.messages.Or([]), repr);
    var system := if texts == [] then None else Some(SystemText(JoinLines(texts)));
    var tools, choice := None, None;
    NoTools();
    if body.tools.Some? {
      var ts := TranslateTools(body.tools.value);
      if ts != [] {
        tools := Some(ts);
      }
      choice := ChoiceOf(body.toolChoice);
    }
    return AnthropicRequest(Some(body.model.Or("claude-3-5-sonnet-20241022")), Some(body.stream.Or(false)),
                            body.temperature, Some(maxTokens), system, Some(messages), tools, choice);
  }
}
