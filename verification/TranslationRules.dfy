/** The translated requests told field by field, for requests that do not come back too. */
module TranslationRules {
  import opened Wrappers
  import opened RequestTranslation
  import DataUrls

  // ------------------------------------------------------------------ lists with some elements left out

  function Count<T>(xs: seq<T>, keep: T -> bool): nat {
    if xs == [] then 0 else Count(xs[..|xs| - 1], keep) + if keep(xs[|xs| - 1]) then 1 else 0
  }

  /** `ys` are the images of the elements of `xs` that are kept, in their order, and nothing else. */
  ghost predicate Picks<T, U>(xs: seq<T>, keep: T -> bool, image: T -> U, ys: seq<U>) {
    && |ys| == Count(xs, keep)
    && forall i :: 0 <= i < |xs| && keep(xs[i]) ==>
         Count(xs[..i], keep) < |ys| && ys[Count(xs[..i], keep)] == image(xs[i])
  }

  lemma PicksNone<T, U>(keep: T -> bool, image: T -> U)
    ensures Picks([], keep, image, [])
  {
  }

  lemma {:induction false} CountGrows<T>(xs: seq<T>, keep: T -> bool, i: nat)
    requires i <= |xs|
    ensures Count(xs[..i], keep) <= Count(xs, keep)
    ensures i < |xs| && keep(xs[i]) ==> Count(xs[..i], keep) < Count(xs, keep)
  {
    if i < |xs| {
      var init := xs[..|xs| - 1];
      assert init[..i] == xs[..i];
      CountGrows(init, keep, i);
    } else {
      assert xs[..i] == xs;
    }
  }

  /** One element more. */
  lemma PicksGrow<T, U>(xs: seq<T>, keep: T -> bool, image: T -> U, ys: seq<U>, more: seq<U>)
    requires xs != [] && Picks(xs[..|xs| - 1], keep, image, ys)
    requires more == if keep(xs[|xs| - 1]) then [image(xs[|xs| - 1])] else []
    ensures Picks(xs, keep, image, ys + more)
  {
    var n := |xs| - 1;
    var init, all := xs[..n], ys + more;
    forall i | 0 <= i < |xs| && keep(xs[i])
      ensures Count(xs[..i], keep) < |all| && all[Count(xs[..i], keep)] == image(xs[i])
    {
      if i < n {
        assert init[..i] == xs[..i] && keep(init[i]);
      }
    }
  }

  /** That determines `ys`. */
  lemma {:induction false} PicksOne<T, U>(xs: seq<T>, keep: T -> bool, image: T -> U, ys: seq<U>, zs: seq<U>)
    requires Picks(xs, keep, image, ys) && Picks(xs, keep, image, zs)
    ensures ys == zs
    decreases |xs|
  {
    if xs != [] {
      var n := |xs| - 1;
      var m := Count(xs[..n], keep);
      PicksInit(xs, keep, image, ys);
      PicksInit(xs, keep, image, zs);
      PicksOne(xs[..n], keep, image, ys[..m], zs[..m]);
      if keep(xs[n]) {
        assert ys == ys[..m] + [ys[m]] && zs == zs[..m] + [zs[m]];
      } else {
        assert ys == ys[..m] && zs == zs[..m];
      }
    }
  }

  lemma PicksInit<T, U>(xs: seq<T>, keep: T -> bool, image: T -> U, ys: seq<U>)
    requires xs != [] && Picks(xs, keep, image, ys)
    ensures var n := |xs| - 1;
            Count(xs[..n], keep) <= |ys| && Picks(xs[..n], keep, image, ys[..Count(xs[..n], keep)])
  {
    var n := |xs| - 1;
    var init := xs[..n];
    forall i | 0 <= i < n && keep(init[i])
      ensures Count(init[..i], keep) < Count(init, keep) && ys[Count(init[..i], keep)] == image(init[i])
    {
      CountGrows(init, keep, i);
      assert init[..i] == xs[..i] && keep(xs[i]);
    }
  }

  // ------------------------------------------------------------------ texts on lines

  /** Where the i-th of some texts begins when they stand on lines of their own. */
  function Offset(texts: seq<string>, i: nat): nat
    requires i <= |texts|
  {
    if i == 0 then 0 else Offset(texts, i - 1) + |texts[i - 1]| + 1
  }

  /** The i-th text stands in `s` on its line, which a newline ends unless it is the last. */
  predicate Stands(s: string, texts: seq<string>, i: nat)
    requires i < |texts|
  {
    var at := Offset(texts, i);
    && at + |texts[i]| <= |s| && s[at..at + |texts[i]|] == texts[i]
    && (i + 1 < |texts| ==> at + |texts[i]| < |s| && s[at + |texts[i]|] == '\n')
  }

  /** `s` is the texts in order, a newline between each two. */
  ghost predicate OnLines(s: string, texts: seq<string>) {
    |s| + 1 == Offset(texts, |texts|) && forall i :: 0 <= i < |texts| ==> Stands(s, texts, i)
  }

  lemma {:induction false} OffsetShifts(texts: seq<string>, i: nat)
    requires 1 <= i <= |texts|
    ensures Offset(texts, i) == |texts[0]| + 1 + Offset(texts[1..], i - 1)
  {
    if i > 1 {
      OffsetShifts(texts, i - 1);
      assert texts[1..][i - 2] == texts[i - 1];
    }
  }

  lemma {:induction false} JoinIsOnLines(texts: seq<string>)
    requires texts != []
    ensures OnLines(JoinLines(texts), texts)
    decreases |texts|
  {
    var s, first := JoinLines(texts), texts[0];
    if |texts| == 1 {
      assert s[0..|first|] == first;
      assert Offset(texts, 1) == Offset(texts, 0) + |first| + 1;
    } else {
      var rest, tail := texts[1..], JoinLines(texts[1..]);
      JoinIsOnLines(rest);
      hide JoinLines, OnLines;
      assert s == first + "\n" + tail;
      LaterLines(s, first, tail, texts);
    }
  }

  lemma LaterLines(s: string, first: string, tail: string, texts: seq<string>)
    requires |texts| > 1 && first == texts[0] && s == first + "\n" + tail && OnLines(tail, texts[1..])
    ensures OnLines(s, texts)
  {
    hide Stands, Offset;
    OffsetShifts(texts, |texts|);
    forall i | 0 <= i < |texts| ensures Stands(s, texts, i) {
      if i == 0 {
        FirstStands(s, first, tail, texts);
      } else {
        LaterStands(s, first, tail, texts, i);
      }
    }
  }

  lemma FirstStands(s: string, first: string, tail: string, texts: seq<string>)
    requires |texts| > 1 && first == texts[0] && s == first + "\n" + tail
    ensures Stands(s, texts, 0)
  {
    assert s[0..|first|] == first;
  }

  lemma LaterStands(s: string, first: string, tail: string, texts: seq<string>, i: nat)
    requires 0 < i < |texts| && first == texts[0] && s == first + "\n" + tail && Stands(tail, texts[1..], i - 1)
    ensures Stands(s, texts, i)
  {
    OffsetShifts(texts, i);
    hide Offset;
    var at, n := Offset(texts[1..], i - 1), |texts[i]|;
    assert texts[1..][i - 1] == texts[i];
    assert s[|first| + 1..] == tail;
    assert s[|first| + 1 + at..|first| + 1 + at + n] == tail[at..at + n];
  }

  // ------------------------------------------------------------------ Anthropic to OpenAI

  /** Text and base64 image blocks are kept. */
  predicate KeptBlock(b: Block) { b.TextBlock? || (b.ImageBlock? && b.source.Some? && b.source.value.Base64?) }

  function PartFor(b: Block): Part {
    match b
    case TextBlock(text) => TextPart(Some(if text.Some? then text.value else ""))
    case ImageBlock(Some(Base64(mediaType, data))) =>
      ImagePart(Some("data:" + (if mediaType.Some? then mediaType.value else "image/jpeg") + ";base64,"
                     + if data.Some? then data.value else ""))
    case _ => OtherPart
  }

  /** A string stays, and blocks become the parts of those kept, or an empty string when there are none. */
  ghost predicate ContentTo(c: Content, o: OContent) {
    match c
    case Plain(text) => o == OPlain(text)
    case Blocks(blocks) =>
      if Count(blocks, KeptBlock) == 0 then o == OPlain("")
      else o.OParts? && Picks(blocks, KeptBlock, PartFor, o.parts)
  }

  predicate IsTextPart(p: SystemPart) { p.isText }

  function PartText(p: SystemPart): string { if p.text.Some? then p.text.value else "" }

  /** The texts of a system prompt given in parts, one on each line. */
  ghost predicate SystemTo(system: Option<System>, text: string) {
    match system
    case None => text == ""
    case Some(SystemText(t)) => text == t
    case Some(SystemParts(parts)) =>
      exists texts ::
        Picks(parts, IsTextPart, PartText, texts) && if texts == [] then text == "" else OnLines(text, texts)
  }

  function ToolTo(t: Tool): OTool {
    OFunction(Some(Function(
      Some(if t.name.Some? then t.name.value else Null),
      Some(if t.description.Some? then t.description.value else Str("")),
      Some(if t.inputSchema.Some? then t.inputSchema.value else EMPTY_SCHEMA))))
  }

  function ChoiceTo(c: Option<Choice>): Option<OChoice> {
    if c == Some(AutoChoice) then Some(ONamed("auto"))
    else if c == Some(AnyChoice) then Some(ONamed("required"))
    else if c.Some? && c.value.ToolChoice? then
      Some(OFunctionChoice(Some(if c.value.name.Some? then c.value.name.value else Null)))
    else None
  }

  lemma {:induction false} PartsArePicked(blocks: seq<Block>)
    ensures Picks(blocks, KeptBlock, PartFor, PartsOf(blocks))
  {
    hide Picks;
    if blocks == [] {
      PicksNone(KeptBlock, PartFor);
    } else {
      var n := |blocks| - 1;
      PartsArePicked(blocks[..n]);
      PartIs(blocks[n]);
      PicksGrow(blocks, KeptBlock, PartFor, PartsOf(blocks[..n]), PartOf(blocks[n]));
    }
  }

  lemma PartIs(b: Block)
    ensures PartOf(b) == if KeptBlock(b) then [PartFor(b)] else []
  {
  }

  lemma ContentGoes(c: Content)
    ensures ContentTo(c, OContentOf(c))
  {
    if c.Blocks? {
      PartsArePicked(c.blocks);
    }
    hide PartsOf, Count;
  }

  lemma {:induction false} TextsArePicked(parts: seq<SystemPart>)
    ensures Picks(parts, IsTextPart, PartText, TextsOf(parts))
  {
    hide Picks;
    if parts == [] {
      PicksNone(IsTextPart, PartText);
    } else {
      var n := |parts| - 1;
      TextsArePicked(parts[..n]);
      PicksGrow(parts, IsTextPart, PartText, TextsOf(parts[..n]),
                if parts[n].isText then [parts[n].text.Or("")] else []);
    }
  }

  /** The system message: none for an empty text, else one before all others. */
  lemma SystemGoes(system: Option<System>) returns (text: string)
    ensures SystemTo(system, text)
    ensures SystemMessages(system) == if text == "" then [] else [OMessage(Some("system"), OPlain(text))]
  {
    match system
    case None => text := "";
    case Some(SystemText(t)) => text := t;
    case Some(SystemParts(parts)) =>
      var texts := TextsOf(parts);
      TextsArePicked(parts);
      text := JoinLines(texts);
      if texts != [] {
        JoinIsOnLines(texts);
      }
      hide TextsOf, Picks, OnLines;
      assert texts == [] ==> text == "";
      hide JoinLines;
  }

  /** The messages of a translated request: the system text first, if there is any, then the others in place. */
  ghost predicate MessagesTo(system: Option<System>, ms: seq<Message>, all: seq<OMessage>) {
    exists text :: SystemTo(system, text) && Follow(text, ms, all)
  }

  ghost predicate Follow(text: string, ms: seq<Message>, all: seq<OMessage>) {
    var front := if text == "" then 0 else 1;
    && |all| == front + |ms| && (text != "" ==> all[0] == OMessage(Some("system"), OPlain(text)))
    && forall i :: 0 <= i < |ms| ==>
         all[front + i].role == ms[i].role && ContentTo(ms[i].content, all[front + i].content)
  }

  lemma MessagesGo(system: Option<System>, ms: seq<Message>)
    ensures MessagesTo(system, ms, SystemMessages(system) + OMessagesOf(ms))
  {
    var text := SystemGoes(system);
    hide SystemTo, SystemMessages, ContentTo, OContentOf;
    var front, all := if text == "" then 0 else 1, SystemMessages(system) + OMessagesOf(ms);
    forall i | 0 <= i < |ms|
      ensures all[front + i].role == ms[i].role && ContentTo(ms[i].content, all[front + i].content)
    {
      ContentGoes(ms[i].content);
      assert all[front + i] == OMessageOf(ms[i]);
    }
    assert Follow(text, ms, all);
  }

  /**
    An Anthropic request to OpenAI: fields that are there stay, the model and streaming have
    defaults; a non-empty system text is the first message; every other message keeps its place, role
    and content; every tool keeps its place; and a tool choice of known type is kept if tools are given.
   */
  lemma ForwardMeans(a: AnthropicRequest)
    ensures var o := ToOpenAI(a);
            && o.model == Some(if a.model.Some? then a.model.value else "gpt-4o")
            && o.stream == Some(a.stream.Some? && a.stream.value) && o.temperature == a.temperature
            && o.maxTokens == a.maxTokens && o.maxCompletionTokens == None
            && o.messages.Some?
            && MessagesTo(a.system, if a.messages.Some? then a.messages.value else [], o.messages.value)
    ensures var o, ts := ToOpenAI(a), if a.tools.Some? then a.tools.value else [];
            && (o.tools == None <==> ts == [])
            && (ts != [] ==> |o.tools.value| == |ts| && forall i :: 0 <= i < |ts| ==> o.tools.value[i] == ToolTo(ts[i]))
            && o.toolChoice == if a.tools == None then None else ChoiceTo(a.toolChoice)
  {
    MessagesGo(a.system, a.messages.Or([]));
    hide MessagesTo, SystemMessages, OMessagesOf;
  }

  // ------------------------------------------------------------------ OpenAI to Anthropic

  /** Text parts are kept, and images whose URL holds one. */
  predicate KeptPart(p: Part) {
    p.TextPart? || (p.ImagePart? && p.url.Some? && DataUrls.Parse(p.url.value).Image?)
  }

  function BlockFor(p: Part): Block {
    if p.TextPart? then TextBlock(Some(if p.text.Some? then p.text.value else ""))
    else if KeptPart(p) then
      var image := DataUrls.Parse(p.url.value);
      ImageBlock(Some(Base64(Some(image.mediaType), Some(image.data))))
    else OtherBlock
  }

  ghost predicate ContentFrom(o: OContent, c: Content) {
    match o
    case OPlain(text) => c == Plain(text)
    case OParts(parts) =>
      if Count(parts, KeptPart) == 0 then c == Plain("")
      else c.Blocks? && Picks(parts, KeptPart, BlockFor, c.blocks)
  }

  /** Only an assistant stays one; everyone else becomes a user. */
  ghost predicate MessageFrom(o: OMessage, m: Message) {
    && m.role == Some(if o.role == Some("assistant") then "assistant" else "user")
    && ContentFrom(o.content, m.content)
  }

  predicate Speaks(m: OMessage) { m.role != Some("system") }

  predicate Instructs(m: OMessage) { m.role == Some("system") }

  /** The text of a message, as Python prints it. */
  function Printed(repr: seq<Part> -> string): OMessage -> string {
    (m: OMessage) => if m.content.OPlain? then m.content.text else repr(m.content.parts)
  }

  function Itself(m: OMessage): OMessage { m }

  /** All messages but the system messages, in their order. */
  ghost predicate MessagesFrom(all: seq<OMessage>, ms: seq<Message>) {
    exists spoken :: Picks(all, Speaks, Itself, spoken) && Mapped(spoken, ms)
  }

  ghost predicate Mapped(spoken: seq<OMessage>, ms: seq<Message>) {
    |spoken| == |ms| && forall i :: 0 <= i < |ms| ==> MessageFrom(spoken[i], ms[i])
  }

  /** The texts of all system messages, one on each line. */
  ghost predicate SystemFrom(all: seq<OMessage>, repr: seq<Part> -> string, system: Option<System>) {
    exists texts ::
      && Picks(all, Instructs, Printed(repr), texts)
      && if texts == [] then system == None
         else system.Some? && system.value.SystemText? && OnLines(system.value.text, texts)
  }

  predicate IsFunctionTool(t: OTool) { t.OFunction? }

  function ToolFrom(t: OTool): Tool {
    var f := if t.OFunction? && t.fn.Some? then t.fn.value else Function(None, None, None);
    Tool(Some(if f.name.Some? then f.name.value else Null),
         Some(if f.description.Some? then f.description.value else Str("")),
         Some(if f.parameters.Some? then f.parameters.value else EMPTY_SCHEMA))
  }

  function ChoiceFrom(c: Option<OChoice>): Option<Choice> {
    if c == Some(ONamed("auto")) then Some(AutoChoice)
    else if c == Some(ONamed("required")) then Some(AnyChoice)
    else if c.Some? && c.value.OFunctionChoice? then
      Some(ToolChoice(Some(if c.value.name.Some? then c.value.name.value else Null)))
    else None
  }

  lemma {:induction false} BlocksArePicked(parts: seq<Part>)
    ensures Picks(parts, KeptPart, BlockFor, BlocksOf(parts))
  {
    hide Picks;
    if parts == [] {
      PicksNone(KeptPart, BlockFor);
    } else {
      var n := |parts| - 1;
      BlocksArePicked(parts[..n]);
      BlockIs(parts[n]);
      PicksGrow(parts, KeptPart, BlockFor, BlocksOf(parts[..n]), BlockOf(parts[n]));
    }
  }

  lemma BlockIs(p: Part)
    ensures BlockOf(p) == if KeptPart(p) then [BlockFor(p)] else []
  {
    EmptyUrl();
    hide DataUrls.Parse;
  }

  lemma EmptyUrl()
    ensures DataUrls.Parse("") == DataUrls.NoImage
  {
  }

  lemma MessageComes(o: OMessage)
    ensures MessageFrom(o, MessageOf(o))
  {
    if o.content.OParts? {
      BlocksArePicked(o.content.parts);
    }
    hide BlocksOf, Count;
  }

  lemma {:induction false} ConversationIsPicked(all: seq<OMessage>) returns (spoken: seq<OMessage>)
    ensures Picks(all, Speaks, Itself, spoken) && Mapped(spoken, Conversation(all))
    decreases |all|
  {
    hide Picks, MessageFrom, MessageOf;
    if all == [] {
      PicksNone(Speaks, Itself);
      spoken := [];
    } else {
      var n := |all| - 1;
      var before := ConversationIsPicked(all[..n]);
      MessageComes(all[n]);
      var more := if Speaks(all[n]) then [all[n]] else [];
      PicksGrow(all, Speaks, Itself, before, more);
      spoken := before + more;
    }
  }

  lemma {:induction false} SystemTextsArePicked(all: seq<OMessage>, repr: seq<Part> -> string)
    ensures Picks(all, Instructs, Printed(repr), SystemTexts(all, repr))
    decreases |all|
  {
    hide Picks;
    if all == [] {
      PicksNone(Instructs, Printed(repr));
    } else {
      var n := |all| - 1;
      SystemTextsArePicked(all[..n], repr);
      PicksGrow(all, Instructs, Printed(repr), SystemTexts(all[..n], repr),
                if IsSystem(all[n]) then [Show(all[n].content, repr)] else []);
    }
  }

  lemma {:induction false} ToolsArePicked(ts: seq<OTool>)
    ensures Picks(ts, IsFunctionTool, ToolFrom, ToolsOf(ts))
  {
    hide Picks;
    if ts == [] {
      PicksNone(IsFunctionTool, ToolFrom);
    } else {
      var n := |ts| - 1;
      ToolsArePicked(ts[..n]);
      PicksGrow(ts, IsFunctionTool, ToolFrom, ToolsOf(ts[..n]), ToolOf(ts[n]));
    }
  }

  lemma SystemComes(all: seq<OMessage>, repr: seq<Part> -> string)
    ensures var texts := SystemTexts(all, repr);
            SystemFrom(all, repr, if texts == [] then None else Some(SystemText(JoinLines(texts))))
  {
    var texts := SystemTexts(all, repr);
    SystemTextsArePicked(all, repr);
    if texts != [] {
      JoinIsOnLines(texts);
    }
    hide SystemTexts, Picks, OnLines, JoinLines;
  }

  lemma MessagesCome(all: seq<OMessage>)
    ensures MessagesFrom(all, Conversation(all))
  {
    var spoken := ConversationIsPicked(all);
    hide Picks, Mapped;
  }

  /**
    An OpenAI request to Anthropic: the model, streaming and the token limit have defaults, a limit of
    zero counting as none; the texts of all system messages, wherever they stand, make the system
    prompt; the other messages keep their order; function tools keep theirs; and a tool choice of
    known type is kept if tools are given.
   */
  lemma BackwardMeans(o: OpenAIRequest, repr: seq<Part> -> string)
    ensures var a, all := ToAnthropic(o, repr), if o.messages.Some? then o.messages.value else [];
            && a.model == Some(if o.model.Some? then o.model.value else "claude-3-5-sonnet-20241022")
            && a.stream == Some(o.stream.Some? && o.stream.value) && a.temperature == o.temperature
            && a.maxTokens == Some(if o.maxTokens.Some? && o.maxTokens.value != 0 then o.maxTokens.value
                                   else if o.maxCompletionTokens.Some? && o.maxCompletionTokens.value != 0
                                   then o.maxCompletionTokens.value else 4096)
            && SystemFrom(all, repr, a.system)
            && a.messages.Some? && MessagesFrom(all, a.messages.value)
    ensures var a, ts := ToAnthropic(o, repr), if o.tools.Some? then o.tools.value else [];
            && (a.tools == None <==> Count(ts, IsFunctionTool) == 0)
            && (a.tools.Some? ==> Picks(ts, IsFunctionTool, ToolFrom, a.tools.value))
            && a.toolChoice == if o.tools == None then None else ChoiceFrom(o.toolChoice)
  {
    SystemComes(o.messages.Or([]), repr);
    MessagesCome(o.messages.Or([]));
    ToolsArePicked(o.tools.Or([]));
    hide SystemFrom, MessagesFrom, SystemTexts, Conversation, JoinLines, ToolsOf, Count;
  }
}
