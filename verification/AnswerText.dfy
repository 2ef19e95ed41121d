/**
  Whether the answer text of a rewritten stream reaches the client as the tag parser releases it.
  The client takes each `data` line of an event stream as one event (section 9.2.6 of the WHATWG
  HTML standard: the space after the colon is optional), its last line included.
 */
module AnswerText {
  import opened StreamLines
  import opened ThinkingStream
  import T = ThinkTags
  import Text

  // ------------------------------------------------------------------ what a line holds

  /** The payload of a line whose field is `data`. Space around it means nothing to a JSON parser. */
  function DataOf(c: Client, line: string): Payload {
    if !Text.StartsWith(line, "data:") then NotJson
    else
      var p := Text.Strip(line[5..]);
      if p == "[DONE]" then NotJson else c.parse(p)
  }

  function TextIn(choice: Choice): string { if choice.Delta? then choice.content else "" }

  function BlockTextIn(block: Block): string { if block.TextBlock? then block.text else "" }

  /** The client reads the payload as an OpenAI chunk; one whose format is unknown may. */
  predicate ReadsChoices(c: Client, data: Payload) {
    data.Object? && data.choice != NoChoices && (c.openai || !c.anthropic)
  }

  /** The payload is an OpenAI chunk, for a client known to read it as one. */
  predicate FromChoice(c: Client, line: string) { c.openai && ReadsChoices(c, DataOf(c, line)) }

  function TextOfData(c: Client, data: Payload): string {
    if ReadsChoices(c, data) && (c.openai || TextIn(data.choice) != "") then TextIn(data.choice)
    else if data.Object? && (c.anthropic || !c.openai) then BlockTextIn(data.block)
    else ""
  }

  /** The answer text of a line's delta. */
  function EventText(c: Client, line: string): string { TextOfData(c, DataOf(c, line)) }

  /** Its structured reasoning. */
  function EventReasoning(c: Client, line: string): string {
    var data := DataOf(c, line);
    if ReadsChoices(c, data) && data.choice.Delta? then data.choice.reasoning else ""
  }

  /** The answer text of the choices after the first. */
  function OthersOf(c: Client, data: Payload): string { if ReadsChoices(c, data) then data.others else "" }

  function EventOthers(c: Client, line: string): string { OthersOf(c, DataOf(c, line)) }

  /**
    The delta goes past the tag parser: it has reasoning too, or its line has no space after the
    colon, or the client's format is unknown.
   */
  predicate Bypasses(c: Client, line: string) {
    && EventText(c, line) != ""
    && (EventReasoning(c, line) != "" || !Text.StartsWith(line, "data: ") || !(c.openai || c.anthropic))
  }

  // ------------------------------------------------------------------ what the client gets

  /** How text reaches the client: parsed or not, as structured reasoning, or in a further choice. */
  datatype Answer = Parsed(out: T.Output) | Unparsed(text: string) | Reasoned(text: string) | Elsewhere(text: string)

  function IfAny(text: string, a: Answer): seq<Answer> { if text == "" then [] else [a] }

  /** What the client reads in a line that is sent as it came. */
  function Raw(c: Client, line: string): seq<Answer> {
    IfAny(EventReasoning(c, line), Reasoned(EventReasoning(c, line)))
    + IfAny(EventText(c, line), Unparsed(EventText(c, line)))
    + IfAny(EventOthers(c, line), Elsewhere(EventOthers(c, line)))
  }

  /** What it reads in one piece: a rewritten event keeps everything but the first choice's delta. */
  function AnswerOf(c: Client, p: Piece): seq<Answer> {
    match p
    case Bytes(_) => []
    case Line(line) => Raw(c, line)
    case Rewritten(payload, out) =>
      [Parsed(out)] + IfAny(OthersOf(c, c.parse(payload)), Elsewhere(OthersOf(c, c.parse(payload))))
    case Tail(text) => Raw(c, text)
  }

  function Answers(c: Client, pieces: seq<Piece>): seq<Answer>
    decreases |pieces|
  {
    if pieces == [] then [] else AnswerOf(c, pieces[0]) + Answers(c, pieces[1..])
  }

  /** A delta's text as the parser releases it; an Anthropic event without any is dropped. */
  function Shown(c: Client, line: string, out: T.Output): seq<Answer> {
    if EventText(c, line) != "" && (out.standard != "" || FromChoice(c, line)) then [Parsed(out)] else []
  }

  /** What one line should come to, when `out` is what the parser releases for its delta. */
  function Expected(c: Client, line: string, out: T.Output): seq<Answer> {
    IfAny(EventReasoning(c, line), Reasoned(EventReasoning(c, line))) + Shown(c, line, out)
  }

  /** What it does come to. */
  function Comes(c: Client, line: string, out: T.Output): seq<Answer> {
    IfAny(EventReasoning(c, line), Reasoned(EventReasoning(c, line)))
    + (if Bypasses(c, line) then [Unparsed(EventText(c, line))] else Shown(c, line, out))
    + IfAny(EventOthers(c, line), Elsewhere(EventOthers(c, line)))
  }

  /** What these lines should come to: reasoning as it is, each delta's text parsed, in order. */
  function ParsedAnswers(c: Client, tags: T.State, lines: seq<string>): seq<Answer>
    decreases |lines|
  {
    if lines == [] then []
    else
      var (next, out) := T.FeedText(tags, EventText(c, lines[0]));
      Expected(c, lines[0], out) + ParsedAnswers(c, next, lines[1..])
  }

  function AnswerString(a: Answer): string {
    match a
    case Parsed(out) => out.standard
    case Unparsed(text) => text
    case _ => ""
  }

  function ThinkingString(a: Answer): string {
    match a
    case Parsed(out) => out.thinking
    case Reasoned(text) => text
    case _ => ""
  }

  /** The answer text, joined. */
  function TextOf(answers: seq<Answer>): string
    decreases |answers|
  {
    if answers == [] then ""
    else AnswerString(answers[0]) + TextOf(answers[1..])
  }

  /** The thinking, joined. */
  function ThinkingOf(answers: seq<Answer>): string
    decreases |answers|
  {
    if answers == [] then ""
    else ThinkingString(answers[0]) + ThinkingOf(answers[1..])
  }

  function EventTexts(c: Client, lines: seq<string>): seq<string>
    decreases |lines|
  {
    if lines == [] then [] else [EventText(c, lines[0])] + EventTexts(c, lines[1..])
  }

  /** Some text went past the parser. */
  ghost predicate AnyRaw(answers: seq<Answer>) {
    exists i :: 0 <= i < |answers| && (answers[i].Unparsed? || answers[i].Elsewhere?)
  }

  predicate Astray(c: Client, line: string) { Bypasses(c, line) || EventOthers(c, line) != "" }

  ghost predicate NoneAstray(c: Client, lines: seq<string>) {
    forall i :: 0 <= i < |lines| ==> !Astray(c, lines[i])
  }

  predicate NoReasoning(c: Client, lines: seq<string>) {
    forall i :: 0 <= i < |lines| ==> EventReasoning(c, lines[i]) == ""
  }

  /** Structured reasoning and thinking text, each line's in turn. */
  function Interleaved(c: Client, tags: T.State, lines: seq<string>): string
    decreases |lines|
  {
    if lines == [] then ""
    else
      var (next, out) := T.FeedText(tags, EventText(c, lines[0]));
      (EventReasoning(c, lines[0]) + out.thinking) + Interleaved(c, next, lines[1..])
  }

  /** The lines of a stream, an unfinished last one included. */
  function AllLines(text: string, last: string): seq<string> {
    var (lines, rest) := Cut(text);
    if rest + last == "" then lines else lines + [rest + last]
  }

  // ---- one line

  lemma SamePayload(line: string)
    requires Text.StartsWith(line, "data: ")
    ensures Text.StartsWith(line, "data:") && Text.Strip(line[5..]) == Text.Strip(line[6..])
  {
    assert line[5..][0] == ' ' && line[5..][1..] == line[6..];
    assert line[..5] == line[..6][..5];
    hide Text.StartsWith;
  }

  /** What the branches of the rewriting do, told by the delta's own fields. */
  lemma RewriteReads(c: Client, line: string)
    ensures match Rewrite(c, line)
            case Refused => true
            case Passed(reasoning) =>
              && (reasoning == "" || reasoning == EventReasoning(c, line))
              && (EventText(c, line) == "" || Bypasses(c, line))
            case Fed(text, payload) =>
              && text == EventText(c, line) && EventReasoning(c, line) == "" && !Bypasses(c, line)
              && OthersOf(c, c.parse(payload)) == EventOthers(c, line)
              && (forall out {:trigger SentOn(c, payload, out)} ::
                    SentOn(c, payload, out) <==> out.standard != "" || FromChoice(c, line))
              && (text == "" ==> !FromChoice(c, line) && EventOthers(c, line) == "")
              && (EventOthers(c, line) != "" ==> FromChoice(c, line))
  {
    if Text.StartsWith(line, "data: ") {
      SamePayload(line);
    }
    hide Text.Strip;
  }

  /** A line that does not fail is passed on or fed. */
  lemma LineIs(c: Client, r: Reader, line: string)
    requires !ReadLine(c, r, line).0.failed
    ensures var (r1, p1) := ReadLine(c, r, line);
            match Rewrite(c, line)
            case Refused => false
            case Passed(reasoning) =>
              r1.tags == r.tags && r1.content == r.content && r1.thinking == r.thinking + reasoning
                  && p1 == [Line(line)]
            case Fed(text, payload) =>
              var (tags, out) := T.FeedText(r.tags, text);
              && r1.tags == tags && r1.content == r.content + out.standard && r1.thinking == r.thinking + out.thinking
              && p1 == if SentOn(c, payload, out) then [Rewritten(payload, out)] else []
  {
    hide Raises, Rewrite, T.FeedText, SentOn;
  }

  lemma AnswersOne(c: Client, p: Piece)
    ensures Answers(c, [p]) == AnswerOf(c, p) && Answers(c, []) == []
  {
    hide AnswerOf;
    assert [p][1..] == [];
    assert AnswerOf(c, p) + [] == AnswerOf(c, p);
  }

  lemma FeedNothing(tags: T.State)
    ensures T.FeedText(tags, "") == (tags, T.Output("", ""))
  {
  }

  /** What a line that does not fail comes to, and what it leaves of the parser and the kept text. */
  lemma LineAnswers(c: Client, r: Reader, line: string)
    requires !ReadLine(c, r, line).0.failed
    ensures var (r1, p1) := ReadLine(c, r, line);
            var (tags, out) := T.FeedText(r.tags, EventText(c, line));
            && Answers(c, p1) == Comes(c, line, out)
            && if Bypasses(c, line) then r1.tags == r.tags && r1.content == r.content
               else
                 && r1.tags == tags && r1.content == r.content + out.standard
                 && (EventReasoning(c, line) == "" ==> r1.thinking == r.thinking + out.thinking)
  {
    LineIs(c, r, line);
    RewriteReads(c, line);
    FeedNothing(r.tags);
    hide *;
    assert r.content + "" == r.content && r.thinking + "" == r.thinking;
    match Rewrite(c, line)
    case Passed(_) =>
      AnswersOne(c, Line(line));
      RawComes(c, line, T.FeedText(r.tags, EventText(c, line)).1);
    case Fed(text, payload) =>
      var out := T.FeedText(r.tags, text).1;
      AnswersOne(c, Rewritten(payload, out));
      RewrittenComes(c, line, payload, out);
  }

  lemma RawComes(c: Client, line: string, out: T.Output)
    requires EventText(c, line) == "" || Bypasses(c, line)
    ensures AnswerOf(c, Line(line)) == Comes(c, line, out)
  {
    hide EventText, EventReasoning, EventOthers, FromChoice;
  }

  lemma RewrittenComes(c: Client, line: string, payload: string, out: T.Output)
    requires EventReasoning(c, line) == "" && !Bypasses(c, line)
    requires OthersOf(c, c.parse(payload)) == EventOthers(c, line)
    requires EventText(c, line) == "" ==> !FromChoice(c, line) && EventOthers(c, line) == "" && out.standard == ""
    requires EventOthers(c, line) != "" ==> FromChoice(c, line)
    ensures Comes(c, line, out)
            == if out.standard != "" || FromChoice(c, line) then AnswerOf(c, Rewritten(payload, out)) else []
  {
    hide EventText, EventReasoning, EventOthers, FromChoice, OthersOf, Bypasses;
  }

  // ---- all lines

  lemma {:induction false} AnswersSplit(c: Client, a: seq<Piece>, b: seq<Piece>)
    ensures Answers(c, a + b) == Answers(c, a) + Answers(c, b)
    decreases |a|
  {
    hide AnswerOf;
    if a == [] {
      assert a + b == b;
    } else {
      assert (a + b)[1..] == a[1..] + b;
      AnswersSplit(c, a[1..], b);
      assert AnswerOf(c, a[0]) + (Answers(c, a[1..]) + Answers(c, b))
             == (AnswerOf(c, a[0]) + Answers(c, a[1..])) + Answers(c, b);
    }
  }

  lemma {:induction false} ParsedSplit(c: Client, tags: T.State, a: seq<string>, b: seq<string>)
    ensures ParsedAnswers(c, tags, a + b)
            == ParsedAnswers(c, tags, a) + ParsedAnswers(c, T.FeedAll(tags, EventTexts(c, a)).0, b)
    decreases |a|
  {
    hide Expected, EventText, T.FeedText;
    if a == [] {
      assert a + b == b;
    } else {
      assert (a + b)[1..] == a[1..] + b;
      var (next, out) := T.FeedText(tags, EventText(c, a[0]));
      ParsedSplit(c, next, a[1..], b);
      FeedUnfolds(c, tags, a);
      hide T.FeedAll, EventTexts;
      var e, x, y := Expected(c, a[0], out), ParsedAnswers(c, next, a[1..]),
                     ParsedAnswers(c, T.FeedAll(tags, EventTexts(c, a)).0, b);
      assert e + (x + y) == (e + x) + y;
    }
  }

  lemma FeedUnfolds(c: Client, tags: T.State, lines: seq<string>)
    requires lines != []
    ensures var (t1, o1) := T.FeedText(tags, EventText(c, lines[0]));
            var (t2, o2) := T.FeedAll(t1, EventTexts(c, lines[1..]));
            T.FeedAll(tags, EventTexts(c, lines)) == (t2, T.Append(o1, o2))
  {
    hide EventText, T.FeedText, T.Append;
    var all := EventTexts(c, lines);
    assert all == [EventText(c, lines[0])] + EventTexts(c, lines[1..]);
    assert all[0] == EventText(c, lines[0]) && all[1..] == EventTexts(c, lines[1..]);
  }

  lemma ReadUnfolds(c: Client, r: Reader, lines: seq<string>)
    requires lines != []
    ensures var (r1, p1) := ReadLine(c, r, lines[0]);
            var (r2, p2) := ReadLines(c, r1, lines[1..]);
            ReadLines(c, r, lines) == (r2, p1 + p2)
  {
    hide ReadLine;
  }

  lemma {:induction false} ParsedHasNoRaw(c: Client, tags: T.State, lines: seq<string>)
    ensures !AnyRaw(ParsedAnswers(c, tags, lines))
    decreases |lines|
  {
    hide EventText, FromChoice, T.FeedText;
    if lines != [] {
      ParsedHasNoRaw(c, T.FeedText(tags, EventText(c, lines[0])).0, lines[1..]);
    }
  }

  lemma AnyJoins(a: seq<Answer>, b: seq<Answer>)
    ensures AnyRaw(a) || AnyRaw(b) ==> AnyRaw(a + b)
  {
    if i :| 0 <= i < |a| && (a[i].Unparsed? || a[i].Elsewhere?) {
      assert (a + b)[i] == a[i];
    }
    if j :| 0 <= j < |b| && (b[j].Unparsed? || b[j].Elsewhere?) {
      assert (a + b)[|a| + j] == b[j];
    }
  }

  lemma FirstAstray(c: Client, lines: seq<string>)
    requires lines != []
    ensures NoneAstray(c, lines) <==> !Astray(c, lines[0]) && NoneAstray(c, lines[1..])
  {
    hide Astray;
  }

  /** A line that goes astray comes to some raw text; any other to what it should. */
  lemma ComesAsExpected(c: Client, line: string, out: T.Output)
    ensures if Astray(c, line) then AnyRaw(Comes(c, line, out)) else Comes(c, line, out) == Expected(c, line, out)
  {
    hide EventText, EventReasoning, EventOthers, Bypasses, AnyRaw;
    var r := IfAny(EventReasoning(c, line), Reasoned(EventReasoning(c, line)));
    var o := IfAny(EventOthers(c, line), Elsewhere(EventOthers(c, line)));
    var m := if Bypasses(c, line) then [Unparsed(EventText(c, line))] else Shown(c, line, out);
    OneIsRaw(Unparsed(EventText(c, line)));
    OneIsRaw(Elsewhere(EventOthers(c, line)));
    AnyJoins(r, m);
    AnyJoins(r + m, o);
    assert (r + m) + [] == r + m;
  }

  lemma OneIsRaw(a: Answer)
    ensures a.Unparsed? || a.Elsewhere? ==> AnyRaw([a])
  {
    assert [a][0] == a;
  }

  /** Complete lines: parsed delivery when none goes astray, some raw text otherwise. */
  lemma {:induction false} LinesAnswer(c: Client, r: Reader, lines: seq<string>)
    requires !ReadLines(c, r, lines).0.failed
    ensures var (r1, p1) := ReadLines(c, r, lines);
            if NoneAstray(c, lines) then
              && Answers(c, p1) == ParsedAnswers(c, r.tags, lines)
              && r1.tags == T.FeedAll(r.tags, EventTexts(c, lines)).0
            else AnyRaw(Answers(c, p1))
    decreases |lines|
  {
    hide *;
    if lines == [] {
      NoLines(c, r);
    } else {
      ReadUnfolds(c, r, lines);
      var (r1, p1) := ReadLine(c, r, lines[0]);
      var p2 := ReadLines(c, r1, lines[1..]).1;
      if r1.failed {
        ReadAfterFailure(c, r1, lines[1..]);
      }
      LineAnswers(c, r, lines[0]);
      LinesAnswer(c, r1, lines[1..]);
      AnswersSplit(c, p1, p2);
      AnyJoins(Answers(c, p1), Answers(c, p2));
      FirstAstray(c, lines);
      FeedUnfolds(c, r.tags, lines);
      ParsedUnfolds(c, r.tags, lines);
      ComesAsExpected(c, lines[0], T.FeedText(r.tags, EventText(c, lines[0])).1);
      AstrayIs(c, lines[0]);
    }
  }

  lemma AstrayIs(c: Client, line: string)
    ensures Astray(c, line) <==> Bypasses(c, line) || EventOthers(c, line) != ""
  {
    hide Bypasses, EventOthers;
  }

  lemma ParsedUnfolds(c: Client, tags: T.State, lines: seq<string>)
    requires lines != []
    ensures var (next, out) := T.FeedText(tags, EventText(c, lines[0]));
            ParsedAnswers(c, tags, lines) == Expected(c, lines[0], out) + ParsedAnswers(c, next, lines[1..])
  {
    hide Expected, EventText, T.FeedText;
  }

  lemma NoLines(c: Client, r: Reader)
    ensures ReadLines(c, r, []) == (r, []) && NoneAstray(c, []) && Answers(c, []) == []
    ensures ParsedAnswers(c, r.tags, []) == [] && T.FeedAll(r.tags, EventTexts(c, [])) == (r.tags, T.Output("", ""))
    ensures r.content + "" == r.content && r.thinking + "" == r.thinking && TextOf([]) == "" == ThinkingOf([])
    ensures Interleaved(c, r.tags, []) == ""
  {
  }

  // ---- the whole stream

  /**
    Every delta goes through the parser: none has reasoning and text, stands on a line without the
    space or in an unfinished last line, or goes to a client of unknown format; and no chunk has
    text in a further choice.
   */
  ghost predicate AllParsed(c: Client, text: string, last: string) {
    NoneAstray(c, Cut(text).0) && EventText(c, Cut(text).1 + last) == "" == EventOthers(c, Cut(text).1 + last)
  }

  lemma NoText(c: Client)
    ensures EventText(c, "") == "" == EventOthers(c, "")
  {
  }

  /** What the unfinished last line adds on both sides. */
  lemma TailAnswers(c: Client, tags: T.State, tail: string)
    ensures Answers(c, [Tail(tail)]) == Raw(c, tail)
    ensures if EventText(c, tail) == "" == EventOthers(c, tail) then Raw(c, tail) == ParsedAnswers(c, tags, [tail])
            else AnyRaw(Raw(c, tail))
  {
    AnswersOne(c, Tail(tail));
    hide EventText, EventReasoning, EventOthers, T.FeedText, AnyRaw;
    var r := IfAny(EventReasoning(c, tail), Reasoned(EventReasoning(c, tail)));
    var m := IfAny(EventText(c, tail), Unparsed(EventText(c, tail)));
    var o := IfAny(EventOthers(c, tail), Elsewhere(EventOthers(c, tail)));
    OneIsRaw(Unparsed(EventText(c, tail)));
    OneIsRaw(Elsewhere(EventOthers(c, tail)));
    AnyJoins(r, m);
    AnyJoins(r + m, o);
    var none: seq<Answer> := [];
    assert [tail][1..] == [] && (r + none) + none == r + none == r;
  }

  lemma CloseIs(c: Client, run: Run, last: string)
    requires !run.reader.failed && !Close(c, run, last).reader.failed
    ensures var tail := run.buf + last;
            Close(c, run, last).sent == run.sent + if tail == "" then [] else [Tail(tail)]
    ensures Close(c, run, last).reader
            == run.reader.(scanned := run.reader.scanned + if run.buf + last == "" then [] else [run.buf + last])
  {
    hide Raises;
    assert run.sent + [] == run.sent && run.reader.scanned + [] == run.reader.scanned;
  }

  lemma WholeSent(c: Client, texts: seq<string>, last: string)
    requires !Whole(c, texts, last).reader.failed
    ensures var text := T.Join(texts);
            var (reader, pieces) := ReadText(c, text);
            var tail := Cut(text).1 + last;
            && !reader.failed && Whole(c, texts, last).sent == pieces + (if tail == "" then [] else [Tail(tail)])
            && Whole(c, texts, last).reader.tags == reader.tags
            && Whole(c, texts, last).reader.content == reader.content
            && Whole(c, texts, last).reader.thinking == reader.thinking
  {
    hide *;
    ChunkingInvisible(c, texts, last);
    var text := T.Join(texts);
    var (reader, pieces) := ReadText(c, text);
    FailureIsKept(c, Run(reader, Cut(text).1, []), last);
    CloseIs(c, Run(reader, Cut(text).1, pieces), last);
  }

  lemma FailureIsKept(c: Client, run: Run, last: string)
    ensures run.reader.failed ==> Close(c, run, last).reader.failed
  {
  }

  /**
    All that a whole stream says reaches the client as it should, reasoning as it is and each
    delta's text as the tag parser releases it, if and only if every delta goes through the parser:
    the others go out as they came, tags and all.
   */
  lemma DeliveredIsParsed(c: Client, texts: seq<string>, last: string)
    requires !Whole(c, texts, last).reader.failed
    ensures var text := T.Join(texts);
            Answers(c, Whole(c, texts, last).sent) == ParsedAnswers(c, T.INITIAL, AllLines(text, last))
            <==> AllParsed(c, text, last)
  {
    hide *;
    var text := T.Join(texts);
    var (lines, rest) := Cut(text);
    var tail := rest + last;
    var pieces := ReadText(c, text).1;
    WholeSent(c, texts, last);
    ReadTextIs(c, text);
    StartsClean();
    LinesAnswer(c, START, lines);
    ParsedHasNoRaw(c, T.INITIAL, AllLines(text, last));
    AllLinesAre(text, last);
    AllParsedIs(c, text, last);
    if tail != "" {
      AnswersSplit(c, pieces, [Tail(tail)]);
      TailAnswers(c, T.FeedAll(T.INITIAL, EventTexts(c, lines)).0, tail);
      ParsedSplit(c, T.INITIAL, lines, [tail]);
      AnyJoins(Answers(c, pieces), Raw(c, tail));
    } else {
      NoText(c);
      assert pieces + [] == pieces;
    }
  }

  lemma AllLinesAre(text: string, last: string)
    ensures var (lines, rest) := Cut(text);
            AllLines(text, last) == if rest + last == "" then lines else lines + [rest + last]
  {
    hide Cut;
  }

  lemma AllParsedIs(c: Client, text: string, last: string)
    ensures AllParsed(c, text, last)
            <==> && NoneAstray(c, Cut(text).0)
                 && EventText(c, Cut(text).1 + last) == "" == EventOthers(c, Cut(text).1 + last)
  {
    hide Cut, NoneAstray, EventText, EventOthers;
  }

  lemma StartsClean()
    ensures START.tags == T.INITIAL && START.content == "" && START.thinking == "" && T.Withholding(T.INITIAL)
            && !START.failed
  {
  }

  // ---- the joined text

  /** The client reads choices and nothing else. */
  predicate OnlyOpenAi(c: Client) { c.openai && !c.anthropic }

  lemma ExpectedText(c: Client, line: string, out: T.Output)
    requires EventText(c, line) == "" ==> out == T.Output("", "")
    ensures TextOf(Shown(c, line, out)) == out.standard == TextOf(Expected(c, line, out))
    ensures OnlyOpenAi(c) ==> ThinkingOf(Expected(c, line, out)) == EventReasoning(c, line) + out.thinking
  {
    EventOfChoice(c, line);
    hide EventText, FromChoice, EventReasoning, TextOf, ThinkingOf;
    var r := IfAny(EventReasoning(c, line), Reasoned(EventReasoning(c, line)));
    OneString(Parsed(out));
    OneString(Reasoned(EventReasoning(c, line)));
    TextJoins(r, Shown(c, line, out));
    ThinkingJoins(r, Shown(c, line, out));
    assert "" + out.standard == out.standard && EventReasoning(c, line) + "" == EventReasoning(c, line);
  }

  lemma OneString(a: Answer)
    ensures TextOf([a]) == AnswerString(a) && ThinkingOf([a]) == ThinkingString(a)
    ensures TextOf([]) == "" == ThinkingOf([])
  {
    hide AnswerString, ThinkingString;
    assert [a][1..] == [];
    assert AnswerString(a) + "" == AnswerString(a) && ThinkingString(a) + "" == ThinkingString(a);
  }

  lemma EventOfChoice(c: Client, line: string)
    ensures EventText(c, line) != "" && OnlyOpenAi(c) ==> FromChoice(c, line)
  {
  }

  lemma {:induction false} TextJoins(a: seq<Answer>, b: seq<Answer>)
    ensures TextOf(a + b) == TextOf(a) + TextOf(b)
    decreases |a|
  {
    hide AnswerString;
    if a == [] {
      assert a + b == b;
    } else {
      assert (a + b)[1..] == a[1..] + b;
      TextJoins(a[1..], b);
      assert (AnswerString(a[0]) + TextOf(a[1..])) + TextOf(b) == AnswerString(a[0]) + (TextOf(a[1..]) + TextOf(b));
    }
  }

  lemma {:induction false} ThinkingJoins(a: seq<Answer>, b: seq<Answer>)
    ensures ThinkingOf(a + b) == ThinkingOf(a) + ThinkingOf(b)
    decreases |a|
  {
    hide ThinkingString;
    if a == [] {
      assert a + b == b;
    } else {
      assert (a + b)[1..] == a[1..] + b;
      ThinkingJoins(a[1..], b);
      assert (ThinkingString(a[0]) + ThinkingOf(a[1..])) + ThinkingOf(b)
             == ThinkingString(a[0]) + (ThinkingOf(a[1..]) + ThinkingOf(b));
    }
  }

  /** Parsed delta by delta or all at once: the same text; the thinking is what is interleaved. */
  lemma {:induction false} ParsedTexts(c: Client, tags: T.State, lines: seq<string>)
    ensures TextOf(ParsedAnswers(c, tags, lines)) == T.FeedAll(tags, EventTexts(c, lines)).1.standard
    ensures OnlyOpenAi(c) ==> ThinkingOf(ParsedAnswers(c, tags, lines)) == Interleaved(c, tags, lines)
    ensures NoReasoning(c, lines) ==> Interleaved(c, tags, lines) == T.FeedAll(tags, EventTexts(c, lines)).1.thinking
    decreases |lines|
  {
    hide *;
    if lines == [] {
      NoLines(c, START.(tags := tags));
    } else {
      var (next, out) := T.FeedText(tags, EventText(c, lines[0]));
      var more := T.FeedAll(next, EventTexts(c, lines[1..])).1;
      ParsedTexts(c, next, lines[1..]);
      ParsedUnfolds(c, tags, lines);
      FeedUnfolds(c, tags, lines);
      InterleavedUnfolds(c, tags, lines);
      FeedNothing(tags);
      ExpectedText(c, lines[0], out);
      TextJoins(Expected(c, lines[0], out), ParsedAnswers(c, next, lines[1..]));
      ThinkingJoins(Expected(c, lines[0], out), ParsedAnswers(c, next, lines[1..]));
      AppendIs(out, more);
      if NoReasoning(c, lines) {
        FirstNoReasoning(c, lines);
        assert "" + out.thinking == out.thinking;
      }
    }
  }

  lemma InterleavedUnfolds(c: Client, tags: T.State, lines: seq<string>)
    requires lines != []
    ensures var (next, out) := T.FeedText(tags, EventText(c, lines[0]));
            Interleaved(c, tags, lines)
            == (EventReasoning(c, lines[0]) + out.thinking) + Interleaved(c, next, lines[1..])
  {
    hide EventText, EventReasoning, T.FeedText;
  }

  lemma AppendIs(a: T.Output, b: T.Output)
    ensures T.Append(a, b) == T.Output(a.thinking + b.thinking, a.standard + b.standard)
  {
  }

  /** What is kept of the lines of a stream. */
  lemma {:induction false} LinesKeep(c: Client, r: Reader, lines: seq<string>)
    requires !ReadLines(c, r, lines).0.failed && NoneAstray(c, lines)
    ensures var (r1, out) := (ReadLines(c, r, lines).0, T.FeedAll(r.tags, EventTexts(c, lines)).1);
            && r1.content == r.content + out.standard
            && (NoReasoning(c, lines) ==> r1.thinking == r.thinking + out.thinking)
    decreases |lines|
  {
    hide *;
    if lines == [] {
      NoLines(c, r);
    } else {
      ReadUnfolds(c, r, lines);
      var r1 := ReadLine(c, r, lines[0]).0;
      if r1.failed {
        ReadAfterFailure(c, r1, lines[1..]);
      }
      LineAnswers(c, r, lines[0]);
      FirstAstray(c, lines);
      AstrayIs(c, lines[0]);
      LinesKeep(c, r1, lines[1..]);
      FeedUnfolds(c, r.tags, lines);
      var (tags, out) := T.FeedText(r.tags, EventText(c, lines[0]));
      var rest := T.FeedAll(tags, EventTexts(c, lines[1..])).1;
      AppendIs(out, rest);
      assert (r.content + out.standard) + rest.standard == r.content + (out.standard + rest.standard);
      if NoReasoning(c, lines) {
        FirstNoReasoning(c, lines);
        assert (r.thinking + out.thinking) + rest.thinking == r.thinking + (out.thinking + rest.thinking);
      }
    }
  }

  lemma FirstNoReasoning(c: Client, lines: seq<string>)
    requires NoReasoning(c, lines) && lines != []
    ensures EventReasoning(c, lines[0]) == "" && NoReasoning(c, lines[1..])
  {
    hide EventReasoning;
  }

  /** The deltas of a stream, joined, when none of them stands in an unfinished last line. */
  function AllText(c: Client, texts: seq<string>): string { T.Join(EventTexts(c, Cut(T.Join(texts)).0)) }

  /**
    When every delta goes through the parser, the answer text the client gets, and the content kept
    of it, is what the parser releases for all deltas joined, however upstream divides its text into
    events and the network divides the events; the thinking that a client of OpenAI chunks gets is
    the structured reasoning and the thinking text, each line's in turn.
   */
  lemma AnswerIsOneShot(c: Client, texts: seq<string>, last: string)
    requires !Whole(c, texts, last).reader.failed && AllParsed(c, T.Join(texts), last)
    ensures var whole := Whole(c, texts, last);
            var (st, out) := T.FeedText(T.INITIAL, AllText(c, texts));
            && whole.reader.tags == st && TextOf(Answers(c, whole.sent)) == out.standard == whole.reader.content
            && (OnlyOpenAi(c) ==>
                  ThinkingOf(Answers(c, whole.sent)) == Interleaved(c, T.INITIAL, AllLines(T.Join(texts), last)))
            && (NoReasoning(c, AllLines(T.Join(texts), last)) ==>
                  Interleaved(c, T.INITIAL, AllLines(T.Join(texts), last)) == out.thinking == whole.reader.thinking)
  {
    hide *;
    var text := T.Join(texts);
    var (lines, rest) := Cut(text);
    DeliveredIsParsed(c, texts, last);
    WholeSent(c, texts, last);
    ReadTextIs(c, text);
    StartsClean();
    AllParsedIs(c, text, last);
    LinesAnswer(c, START, lines);
    LinesKeep(c, START, lines);
    T.ChunkingDoesNotMatter(T.INITIAL, EventTexts(c, lines));
    ParsedTexts(c, T.INITIAL, AllLines(text, last));
    TailAddsNothing(c, T.INITIAL, lines, rest + last);
    AllLinesAre(text, last);
    NoReasoningBefore(c, lines, rest + last);
    AllTextIs(c, texts);
    var out := T.FeedText(T.INITIAL, AllText(c, texts)).1;
    assert "" + out.standard == out.standard && "" + out.thinking == out.thinking;
  }

  lemma AllTextIs(c: Client, texts: seq<string>)
    ensures AllText(c, texts) == T.Join(EventTexts(c, Cut(T.Join(texts)).0))
  {
    hide Cut;
  }

  /** An unfinished last line without text adds nothing to the texts fed. */
  lemma TailAddsNothing(c: Client, tags: T.State, lines: seq<string>, tail: string)
    requires EventText(c, tail) == ""
    ensures T.FeedAll(tags, EventTexts(c, lines + [tail])) == T.FeedAll(tags, EventTexts(c, lines))
    decreases |lines|
  {
    hide EventText, T.FeedText, T.Append;
    if lines == [] {
      assert lines + [tail] == [tail] && [tail][1..] == [];
      FeedNothing(tags);
      FeedUnfolds(c, tags, [tail]);
      T.AppendLaws(T.Output("", ""), T.Output("", ""), T.Output("", ""));
    } else {
      assert (lines + [tail])[1..] == lines[1..] + [tail];
      FeedUnfolds(c, tags, lines);
      FeedUnfolds(c, tags, lines + [tail]);
      TailAddsNothing(c, T.FeedText(tags, EventText(c, lines[0])).0, lines[1..], tail);
    }
  }

  lemma NoReasoningBefore(c: Client, lines: seq<string>, tail: string)
    ensures NoReasoning(c, lines + [tail]) ==> NoReasoning(c, lines)
  {
    hide EventReasoning;
    if NoReasoning(c, lines + [tail]) {
      assert forall i :: 0 <= i < |lines| ==> (lines + [tail])[i] == lines[i];
    }
  }

  /**
    The answer text falls short of what stands outside the think tags of all deltas joined by just
    what the parser withholds at the end: it is all of it if and only if the stream ends inside a
    tag pair or with nothing withheld. The same of the thinking, when none of it is structured.
   */
  lemma AnswerIsOutside(c: Client, texts: seq<string>, last: string)
    requires !Whole(c, texts, last).reader.failed && AllParsed(c, T.Join(texts), last)
    ensures var whole, all := Whole(c, texts, last), AllText(c, texts);
            var st, got := whole.reader.tags, Answers(c, whole.sent);
            && TextOf(got) + (if st.thinking then "" else st.buffer) == T.Standing(false, false, all)
            && (TextOf(got) == T.Standing(false, false, all) <==> st.thinking || st.buffer == "")
            && (OnlyOpenAi(c) && NoReasoning(c, AllLines(T.Join(texts), last)) ==>
                  && ThinkingOf(got) + (if st.thinking then st.buffer else "") == T.Standing(true, false, all)
                  && (ThinkingOf(got) == T.Standing(true, false, all) <==> !st.thinking || st.buffer == ""))
  {
    hide *;
    AnswerIsOneShot(c, texts, last);
    var all := AllText(c, texts);
    var st, got := Whole(c, texts, last).reader.tags, Answers(c, Whole(c, texts, last).sent);
    FedFromStart(all);
    T.ReleasedIsStanding(false, all);
    assert TextOf(got) + "" == TextOf(got) && ThinkingOf(got) + "" == ThinkingOf(got);
    assert |TextOf(got) + st.buffer| == |TextOf(got)| + |st.buffer|;
    assert |ThinkingOf(got) + st.buffer| == |ThinkingOf(got)| + |st.buffer|;
  }

  lemma FedFromStart(s: string)
    ensures T.FeedText(T.INITIAL, s) == T.Scan(false, s)
  {
    hide *;
    StartsClean();
    InitialIs();
    if s == "" {
      T.ScanOfHeld(T.INITIAL);
      FeedNothing(T.INITIAL);
    } else {
      FeedIs(T.INITIAL, s);
      assert "" + s == s;
    }
  }

  lemma InitialIs()
    ensures !T.INITIAL.thinking && T.INITIAL.buffer == ""
  {
  }

  // ---- exactly when the text is the same all the same

  /** The parser that lets a text through as it is keeps its state. */
  lemma LetThrough(tags: T.State, text: string)
    requires T.Withholding(tags) && T.FeedText(tags, text).1.standard == text
    ensures T.FeedText(tags, text).0 == tags
  {
    hide *;
    if text == "" {
      FeedNothing(tags);
    } else {
      FeedIs(tags, text);
      var s := tags.buffer + text;
      var (st, out) := T.Scan(tags.thinking, s);
      var texts := T.NothingLost(tags.thinking, s);
      T.WeaveLength(tags.thinking, texts);
      T.ScanWithholds(tags.thinking, s);
      assert |s| == |tags.buffer| + |text|;
      assert |s| == |T.Weave(tags.thinking, texts)| + |st.buffer|;
      SomeText(tags.thinking, s, texts, st.buffer);
      TagLengthsAtLeast(tags.thinking, |texts|);
      HeldShort(tags);
      SelectOne(tags.thinking, texts);
      SameHeld(tags, st);
    }
  }

  lemma FeedIs(tags: T.State, text: string)
    requires text != ""
    ensures T.FeedText(tags, text) == T.Scan(tags.thinking, tags.buffer + text)
  {
  }

  lemma SomeText(thinking: bool, s: string, texts: seq<string>, rest: string)
    requires T.Divides(thinking, s, texts, rest)
    ensures |texts| >= 1
  {
  }

  lemma TagLengthsAtLeast(thinking: bool, n: nat)
    ensures if n <= 1 then T.TagLengths(thinking, n) == 0 else T.TagLengths(thinking, n) >= |T.Tag(thinking)|
  {
    hide T.Tag;
  }

  lemma HeldShort(tags: T.State)
    requires T.Withholding(tags)
    ensures |tags.buffer| < |T.Tag(tags.thinking)|
  {
  }

  lemma SelectOne(thinking: bool, texts: seq<string>)
    ensures |texts| == 1 ==> T.Select(!thinking, thinking, texts) == ""
  {
    if |texts| == 1 { assert texts[1..] == []; }
  }

  lemma SameHeld(a: T.State, b: T.State)
    requires T.Withholding(a) && T.Withholding(b)
    ensures a.thinking == b.thinking && |a.buffer| == |b.buffer| ==> a == b
  {
    hide T.Tag;
  }

  /** The answer text the client gets for each complete line. */
  function GotTexts(c: Client, r: Reader, lines: seq<string>): seq<string>
    decreases |lines|
  {
    if lines == [] then []
    else
      var (r1, p1) := ReadLine(c, r, lines[0]);
      [TextOf(Answers(c, p1))] + GotTexts(c, r1, lines[1..])
  }

  /** What the parser releases for each, when every delta goes through it. */
  function Released(c: Client, tags: T.State, lines: seq<string>): seq<string>
    decreases |lines|
  {
    if lines == [] then []
    else
      var (next, out) := T.FeedText(tags, EventText(c, lines[0]));
      [out.standard] + Released(c, next, lines[1..])
  }

  /** The parser, as it stands each time, would let every text that goes past it through as it is. */
  ghost predicate Harmless(c: Client, tags: T.State, lines: seq<string>)
    decreases |lines|
  {
    lines == [] ||
    var (next, out) := T.FeedText(tags, EventText(c, lines[0]));
    if Bypasses(c, lines[0]) then out.standard == EventText(c, lines[0]) && Harmless(c, tags, lines[1..])
    else Harmless(c, next, lines[1..])
  }

  /**
    Line by line, the client gets the text that the parser would release if it were fed every delta,
    if and only if the parser would let each text that goes past it through as it is.
   */
  lemma {:induction false} GotIsReleased(c: Client, r: Reader, lines: seq<string>)
    requires !ReadLines(c, r, lines).0.failed && T.Withholding(r.tags)
    ensures GotTexts(c, r, lines) == Released(c, r.tags, lines) <==> Harmless(c, r.tags, lines)
    decreases |lines|
  {
    hide *;
    if lines == [] {
      NoTexts(c, r);
    } else {
      ReadUnfolds(c, r, lines);
      var r1 := ReadLine(c, r, lines[0]).0;
      if r1.failed {
        ReadAfterFailure(c, r1, lines[1..]);
      }
      var (next, out) := T.FeedText(r.tags, EventText(c, lines[0]));
      LineAnswers(c, r, lines[0]);
      FedWithholds(r.tags, EventText(c, lines[0]));
      GotIsReleased(c, r1, lines[1..]);
      TextsUnfold(c, r, lines);
      FeedNothing(r.tags);
      ComesText(c, lines[0], out);
      if Bypasses(c, lines[0]) && out.standard == EventText(c, lines[0]) {
        LetThrough(r.tags, EventText(c, lines[0]));
      }
    }
  }

  /** The answer text of the first choice that a line comes to. */
  lemma ComesText(c: Client, line: string, out: T.Output)
    requires EventText(c, line) == "" ==> out == T.Output("", "")
    ensures TextOf(Comes(c, line, out)) == if Bypasses(c, line) then EventText(c, line) else out.standard
  {
    hide *;
    ExpectedText(c, line, out);
    var r := IfAny(EventReasoning(c, line), Reasoned(EventReasoning(c, line)));
    var m := if Bypasses(c, line) then [Unparsed(EventText(c, line))] else Shown(c, line, out);
    var o := IfAny(EventOthers(c, line), Elsewhere(EventOthers(c, line)));
    ComesIs(c, line, out);
    NoAnswerText(EventReasoning(c, line), Reasoned(EventReasoning(c, line)));
    NoAnswerText(EventOthers(c, line), Elsewhere(EventOthers(c, line)));
    RawText(EventText(c, line));
    TextJoins(r, m);
    TextJoins(r + m, o);
    assert "" + TextOf(m) == TextOf(m) && TextOf(m) + "" == TextOf(m);
  }

  lemma ComesIs(c: Client, line: string, out: T.Output)
    ensures Comes(c, line, out)
            == IfAny(EventReasoning(c, line), Reasoned(EventReasoning(c, line)))
               + (if Bypasses(c, line) then [Unparsed(EventText(c, line))] else Shown(c, line, out))
               + IfAny(EventOthers(c, line), Elsewhere(EventOthers(c, line)))
  {
    hide EventText, EventReasoning, EventOthers, Bypasses, Shown, IfAny;
  }

  lemma NoAnswerText(text: string, a: Answer)
    requires a.Reasoned? || a.Elsewhere?
    ensures TextOf(IfAny(text, a)) == ""
  {
    OneString(a);
  }

  lemma RawText(text: string)
    ensures TextOf([Unparsed(text)]) == text
  {
    OneString(Unparsed(text));
  }

  lemma NoTexts(c: Client, r: Reader)
    ensures GotTexts(c, r, []) == [] == Released(c, r.tags, []) && Harmless(c, r.tags, [])
  {
  }

  lemma FedWithholds(tags: T.State, text: string)
    requires T.Withholding(tags)
    ensures T.Withholding(T.FeedText(tags, text).0)
  {
    T.ScanWithholds(tags.thinking, tags.buffer + text);
    hide T.Withholding, T.Scan;
  }

  lemma TextsUnfold(c: Client, r: Reader, lines: seq<string>)
    requires lines != []
    ensures var (r1, p1) := ReadLine(c, r, lines[0]);
            var (next, out) := T.FeedText(r.tags, EventText(c, lines[0]));
            && (GotTexts(c, r, lines) == Released(c, r.tags, lines)
                <==> TextOf(Answers(c, p1)) == out.standard
                     && GotTexts(c, r1, lines[1..]) == Released(c, next, lines[1..]))
            && (Harmless(c, r.tags, lines)
                <==> if Bypasses(c, lines[0])
                     then out.standard == EventText(c, lines[0]) && Harmless(c, r.tags, lines[1..])
                     else Harmless(c, next, lines[1..]))
  {
    hide ReadLine, T.FeedText, EventText, Bypasses, TextOf, Answers;
    var (r1, p1) := ReadLine(c, r, lines[0]);
    var (next, out) := T.FeedText(r.tags, EventText(c, lines[0]));
    var a, b := GotTexts(c, r1, lines[1..]), Released(c, next, lines[1..]);
    assert GotTexts(c, r, lines) == [TextOf(Answers(c, p1))] + a && Released(c, r.tags, lines) == [out.standard] + b;
    assert ([TextOf(Answers(c, p1))] + a)[1..] == a && ([out.standard] + b)[1..] == b;
    assert ([TextOf(Answers(c, p1))] + a)[0] == TextOf(Answers(c, p1)) && ([out.standard] + b)[0] == out.standard;
  }

  // ---- the inputs that go past the parser

  const TAGGED := "<think>a</think>b"

  lemma OpensAt0()
    ensures Text.Find(TAGGED, "<think>", 0) == 0
  {
    hide Text.Find;
    assert Text.OccursAt(TAGGED, "<think>", 0);
    Text.FindIs(TAGGED, "<think>", 0, 0);
  }

  lemma ClosesAt1()
    ensures Text.Find("a</think>b", "</think>", 0) == 1
  {
    hide Text.Find;
    var t := "a</think>b";
    assert Text.OccursAt(t, "</think>", 1);
    assert t[0..8][0] == 'a' && "</think>"[0] == '<';
    Text.FindIs(t, "</think>", 0, 1);
  }

  lemma NoTagInPlain()
    ensures Text.Find("b", T.Tag(false), 0) == -1 && T.Held(false, "b") == 0
  {
    hide Text.Find, Text.LongestHeld;
    assert "b"[0..][0] == 'b' && "<think>"[..1][0] == '<';
    assert !Text.EndsWithPrefix("b", T.Tag(false), 1);
  }

  lemma PlainEnds()
    ensures T.Scan(false, "b") == (T.INITIAL, T.Output("", "b"))
  {
    NoTagInPlain();
    hide T.Scan, T.Tag, T.Held, Text.Find;
    T.ScanRunsOut(false, "b", 1);
    assert "b"[1..] == "" && "b"[..1] == "b";
  }

  lemma TaggedParses()
    ensures T.FeedText(T.INITIAL, TAGGED) == (T.INITIAL, T.Output("a", "b"))
  {
    OpensAt0();
    ClosesAt1();
    PlainEnds();
    hide T.Scan, Text.Find;
    T.ScanMeetsTag(false, TAGGED, 0);
    assert TAGGED[0 + 7..] == "a</think>b" && TAGGED[..0] == "";
    T.ScanMeetsTag(true, "a</think>b", 1);
    assert "a</think>b"[1 + 8..] == "b" && "a</think>b"[..1] == "a";
    assert "" + TAGGED == TAGGED && "a" + "" == "a" && "" + "b" == "b" && "" + "a" == "a";
  }

  lemma OneLine(line: string)
    requires '\n' !in line
    ensures Cut(line + ['\n']) == ([line], "") && Cut(line) == ([], line)
  {
    CutIs([line], "");
    NoLine(line);
    hide Cut;
    assert [line][1..] == [] && Glue([], "") == "";
    assert Glue([line], "") == line + ['\n'] + Glue([line][1..], "") == line + ['\n'];
  }

  /** A client for which every payload is the same chunk. */
  function Always(openai: bool, reasoning: string, content: string, others: string): Client {
    Client(openai, false, _ => Object(Delta(reasoning, content), others, NoBlock))
  }

  const EVENT := "data: {}"
  const UNSPACED := "data:{}"

  lemma BracesStay()
    ensures Text.Strip("{}") == "{}"
  {
  }

  /** What the lines hold, for such a client. */
  lemma EventReads(c: Client, line: string, openai: bool, reasoning: string, content: string, others: string)
    requires c == Always(openai, reasoning, content, others) && (line == EVENT || line == UNSPACED) && content != ""
    ensures !Raises(c, line) && '\n' !in line && line != ""
    ensures EventText(c, line) == content && EventReasoning(c, line) == reasoning && EventOthers(c, line) == others
    ensures FromChoice(c, line) <==> openai
    ensures Bypasses(c, line) <==> reasoning != "" || line == UNSPACED || !openai
    ensures Rewrite(c, line)
            == if line == EVENT && openai then OpenAiChoice(Delta(reasoning, content), "{}") else Passed("")
  {
    BracesStay();
    hide Text.Strip, ScanPayload;
    if line == EVENT {
      SamePayload(line);
      assert line[6..] == "{}";
    } else {
      assert line[..5] == "data:" && line[5..] == "{}" && line[5] == '{';
    }
  }

  /** A whole stream of one line that is passed on. */
  lemma RawLine(c: Client, line: string)
    requires '\n' !in line && line != "" && !Raises(c, line) && Rewrite(c, line).Passed?
    ensures var whole := Whole(c, [line + ['\n']], "");
            && whole.sent == [Line(line)] && !whole.reader.failed && Answers(c, whole.sent) == Raw(c, line)
    ensures AllLines(line + ['\n'], "") == [line]
  {
    hide *;
    var text := line + ['\n'];
    OneLine(line);
    JoinTwo(text, "", "");
    ChunkingInvisible(c, [text], "");
    ReadTextIs(c, text);
    StartsClean();
    ReadOne(c, START, line);
    PassedOn(c, START, line);
    var reader := ReadText(c, text).0;
    CloseEmpty(c, Run(reader, "", [Line(line)]));
    CloseEmpty(c, Run(reader, "", []));
    AnswersOne(c, Line(line));
    LineIsRaw(c, line);
    AllLinesAre(text, "");
    assert "" + "" == "";
  }

  /** A delta with reasoning and tagged text is sent as it came, tags and all. */
  lemma BothFieldsGoRaw()
    ensures var c, text := Always(true, "r", TAGGED, ""), EVENT + ['\n'];
            var whole := Whole(c, [text], "");
            && whole.sent == [Line(EVENT)] && !whole.reader.failed
            && Answers(c, whole.sent) == [Reasoned("r"), Unparsed(TAGGED)]
            && ParsedAnswers(c, T.INITIAL, AllLines(text, "")) == [Reasoned("r"), Parsed(T.Output("a", "b"))]
  {
    hide *;
    var c := Always(true, "r", TAGGED, "");
    NotEmpty();
    EventReads(c, EVENT, true, "r", TAGGED, "");
    ChoicePasses("r", TAGGED);
    RawLine(c, EVENT);
    TaggedParses();
    RawIs(c, EVENT);
    OneParsed(c, EVENT, T.Output("a", "b"));
  }

  /** So is a delta on a line without a space after the colon. */
  lemma UnspacedGoesRaw()
    ensures var c, text := Always(true, "", TAGGED, ""), UNSPACED + ['\n'];
            var whole := Whole(c, [text], "");
            && whole.sent == [Line(UNSPACED)] && !whole.reader.failed
            && Answers(c, whole.sent) == [Unparsed(TAGGED)]
            && ParsedAnswers(c, T.INITIAL, AllLines(text, "")) == [Parsed(T.Output("a", "b"))]
  {
    hide *;
    var c := Always(true, "", TAGGED, "");
    NotEmpty();
    EventReads(c, UNSPACED, true, "", TAGGED, "");
    RawLine(c, UNSPACED);
    TaggedParses();
    RawIs(c, UNSPACED);
    OneParsed(c, UNSPACED, T.Output("a", "b"));
  }

  /** So is any delta when the client's format is unknown. */
  lemma UnknownFormatGoesRaw()
    ensures var c, text := Always(false, "", TAGGED, ""), EVENT + ['\n'];
            var whole := Whole(c, [text], "");
            && whole.sent == [Line(EVENT)] && !whole.reader.failed
            && Answers(c, whole.sent) == [Unparsed(TAGGED)]
            && ParsedAnswers(c, T.INITIAL, AllLines(text, "")) == [Parsed(T.Output("a", "b"))]
  {
    hide *;
    var c := Always(false, "", TAGGED, "");
    NotEmpty();
    EventReads(c, EVENT, false, "", TAGGED, "");
    RawLine(c, EVENT);
    TaggedParses();
    RawIs(c, EVENT);
    OneParsed(c, EVENT, T.Output("a", "b"));
  }

  /** So is an event that no newline ends. */
  lemma TailGoesRaw()
    ensures var c, text := Always(true, "", TAGGED, ""), EVENT;
            var whole := Whole(c, [text], "");
            && whole.sent == [Tail(EVENT)] && !whole.reader.failed
            && Answers(c, whole.sent) == [Unparsed(TAGGED)]
            && ParsedAnswers(c, T.INITIAL, AllLines(text, "")) == [Parsed(T.Output("a", "b"))]
  {
    hide *;
    var c, text := Always(true, "", TAGGED, ""), EVENT;
    NotEmpty();
    EventReads(c, EVENT, true, "", TAGGED, "");
    TaggedParses();
    OneLine(EVENT);
    JoinTwo(text, "", "");
    ChunkingInvisible(c, [text], "");
    ReadTextIs(c, text);
    StartsClean();
    NoneRead(c, START);
    assert EVENT + "" == EVENT && !Raises(c, EVENT);
    CloseTail(c, Run(START, EVENT, []));
    TailAnswers(c, T.INITIAL, EVENT);
    RawIs(c, EVENT);
    AllLinesAre(text, "");
    var none: seq<string> := [];
    assert none + [EVENT] == [EVENT];
    OneParsed(c, EVENT, T.Output("a", "b"));
  }

  /** And so is the text of a further choice, in an event whose first choice is parsed. */
  lemma FurtherChoiceGoesRaw()
    ensures var c, text := Always(true, "", TAGGED, TAGGED), EVENT + ['\n'];
            var whole := Whole(c, [text], "");
            && !whole.reader.failed && Answers(c, whole.sent) == [Parsed(T.Output("a", "b")), Elsewhere(TAGGED)]
            && ParsedAnswers(c, T.INITIAL, AllLines(text, "")) == [Parsed(T.Output("a", "b"))]
  {
    hide *;
    var c, text, out := Always(true, "", TAGGED, TAGGED), EVENT + ['\n'], T.Output("a", "b");
    NotEmpty();
    EventReads(c, EVENT, true, "", TAGGED, TAGGED);
    ChoiceFeeds(TAGGED);
    TaggedParses();
    OneLine(EVENT);
    JoinTwo(text, "", "");
    ChunkingInvisible(c, [text], "");
    ReadTextIs(c, text);
    StartsClean();
    ReadOne(c, START, EVENT);
    LineFails(c, START, EVENT);
    CanBeRead(c, EVENT);
    LineAnswers(c, START, EVENT);
    var (reader, pieces) := ReadText(c, text);
    CloseEmpty(c, Run(reader, "", pieces));
    CloseEmpty(c, Run(reader, "", []));
    ComesTwice(c, EVENT, out, TAGGED);
    AllLinesAre(text, "");
    assert "" + "" == "";
    OneParsed(c, EVENT, out);
  }

  lemma NotEmpty()
    ensures TAGGED != "" && EVENT != UNSPACED && "r" != ""
  {
    assert EVENT[5] == ' ' && UNSPACED[5] == '{';
  }

  lemma ChoicePasses(reasoning: string, content: string)
    ensures reasoning != "" ==> OpenAiChoice(Delta(reasoning, content), "{}") == Passed(reasoning)
  {
  }

  lemma ChoiceFeeds(content: string)
    ensures content != "" ==> OpenAiChoice(Delta("", content), "{}") == Fed(content, "{}")
  {
  }

  lemma CanBeRead(c: Client, line: string)
    requires !Raises(c, line) && Rewrite(c, line).Fed?
    ensures Readable(c, line)
  {
    hide Raises, Rewrite;
  }

  lemma NoneRead(c: Client, r: Reader)
    ensures ReadLines(c, r, []) == (r, [])
  {
  }

  lemma PassedOn(c: Client, r: Reader, line: string)
    requires !r.failed && !Raises(c, line) && Rewrite(c, line).Passed?
    ensures ReadLine(c, r, line).1 == [Line(line)] && !ReadLine(c, r, line).0.failed
  {
    hide Raises, Rewrite;
  }

  lemma CloseEmpty(c: Client, run: Run)
    requires !run.reader.failed && run.buf == ""
    ensures Close(c, run, "") == run
  {
  }

  lemma CloseTail(c: Client, run: Run)
    requires !run.reader.failed && run.buf != "" && !Raises(c, run.buf) && run.sent == []
    ensures Close(c, run, "").sent == [Tail(run.buf)] && !Close(c, run, "").reader.failed
  {
    hide Raises;
    assert run.buf + "" == run.buf;
  }

  lemma LineIsRaw(c: Client, line: string)
    ensures AnswerOf(c, Line(line)) == Raw(c, line)
  {
    hide Raw;
  }

  /** What a raw line without further choices says. */
  lemma RawIs(c: Client, line: string)
    requires EventText(c, line) != "" && EventOthers(c, line) == ""
    ensures Raw(c, line)
            == if EventReasoning(c, line) == "" then [Unparsed(EventText(c, line))]
               else [Reasoned(EventReasoning(c, line)), Unparsed(EventText(c, line))]
  {
    hide EventText, EventReasoning, EventOthers;
  }

  lemma ComesTwice(c: Client, line: string, out: T.Output, others: string)
    requires EventText(c, line) != "" && EventReasoning(c, line) == "" && EventOthers(c, line) == others != ""
    requires !Bypasses(c, line) && FromChoice(c, line)
    ensures Comes(c, line, out) == [Parsed(out), Elsewhere(others)]
  {
    hide EventText, EventReasoning, EventOthers, Bypasses, FromChoice;
  }

  lemma OneParsed(c: Client, line: string, out: T.Output)
    requires EventText(c, line) != "" && T.FeedText(T.INITIAL, EventText(c, line)).1 == out && out.standard != ""
    ensures ParsedAnswers(c, T.INITIAL, [line])
            == if EventReasoning(c, line) == "" then [Parsed(out)]
               else [Reasoned(EventReasoning(c, line)), Parsed(out)]
  {
    hide EventText, EventReasoning, FromChoice, T.FeedText;
    assert [line][1..] == [];
    assert Expected(c, line, out) + [] == Expected(c, line, out);
  }
}
