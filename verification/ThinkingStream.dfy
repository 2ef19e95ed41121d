/** The stream path that separates thinking from answer text, line by line. */
module ThinkingStream {
  import opened Wrappers
  import opened StreamLines
  import T = ThinkTags
  import Text

  // ------------------------------------------------------------------ what a line says

  /** The first choice of an OpenAI chunk. */
  datatype Choice =
    | NoChoices                                      // no "choices", or an empty list
    | NoDelta
    | BadChoice                                      // shaped so that reading it raises
    | Delta(reasoning: string, content: string)      // "" when absent, null or empty

  /** The delta of an Anthropic event. */
  datatype Block = NoBlock | OtherBlock | BadBlock | TextBlock(text: string)

  /** What a payload parses to. */
  datatype Payload =
    | NotJson
    | Null
    | Unreadable                                     // JSON that the usage scanner raises on: not an object
    | Object(choice: Choice, others: string, block: Block)   // `others`: the answer text of any further choices

  /** The format the client expects, and the JSON library. */
  datatype Client = Client(openai: bool, anthropic: bool, parse: string -> Payload)

  /** The JSON payload the usage scanner finds in a line. */
  function ScanPayload(line: string): Option<string> {
    var s := Text.Strip(line);
    if Text.StartsWith(s, "data:") then
      var p := Text.Strip(s[5..]);
      if p == "" || p == "[DONE]" then None else Some(p)
    else if Text.StartsWith(s, "{") then Some(s)
    else None
  }

  /** Scanning the line for usage raises. */
  predicate Raises(c: Client, line: string) {
    var p := ScanPayload(line);
    p.Some? && c.parse(p.value).Unreadable?
  }

  // ------------------------------------------------------------------ one line

  /** A piece of what the client is sent. */
  datatype Piece =
    | Bytes(raw: seq<bv8>)                           // an upstream chunk, untouched
    | Line(line: string)                             // a line, untouched, and its newline
    | Rewritten(payload: string, out: T.Output)      // the payload's event, with its text replaced
    | Tail(text: string)                             // a last line without a newline

  /** What reading has led to. `scanned` are the lines the usage scanner took in. */
  datatype Reader = Reader(tags: T.State, scanned: seq<string>, thinking: string, content: string, failed: bool)

  const START := Reader(T.INITIAL, [], "", "", false)

  /** The rewriting of one line: it raises, or it may feed the tag parser and send something on. */
  datatype Rewriting = Refused | Passed(reasoning: string) | Fed(text: string, payload: string)

  function OpenAiChoice(choice: Choice, payload: string): Rewriting {
    match choice
    case NoChoices => Passed("")
    case NoDelta => Passed("")
    case BadChoice => Refused
    case Delta(reasoning, content) =>
      if reasoning != "" then Passed(reasoning) else if content != "" then Fed(content, payload) else Passed("")
  }

  function AnthropicBlock(block: Block, payload: string): Rewriting {
    match block
    case NoBlock => Passed("")
    case OtherBlock => Passed("")
    case BadBlock => Refused
    case TextBlock(text) => Fed(text, payload)
  }

  function Rewrite(c: Client, line: string): Rewriting {
    if !Text.StartsWith(line, "data: ") then Passed("")
    else
      var p := Text.Strip(line[6..]);
      if p == "[DONE]" then Passed("") else
      match c.parse(p)
      case NotJson => Passed("")
      case Null => if c.openai || c.anthropic then Refused else Passed("")
      case Unreadable => Refused
      case Object(choice, _, block) =>
        if c.openai && choice != NoChoices then OpenAiChoice(choice, p)
        else if c.anthropic then AnthropicBlock(block, p)
        else Passed("")
  }

  /** An OpenAI event is always sent on; an Anthropic one only when text is left in it. */
  predicate SentOn(c: Client, payload: string, out: T.Output) {
    out.standard != "" || (c.openai && c.parse(payload).Object? && c.parse(payload).choice != NoChoices)
  }

  /** Read one complete line. After a failure nothing more is read. */
  function ReadLine(c: Client, r: Reader, line: string): (Reader, seq<Piece>) {
    if r.failed then (r, [])
    else if Raises(c, line) then (r.(failed := true), [])
    else
      var seen := r.(scanned := r.scanned + [line]);
      match Rewrite(c, line)
      case Refused => (seen.(failed := true), [])
      case Passed(reasoning) => (seen.(thinking := r.thinking + reasoning), [Line(line)])
      case Fed(text, payload) =>
        var (tags, out) := T.FeedText(r.tags, text);
        (seen.(tags := tags, thinking := r.thinking + out.thinking, content := r.content + out.standard),
         if SentOn(c, payload, out) then [Rewritten(payload, out)] else [])
  }

  function ReadLines(c: Client, r: Reader, lines: seq<string>): (Reader, seq<Piece>)
    decreases |lines|
  {
    if lines == [] then (r, [])
    else
      var (r1, p1) := ReadLine(c, r, lines[0]);
      var (r2, p2) := ReadLines(c, r1, lines[1..]);
      (r2, p1 + p2)
  }

  lemma {:induction false} ReadSplit(c: Client, r: Reader, a: seq<string>, b: seq<string>)
    ensures var (r1, p1) := ReadLines(c, r, a);
            var (r2, p2) := ReadLines(c, r1, b);
            ReadLines(c, r, a + b) == (r2, p1 + p2)
    decreases |a|
  {
    hide ReadLine;
    if a == [] {
      assert a + b == b;
      assert [] + ReadLines(c, r, b).1 == ReadLines(c, r, b).1;
    } else {
      assert (a + b)[1..] == a[1..] + b;
      var (r1, p1) := ReadLine(c, r, a[0]);
      ReadSplit(c, r1, a[1..], b);
      var (r2, p2) := ReadLines(c, r1, a[1..]);
      var p3 := ReadLines(c, r2, b).1;
      assert (p1 + p2) + p3 == p1 + (p2 + p3);
    }
  }

  lemma ReadOne(c: Client, r: Reader, line: string)
    ensures ReadLines(c, r, [line]) == ReadLine(c, r, line)
  {
    hide ReadLine;
    assert [line][1..] == [];
    assert ReadLine(c, r, line).1 + [] == ReadLine(c, r, line).1;
  }

  /** Nothing is read after a failure. */
  lemma {:induction false} ReadAfterFailure(c: Client, r: Reader, lines: seq<string>)
    requires r.failed
    ensures ReadLines(c, r, lines) == (r, [])
    decreases |lines|
  {
    hide Raises, Rewrite;
    if lines != [] {
      ReadAfterFailure(c, r, lines[1..]);
      var none: seq<Piece> := [];
      assert none + none == none;
    }
  }

  // ------------------------------------------------------------------ chunks

  /** A stream under way: the unfinished line, and what the client was sent. */
  datatype Run = Run(reader: Reader, buf: string, sent: seq<Piece>)

  /** Take in one chunk of text: a chunk in which a line fails sends nothing. */
  function Take(c: Client, run: Run, text: string): Run {
    if run.reader.failed then run
    else
      var (lines, rest) := Cut(run.buf + text);
      var (reader, pieces) := ReadLines(c, run.reader, lines);
      Run(reader, rest, if reader.failed then run.sent else run.sent + pieces)
  }

  function TakeAll(c: Client, run: Run, texts: seq<string>): Run
    decreases |texts|
  {
    if texts == [] then run else TakeAll(c, Take(c, run, texts[0]), texts[1..])
  }

  /** The end of the stream: an unfinished line is scanned and sent unchanged. `last` is what the decoder still held. */
  function Close(c: Client, run: Run, last: string): Run {
    var tail := run.buf + last;
    if run.reader.failed then run
    else if tail == "" then run.(buf := "")
    else if Raises(c, tail) then Run(run.reader.(failed := true), tail, run.sent)
    else Run(run.reader.(scanned := run.reader.scanned + [tail]), tail, run.sent + [Tail(tail)])
  }

  const OPENED := Run(START, "", [])

  function Whole(c: Client, texts: seq<string>, last: string): Run {
    Close(c, TakeAll(c, OPENED, texts), last)
  }

  /** All of a text read at once. */
  function ReadText(c: Client, text: string): (Reader, seq<Piece>) { ReadLines(c, START, Cut(text).0) }

  // ------------------------------------------------------------------ chunking

  lemma {:induction false} TakeAfterFailure(c: Client, run: Run, texts: seq<string>)
    requires run.reader.failed
    ensures TakeAll(c, run, texts) == run
    decreases |texts|
  {
    hide Cut, ReadLines;
    if texts != [] { TakeAfterFailure(c, run, texts[1..]); }
  }

  predicate Prefix(a: seq<Piece>, b: seq<Piece>) { |a| <= |b| && a == b[..|a|] }

  /** What any cut of a text reads and sends, from any point of a stream. */
  lemma {:induction false} TakeIsRead(c: Client, run: Run, texts: seq<string>)
    requires !run.reader.failed && '\n' !in run.buf
    ensures var (lines, rest) := Cut(run.buf + T.Join(texts));
            var (reader, pieces) := ReadLines(c, run.reader, lines);
            var after := TakeAll(c, run, texts);
            && after.reader == reader
            && (!reader.failed ==> after.buf == rest && after.sent == run.sent + pieces)
            && (reader.failed ==> Prefix(run.sent, after.sent) && Prefix(after.sent, run.sent + pieces))
    decreases |texts|
  {
    if texts == [] {
      hide *;
      NoTexts(c, run);
    } else {
      hide *;
      var text, more := texts[0], T.Join(texts[1..]);
      var (l1, r1) := Cut(run.buf + text);
      var (l2, r2) := Cut(r1 + more);
      JoinUnfolds(texts);
      assert run.buf + T.Join(texts) == (run.buf + text) + more;
      CutSplit(run.buf + text, more);
      ReadSplit(c, run.reader, l1, l2);
      TakeUnfolds(c, run, texts);
      var (m, p1) := ReadLines(c, run.reader, l1);
      var next := Take(c, run, text);
      if m.failed {
        TakeAfterFailure(c, next, texts[1..]);
        ReadAfterFailure(c, m, l2);
        Prefixes(run.sent, p1, []);
      } else {
        CutGlues(run.buf + text);
        BrokenRest(l1, r1);
        TakeIsRead(c, next, texts[1..]);
        var (reader, p2) := ReadLines(c, m, l2);
        Prefixes(run.sent, p1, p2);
        PrefixTrans(run.sent, run.sent + p1, TakeAll(c, next, texts[1..]).sent);
      }
    }
  }

  lemma NoTexts(c: Client, run: Run)
    requires '\n' !in run.buf
    ensures Cut(run.buf + T.Join([])) == ([], run.buf) && TakeAll(c, run, []) == run
    ensures ReadLines(c, run.reader, []) == (run.reader, [])
    ensures run.sent + [] == run.sent && Prefix(run.sent, run.sent)
  {
    NoLine(run.buf);
    hide Cut;
    assert run.buf + T.Join([]) == run.buf;
  }

  lemma JoinUnfolds(texts: seq<string>)
    requires texts != []
    ensures T.Join(texts) == texts[0] + T.Join(texts[1..])
  {
  }

  lemma TakeUnfolds(c: Client, run: Run, texts: seq<string>)
    requires texts != [] && !run.reader.failed
    ensures TakeAll(c, run, texts) == TakeAll(c, Take(c, run, texts[0]), texts[1..])
    ensures var (lines, rest) := Cut(run.buf + texts[0]);
            var (reader, pieces) := ReadLines(c, run.reader, lines);
            Take(c, run, texts[0]) == Run(reader, rest, if reader.failed then run.sent else run.sent + pieces)
  {
    hide Cut, ReadLines;
  }

  lemma BrokenRest(lines: seq<string>, rest: string)
    requires Broken(lines, rest)
    ensures '\n' !in rest
  {
  }

  lemma Prefixes(a: seq<Piece>, b: seq<Piece>, d: seq<Piece>)
    ensures Prefix(a, a) && Prefix(a, a + b) && (a + b) + d == a + (b + d) && b + [] == b
  {
  }

  lemma PrefixTrans(a: seq<Piece>, b: seq<Piece>, d: seq<Piece>)
    requires Prefix(a, b)
    ensures Prefix(b, d) ==> Prefix(a, d)
  {
    if Prefix(b, d) {
      assert d[..|a|] == d[..|b|][..|a|];
    }
  }

  /**
    However a text is cut into chunks, the same lines are scanned, the tag parser ends in the same
    state with the same texts, and the stream fails or does not. Unless it fails, the same pieces
    are sent; if it fails, a beginning of them.
   */
  lemma ChunkingInvisible(c: Client, texts: seq<string>, last: string)
    ensures var text := T.Join(texts);
            var (reader, pieces) := ReadText(c, text);
            var whole := Whole(c, texts, last);
            && whole.reader == Close(c, Run(reader, Cut(text).1, []), last).reader
            && (!reader.failed ==> whole == Close(c, Run(reader, Cut(text).1, pieces), last))
            && (reader.failed ==> Prefix(whole.sent, pieces))
  {
    hide Cut, ReadLines, TakeAll, Raises;
    TakeIsRead(c, OPENED, texts);
    assert "" + T.Join(texts) == T.Join(texts);
    var pieces := ReadText(c, T.Join(texts)).1;
    assert [] + pieces == pieces;
  }

  /** Where the lines stop being readable. */
  lemma {:induction false} FailsAt(c: Client, r: Reader, lines: seq<string>) returns (k: nat)
    requires !r.failed && ReadLines(c, r, lines).0.failed
    ensures k < |lines| && !ReadLines(c, r, lines[..k]).0.failed
    ensures ReadLines(c, r, lines[..k]).1 == ReadLines(c, r, lines).1
    decreases |lines|
  {
    hide ReadLine;
    var (r1, p1) := ReadLine(c, r, lines[0]);
    if r1.failed {
      k := 0;
      ReadAfterFailure(c, r1, lines[1..]);
      FailedSendsNothing(c, r, lines[0]);
    } else {
      var j := FailsAt(c, r1, lines[1..]);
      k := j + 1;
      assert lines[..k][0] == lines[0] && lines[..k][1..] == lines[1..][..j];
    }
  }

  lemma FailedSendsNothing(c: Client, r: Reader, line: string)
    ensures ReadLine(c, r, line).0.failed ==> ReadLine(c, r, line).1 == []
  {
    hide Raises, Rewrite, T.FeedText;
  }

  /** Two cuts of a failing text: one sends nothing, the other everything that comes before the failure. */
  lemma {:induction false} TwoCuts(c: Client, text: string, last: string)
    returns (whole: seq<string>, halves: seq<string>)
    requires ReadText(c, text).0.failed
    ensures T.Join(whole) == text == T.Join(halves)
    ensures Whole(c, whole, last).sent == [] && Whole(c, halves, last).sent == ReadText(c, text).1
  {
    hide *;
    var (lines, rest) := Cut(text);
    ReadTextIs(c, text);
    var k := FailsAt(c, START, lines);
    CutAfter(text, k);
    var head, tail := Glue(lines[..k], ""), Glue(lines[k..], rest);
    whole, halves := [text], [head, tail];
    JoinTwo(text, head, tail);
    OneChunk(c, OPENED, text);
    FailedStays(c, Take(c, OPENED, text), last);
    var (mid, pieces) := ReadLines(c, START, lines[..k]);
    TwoChunks(c, OPENED, head, tail);
    assert lines == lines[..k] + lines[k..];
    ReadSplit(c, START, lines[..k], lines[k..]);
    FirstHalf(c, head, lines[..k]);
    SecondHalf(c, Take(c, OPENED, head), tail, lines[k..], rest, last);
    WholeIs(c, whole, last);
    WholeIs(c, halves, last);
  }

  lemma ReadTextIs(c: Client, text: string)
    ensures ReadText(c, text) == ReadLines(c, START, Cut(text).0) && !START.failed && OPENED == Run(START, "", [])
  {
    hide ReadLines, Cut;
  }

  lemma WholeIs(c: Client, texts: seq<string>, last: string)
    ensures Whole(c, texts, last) == Close(c, TakeAll(c, OPENED, texts), last)
  {
    hide TakeAll, Close;
  }

  lemma JoinTwo(text: string, head: string, tail: string)
    ensures T.Join([text]) == text && T.Join([head, tail]) == head + tail
  {
    assert [text][1..] == [] && [head, tail][1..] == [tail] && [tail][1..] == [];
    assert T.Join([tail]) == tail + T.Join([]) == tail;
  }

  lemma OneChunk(c: Client, run: Run, text: string)
    requires run == OPENED
    ensures TakeAll(c, run, [text]) == Take(c, run, text)
    ensures var (reader, pieces) := ReadText(c, text);
            Take(c, run, text) == Run(reader, Cut(text).1, if reader.failed then [] else pieces)
  {
    hide Cut, ReadLines;
    assert [text][1..] == [];
    assert "" + text == text;
    assert [] + ReadText(c, text).1 == ReadText(c, text).1;
    hide Take;
  }

  lemma TwoChunks(c: Client, run: Run, head: string, tail: string)
    ensures TakeAll(c, run, [head, tail]) == Take(c, Take(c, run, head), tail)
  {
    hide Take;
    assert [head, tail][1..] == [tail] && [tail][1..] == [];
    assert TakeAll(c, Take(c, run, head), [tail]) == TakeAll(c, Take(c, Take(c, run, head), tail), []);
  }

  lemma FailedStays(c: Client, run: Run, last: string)
    requires run.reader.failed
    ensures Close(c, run, last) == run
  {
  }

  lemma FirstHalf(c: Client, head: string, lines: seq<string>)
    requires Cut(head) == (lines, "") && !ReadLines(c, START, lines).0.failed
    ensures Take(c, OPENED, head) == Run(ReadLines(c, START, lines).0, "", ReadLines(c, START, lines).1)
  {
    hide Cut, ReadLines;
    assert "" + head == head;
    assert [] + ReadLines(c, START, lines).1 == ReadLines(c, START, lines).1;
  }

  lemma SecondHalf(c: Client, run: Run, tail: string, lines: seq<string>, rest: string, last: string)
    requires run.buf == "" && Cut(tail) == (lines, rest) && !run.reader.failed
             && ReadLines(c, run.reader, lines).0.failed
    ensures Close(c, Take(c, run, tail), last).sent == run.sent
  {
    hide Cut, ReadLines, Raises;
    assert "" + tail == tail;
  }

  /** The line can be read: neither its usage scan nor its rewriting raises. */
  predicate Readable(c: Client, line: string) { !Raises(c, line) && Rewrite(c, line) != Refused }

  ghost predicate AllReadable(c: Client, lines: seq<string>) {
    forall i :: 0 <= i < |lines| ==> Readable(c, lines[i])
  }

  lemma LineFails(c: Client, r: Reader, line: string)
    requires !r.failed
    ensures ReadLine(c, r, line).0.failed <==> !Readable(c, line)
  {
    hide Raises, Rewrite, T.FeedText;
  }

  /** Reading fails exactly when some line cannot be read. */
  lemma {:induction false} FailsOnUnreadable(c: Client, r: Reader, lines: seq<string>)
    requires !r.failed
    ensures ReadLines(c, r, lines).0.failed <==> !AllReadable(c, lines)
    decreases |lines|
  {
    hide ReadLine, Readable;
    if lines != [] {
      var r1 := ReadLine(c, r, lines[0]).0;
      LineFails(c, r, lines[0]);
      assert AllReadable(c, lines) <==> Readable(c, lines[0]) && AllReadable(c, lines[1..]);
      if r1.failed {
        ReadAfterFailure(c, r1, lines[1..]);
      } else {
        FailsOnUnreadable(c, r1, lines[1..]);
      }
    }
  }

  /** The line is an Anthropic delta, of which only answer text is sent on. */
  predicate BlockDelta(c: Client, line: string) {
    var rw := Rewrite(c, line);
    rw.Fed? && !(c.openai && c.parse(rw.payload).Object? && c.parse(rw.payload).choice != NoChoices)
  }

  function FedText(c: Client, line: string): string {
    var rw := Rewrite(c, line);
    if rw.Fed? then rw.text else ""
  }

  function FedTexts(c: Client, lines: seq<string>): seq<string>
    decreases |lines|
  {
    if lines == [] then [] else [FedText(c, lines[0])] + FedTexts(c, lines[1..])
  }

  ghost predicate AllBlockDeltas(c: Client, lines: seq<string>) {
    forall i :: 0 <= i < |lines| ==> BlockDelta(c, lines[i])
  }

  /** These lines are Anthropic deltas, and the parser releases no answer text of theirs. */
  ghost predicate QuietDeltas(c: Client, lines: seq<string>) {
    AllBlockDeltas(c, lines) && T.FeedText(T.INITIAL, T.Join(FedTexts(c, lines))).1.standard == ""
  }

  lemma LineSends(c: Client, r: Reader, line: string)
    requires !r.failed && Readable(c, line)
    ensures var (r1, p1) := ReadLine(c, r, line);
            && !r1.failed
            && (p1 == [] <==> BlockDelta(c, line) && T.FeedText(r.tags, FedText(c, line)).1.standard == "")
            && (BlockDelta(c, line) ==> r1.tags == T.FeedText(r.tags, FedText(c, line)).0)
  {
    hide Raises, Rewrite, T.FeedText;
  }

  /** Readable lines send nothing exactly when they are Anthropic deltas that release no answer text. */
  lemma {:induction false} LinesSend(c: Client, r: Reader, lines: seq<string>)
    requires !r.failed && AllReadable(c, lines)
    ensures ReadLines(c, r, lines).1 == []
            <==> AllBlockDeltas(c, lines) && T.FeedAll(r.tags, FedTexts(c, lines)).1.standard == ""
    decreases |lines|
  {
    hide *;
    if lines == [] {
      NothingRead(c, r);
    } else {
      FirstReadable(c, lines);
      var (r1, p1) := ReadLine(c, r, lines[0]);
      var p2 := ReadLines(c, r1, lines[1..]).1;
      LineSends(c, r, lines[0]);
      LinesSend(c, r1, lines[1..]);
      RestUnfolds(c, r, lines);
      assert p1 + p2 == [] <==> p1 == [] && p2 == [];
    }
  }

  lemma NothingRead(c: Client, r: Reader)
    ensures ReadLines(c, r, []) == (r, []) && AllBlockDeltas(c, [])
            && T.FeedAll(r.tags, FedTexts(c, [])).1.standard == ""
  {
  }

  lemma FirstReadable(c: Client, lines: seq<string>)
    requires AllReadable(c, lines) && lines != []
    ensures Readable(c, lines[0]) && AllReadable(c, lines[1..])
  {
    hide Readable;
  }

  lemma RestUnfolds(c: Client, r: Reader, lines: seq<string>)
    requires lines != []
    ensures var (r1, p1) := ReadLine(c, r, lines[0]);
            var (r2, p2) := ReadLines(c, r1, lines[1..]);
            ReadLines(c, r, lines) == (r2, p1 + p2)
    ensures AllBlockDeltas(c, lines) <==> BlockDelta(c, lines[0]) && AllBlockDeltas(c, lines[1..])
    ensures var (t1, o1) := T.FeedText(r.tags, FedText(c, lines[0]));
            var o2 := T.FeedAll(t1, FedTexts(c, lines[1..])).1;
            T.FeedAll(r.tags, FedTexts(c, lines)).1.standard == "" <==> o1.standard == "" && o2.standard == ""
  {
    hide ReadLine, BlockDelta, FedText, T.FeedText;
    var all := FedTexts(c, lines);
    assert all == [FedText(c, lines[0])] + FedTexts(c, lines[1..]);
    assert all[0] == FedText(c, lines[0]) && all[1..] == FedTexts(c, lines[1..]);
  }

  /** Line `k` is the first that cannot be read. */
  ghost predicate FirstUnreadable(c: Client, lines: seq<string>, k: nat) {
    k < |lines| && !Readable(c, lines[k]) && AllReadable(c, lines[..k])
  }

  /** What comes before the first unreadable line sends nothing: told by the lines. */
  lemma SentBefore(c: Client, lines: seq<string>, k: nat)
    requires FirstUnreadable(c, lines, k)
    ensures ReadLines(c, START, lines).0.failed
    ensures ReadLines(c, START, lines).1 == [] <==> QuietDeltas(c, lines[..k])
  {
    hide *;
    FirstIs(c, lines, k);
    var (r1, p1) := ReadLines(c, START, lines[..k]);
    StartIs();
    LinesSend(c, START, lines[..k]);
    T.ChunkingDoesNotMatter(T.INITIAL, FedTexts(c, lines[..k]));
    QuietIs(c, lines[..k]);
    FailsOnUnreadable(c, START, lines[..k]);
    assert lines == lines[..k] + ([lines[k]] + lines[k + 1..]);
    ReadSplit(c, START, lines[..k], [lines[k]] + lines[k + 1..]);
    ReadSplit(c, r1, [lines[k]], lines[k + 1..]);
    ReadOne(c, r1, lines[k]);
    LineFails(c, r1, lines[k]);
    FailedSendsNothing(c, r1, lines[k]);
    ReadAfterFailure(c, ReadLine(c, r1, lines[k]).0, lines[k + 1..]);
    var none: seq<Piece> := [];
    assert p1 + (none + none) == p1;
  }

  lemma FirstIs(c: Client, lines: seq<string>, k: nat)
    requires FirstUnreadable(c, lines, k)
    ensures k < |lines| && !Readable(c, lines[k]) && AllReadable(c, lines[..k])
  {
  }

  lemma StartIs()
    ensures START.tags == T.INITIAL && !START.failed && T.Withholding(T.INITIAL)
  {
  }

  lemma QuietIs(c: Client, lines: seq<string>)
    ensures QuietDeltas(c, lines)
            <==> AllBlockDeltas(c, lines) && T.FeedText(T.INITIAL, T.Join(FedTexts(c, lines))).1.standard == ""
  {
  }

  lemma {:induction false} SomeFirst(c: Client, lines: seq<string>) returns (k: nat)
    requires !AllReadable(c, lines)
    ensures FirstUnreadable(c, lines, k)
    decreases |lines|
  {
    hide Readable;
    var n := |lines| - 1;
    if AllReadable(c, lines[..n]) {
      k := n;
      assert forall i :: 0 <= i < n ==> lines[i] == lines[..n][i];
    } else {
      k := SomeFirst(c, lines[..n]);
      assert lines[..n][..k] == lines[..k];
    }
  }

  /**
    What the client is sent is the same for every cut of the text if and only if every complete
    line of it can be read, or what comes before the first that cannot releases no answer text: the
    lines that share a chunk with a failing line are lost.
   */
  lemma SentIsCutFree(c: Client, text: string, last: string)
    ensures (forall t1: seq<string>, t2: seq<string> {:trigger Whole(c, t1, last), Whole(c, t2, last)} ::
               T.Join(t1) == text == T.Join(t2) ==> Whole(c, t1, last).sent == Whole(c, t2, last).sent)
            <==> forall k: nat :: FirstUnreadable(c, Cut(text).0, k) ==> QuietDeltas(c, Cut(text).0[..k])
  {
    hide *;
    var lines := Cut(text).0;
    ReadTextIs(c, text);
    StartIs();
    FailsOnUnreadable(c, START, lines);
    forall k: nat | FirstUnreadable(c, lines, k)
      ensures k <= |lines| && (QuietDeltas(c, lines[..k]) <==> ReadText(c, text).1 == [])
      ensures ReadText(c, text).0.failed
    {
      FirstIs(c, lines, k);
      SentBefore(c, lines, k);
    }
    if ReadText(c, text).0.failed {
      var k := SomeFirst(c, lines);
      assert FirstUnreadable(c, lines, k);
    }
    if ReadText(c, text).0.failed && ReadText(c, text).1 != [] {
      var whole, halves := TwoCuts(c, text, last);
      assert Whole(c, whole, last).sent != Whole(c, halves, last).sent;
    } else {
      forall t1: seq<string>, t2: seq<string> {:trigger Whole(c, t1, last), Whole(c, t2, last)}
        | T.Join(t1) == text == T.Join(t2)
        ensures Whole(c, t1, last).sent == Whole(c, t2, last).sent
      {
        ChunkingInvisible(c, t1, last);
        ChunkingInvisible(c, t2, last);
        PrefixOfNothing(Whole(c, t1, last).sent);
        PrefixOfNothing(Whole(c, t2, last).sent);
      }
    }
  }

  lemma PrefixOfNothing(a: seq<Piece>)
    ensures Prefix(a, []) ==> a == []
  {
  }
}
