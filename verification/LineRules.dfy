/**
  What each line of a rewritten stream comes to, told of whole streams by the JSON in the line alone:
  which lines end the stream, which go on as they came, and which are rewritten.
 */
module LineRules {
  import opened Wrappers
  import opened StreamLines
  import opened ThinkingStream
  import opened PassThrough
  import T = ThinkTags
  import Text

  // ------------------------------------------------------------------ the JSON in a line

  /** The usage scan finds JSON `p` in the line: after `data:`, or all of a line that begins with a brace. */
  ghost predicate ScanFinds(line: string, p: string) {
    var s := Text.Strip(line);
    || (Text.StartsWith(s, "data:") && p == Text.Strip(s[5..]) && p != "" && p != "[DONE]")
    || (Text.StartsWith(s, "{") && p == s)
  }

  /** What it finds is JSON, but not an object. */
  ghost predicate ScanBreaks(c: Client, line: string) {
    exists p :: ScanFinds(line, p) && c.parse(p) == Unreadable
  }

  /** What a `data: ` line brings, other than the end mark. */
  function Data(c: Client, line: string): Payload {
    if Text.StartsWith(line, "data: ") && Text.Strip(line[6..]) != "[DONE]" then c.parse(Text.Strip(line[6..]))
    else NotJson
  }

  /** An OpenAI chunk with at least one choice, for a client that reads these. */
  predicate IsChunk(c: Client, data: Payload) { c.openai && data.Object? && data.choice != NoChoices }

  /** Any other object, for a client that reads Anthropic events. */
  predicate IsEvent(c: Client, data: Payload) { c.anthropic && data.Object? && !IsChunk(c, data) }

  /** Null for a known format, JSON that is no object, a first choice or a delta of the wrong shape. */
  predicate BadPayload(c: Client, data: Payload) {
    || (data == Null && (c.openai || c.anthropic))
    || data == Unreadable
    || (IsChunk(c, data) && data.choice == BadChoice)
    || (IsEvent(c, data) && data.block == BadBlock)
  }

  /** The line cannot be read. */
  ghost predicate Breaks(c: Client, line: string) { ScanBreaks(c, line) || BadPayload(c, Data(c, line)) }

  /** An OpenAI delta that has answer text and no structured reasoning. */
  predicate TextChunk(c: Client, data: Payload) {
    IsChunk(c, data) && data.choice.Delta? && data.choice.reasoning == "" && data.choice.content != ""
  }

  /** An Anthropic text delta. */
  predicate TextEvent(c: Client, data: Payload) { IsEvent(c, data) && data.block.TextBlock? }

  /** The text of either. */
  function DeltaText(c: Client, data: Payload): string {
    if TextChunk(c, data) then data.choice.content else if TextEvent(c, data) then data.block.text else ""
  }

  /** The structured reasoning of an OpenAI delta. */
  function Reasoning(c: Client, data: Payload): string {
    if IsChunk(c, data) && data.choice.Delta? then data.choice.reasoning else ""
  }

  // ------------------------------------------------------------------ streams of complete lines

  /** The stream of these lines. */
  function Of(c: Client, lines: seq<string>): Run { Whole(c, [Glue(lines, "")], "") }

  lemma RaisesWhen(c: Client, line: string)
    ensures Raises(c, line) <==> ScanBreaks(c, line)
  {
    hide Text.Strip;
    var s := Text.Strip(line);
    if Text.StartsWith(s, "data:") {
      assert !Text.StartsWith(s, "{");
      var p := Text.Strip(s[5..]);
      assert ScanFinds(line, p) <==> p != "" && p != "[DONE]";
    } else {
      assert ScanFinds(line, s) <==> Text.StartsWith(s, "{");
    }
  }

  /** What the branches of the rewriting decide, told by the payload. */
  lemma RewriteWhen(c: Client, line: string)
    ensures var data := Data(c, line);
            match Rewrite(c, line)
            case Refused => BadPayload(c, data)
            case Passed(reasoning) =>
              !BadPayload(c, data) && !TextChunk(c, data) && !TextEvent(c, data) && reasoning == Reasoning(c, data)
            case Fed(text, p) =>
              && !BadPayload(c, data) && (TextChunk(c, data) || TextEvent(c, data))
              && text == DeltaText(c, data)
              && Text.StartsWith(line, "data: ") && p == Text.Strip(line[6..]) && c.parse(p) == data
  {
    hide Text.Strip;
  }

  lemma OfIs(c: Client, lines: seq<string>)
    requires Broken(lines, "")
    ensures var (reader, pieces) := ReadLines(c, START, lines);
            && Of(c, lines).reader == reader
            && (!reader.failed ==> Of(c, lines).sent == pieces)
  {
    hide *;
    var text := Glue(lines, "");
    CutIs(lines, "");
    JoinTwo(text, text, "");
    ChunkingInvisible(c, [text], "");
    ReadTextIs(c, text);
    var (reader, pieces) := ReadLines(c, START, lines);
    NothingLeft(c, Run(reader, "", []));
    NothingLeft(c, Run(reader, "", pieces));
    OfUnfolds(c, lines);
  }

  lemma NothingLeft(c: Client, run: Run)
    requires run.buf == ""
    ensures Close(c, run, "") == run
  {
    assert run.buf + "" == "";
  }

  lemma OfUnfolds(c: Client, lines: seq<string>)
    ensures Of(c, lines) == Whole(c, [Glue(lines, "")], "")
  {
    hide Whole, Glue;
  }

  lemma BrokenInit(lines: seq<string>, line: string)
    requires Broken(lines + [line], "")
    ensures Broken(lines, "") && '\n' !in line
  {
    forall i | 0 <= i < |lines| ensures '\n' !in lines[i] {
      assert (lines + [line])[i] == lines[i];
    }
    assert (lines + [line])[|lines|] == line;
  }

  /**
    One line more, in full. The stream fails there exactly when the line cannot be read. Otherwise a
    text delta feeds the tag parser: an OpenAI chunk is sent with what the parser releases, an
    Anthropic event too, but only if that has answer text. Any other line goes on as it came, its
    reasoning kept.
   */
  lemma NextLine(c: Client, lines: seq<string>, line: string)
    requires Broken(lines + [line], "") && !Of(c, lines).reader.failed
    ensures var r, data, after := Of(c, lines).reader, Data(c, line), Of(c, lines + [line]);
            if Breaks(c, line) then after.reader.failed
            else if TextChunk(c, data) || TextEvent(c, data) then
              var (tags, out) := T.FeedText(r.tags, DeltaText(c, data));
              && after.reader == Reader(tags, r.scanned + [line], r.thinking + out.thinking, r.content + out.standard,
                                        false)
              && after.sent == Of(c, lines).sent
                               + if TextEvent(c, data) && out.standard == "" then []
                                 else [Rewritten(Text.Strip(line[6..]), out)]
            else
              && after.reader == r.(scanned := r.scanned + [line], thinking := r.thinking + Reasoning(c, data))
              && after.sent == Of(c, lines).sent + [Line(line)]
  {
    hide *;
    BrokenInit(lines, line);
    OfIs(c, lines);
    OfIs(c, lines + [line]);
    ReadSplit(c, START, lines, [line]);
    var (r, sent) := ReadLines(c, START, lines);
    ReadOne(c, r, line);
    LineRead(c, r, line);
  }

  /** The same of one line read from any point. */
  lemma LineRead(c: Client, r: Reader, line: string)
    requires !r.failed
    ensures var data := Data(c, line);
            var (after, pieces) := ReadLine(c, r, line);
            if Breaks(c, line) then after.failed
            else if TextChunk(c, data) || TextEvent(c, data) then
              var (tags, out) := T.FeedText(r.tags, DeltaText(c, data));
              && after == Reader(tags, r.scanned + [line], r.thinking + out.thinking, r.content + out.standard, false)
              && pieces == if TextEvent(c, data) && out.standard == "" then []
                           else [Rewritten(Text.Strip(line[6..]), out)]
            else
              && after == r.(scanned := r.scanned + [line], thinking := r.thinking + Reasoning(c, data))
              && pieces == [Line(line)]
  {
    RaisesWhen(c, line);
    RewriteWhen(c, line);
    hide T.FeedText, Rewrite, Raises, Text.Strip, Data, ScanBreaks;
  }

  /** Reading a whole text fails exactly when some complete line of it breaks, or an unfinished one the scan. */
  lemma FailsOnBreaking(c: Client, texts: seq<string>, last: string)
    ensures var (lines, rest) := Cut(T.Join(texts));
            Whole(c, texts, last).reader.failed
            <==> (exists k :: 0 <= k < |lines| && Breaks(c, lines[k]))
                 || (rest + last != "" && ScanBreaks(c, rest + last))
  {
    hide *;
    var text := T.Join(texts);
    var (lines, rest) := Cut(text);
    ReadTextIs(c, text);
    ChunkingInvisible(c, texts, last);
    FailsOnUnreadable(c, START, lines);
    UnreadableIs(c, lines);
    RaisesWhen(c, rest + last);
    CloseFails(c, Run(ReadLines(c, START, lines).0, rest, []), last);
  }

  lemma CloseFails(c: Client, run: Run, last: string)
    ensures Close(c, run, last).reader.failed
            <==> run.reader.failed || (run.buf + last != "" && Raises(c, run.buf + last))
  {
    hide Raises;
  }

  lemma UnreadableIs(c: Client, lines: seq<string>)
    ensures !AllReadable(c, lines) <==> exists k :: 0 <= k < |lines| && Breaks(c, lines[k])
  {
    hide Readable, Breaks;
    forall k | 0 <= k < |lines| ensures Readable(c, lines[k]) <==> !Breaks(c, lines[k]) {
      ReadableWhen(c, lines[k]);
    }
  }

  lemma ReadableWhen(c: Client, line: string)
    ensures Readable(c, line) <==> !Breaks(c, line)
  {
    RaisesWhen(c, line);
    RewriteWhen(c, line);
    hide Raises, Rewrite, Data, ScanBreaks;
  }

  /**
    Lines that are no `data: ` line, the end mark, and payloads that are not JSON go on as they came,
    unless the usage scan breaks on them; they change nothing else.
   */
  lemma GoesAsItCame(c: Client, lines: seq<string>, line: string)
    requires Broken(lines + [line], "") && !Of(c, lines).reader.failed && !ScanBreaks(c, line)
    requires !Text.StartsWith(line, "data: ") || Text.Strip(line[6..]) == "[DONE]"
             || c.parse(Text.Strip(line[6..])) == NotJson
    ensures var r, after := Of(c, lines).reader, Of(c, lines + [line]);
            after.sent == Of(c, lines).sent + [Line(line)] && after.reader == r.(scanned := r.scanned + [line])
  {
    NextLine(c, lines, line);
    hide Of, Text.Strip, ScanBreaks;
    assert Data(c, line) == NotJson;
    assert Of(c, lines).reader.thinking + "" == Of(c, lines).reader.thinking;
  }

  lemma NoSpaceToStrip(s: string)
    requires s != "" && !Text.IsSpace(s[0]) && !Text.IsSpace(s[|s| - 1])
    ensures Text.Strip(s) == s
  {
  }

  lemma SpaceFirst(s: string)
    ensures Text.Strip([' '] + s) == Text.Strip(s)
  {
    assert ([' '] + s)[1..] == s;
  }

  lemma EndMarkStrips()
    ensures Text.Strip("data: [DONE]") == "data: [DONE]" && Text.Strip("data: [DONE]"[5..]) == "[DONE]"
    ensures Text.StartsWith("data: [DONE]", "data: ") && Text.StartsWith("data: [DONE]", "data:")
    ensures !Text.StartsWith("data: [DONE]", "{") && Text.Strip("data: [DONE]"[6..]) == "[DONE]"
  {
    hide Text.Strip;
    NoSpaceToStrip("data: [DONE]");
    NoSpaceToStrip("[DONE]");
    SpaceFirst("[DONE]");
    assert "data: [DONE]"[5..] == [' '] + "[DONE]" && "data: [DONE]"[6..] == "[DONE]";
  }

  /** The usage scan never breaks on the end mark, nor on a blank line or one without any JSON mark. */
  lemma ScanSpares(c: Client, line: string)
    requires line == "data: [DONE]" || Text.Strip(line) == ""
             || (!Text.StartsWith(Text.Strip(line), "data:") && !Text.StartsWith(Text.Strip(line), "{"))
    ensures !ScanBreaks(c, line)
  {
    hide Text.Strip;
    if line == "data: [DONE]" {
      EndMarkStrips();
      hide Text.StartsWith;
    }
  }

  /** So the ordinary last line of a stream goes on as it came. */
  lemma EndMarkGoesOn(c: Client, lines: seq<string>)
    requires Broken(lines, "") && !Of(c, lines).reader.failed
    ensures var r, after := Of(c, lines).reader, Of(c, lines + ["data: [DONE]"]);
            && after.sent == Of(c, lines).sent + [Line("data: [DONE]")]
            && after.reader == r.(scanned := r.scanned + ["data: [DONE]"])
  {
    hide *;
    EndMarkStrips();
    ScanSpares(c, "data: [DONE]");
    EndMarkIsALine(lines);
    GoesAsItCame(c, lines, "data: [DONE]");
  }

  lemma EndMarkIsALine(lines: seq<string>)
    requires Broken(lines, "")
    ensures Broken(lines + ["data: [DONE]"], "")
  {
  }

  /** An unfinished last line goes on at the end as it came, after the complete lines. */
  lemma LastLineGoesOn(c: Client, texts: seq<string>, last: string)
    requires !Whole(c, texts, last).reader.failed
    ensures var (lines, rest) := Cut(T.Join(texts));
            && Whole(c, texts, last).sent
               == Of(c, lines).sent + (if rest + last == "" then [] else [Tail(rest + last)])
            && Whole(c, texts, last).reader.scanned
               == Of(c, lines).reader.scanned + (if rest + last == "" then [] else [rest + last])
  {
    hide *;
    var text := T.Join(texts);
    var (lines, rest) := Cut(text);
    ReadTextIs(c, text);
    CutGlues(text);
    LinesBroken(lines, rest);
    ChunkingInvisible(c, texts, last);
    OfIs(c, lines);
    var (reader, pieces) := ReadLines(c, START, lines);
    CloseFails(c, Run(reader, rest, []), last);
    CloseFails(c, Run(reader, rest, pieces), last);
    CloseIs(c, Run(reader, rest, pieces), last);
  }

  lemma LinesBroken(lines: seq<string>, rest: string)
    requires Broken(lines, rest)
    ensures Broken(lines, "")
  {
  }

  lemma CloseIs(c: Client, run: Run, last: string)
    requires !Close(c, run, last).reader.failed
    ensures var tail := run.buf + last;
            && Close(c, run, last).sent == run.sent + (if tail == "" then [] else [Tail(tail)])
            && Close(c, run, last).reader.scanned == run.reader.scanned + (if tail == "" then [] else [tail])
  {
    hide Raises;
    assert run.sent + [] == run.sent && run.reader.scanned + [] == run.reader.scanned;
  }

  // ------------------------------------------------------------------ the forwarding path

  /** The first `k` lines can be scanned, and the next, if there is one, cannot. */
  ghost predicate FirstBreak(c: Client, lines: seq<string>, k: nat) {
    k <= |lines| && (k < |lines| ==> ScanBreaks(c, lines[k])) && forall i :: 0 <= i < k ==> !ScanBreaks(c, lines[i])
  }

  lemma {:induction false} BeforeBreak(c: Client, lines: seq<string>, k: nat)
    requires FirstBreak(c, lines, k)
    ensures BeforeRaise(c, lines) == lines[..k]
    decreases |lines|
  {
    hide Raises, ScanBreaks;
    if lines != [] {
      RaisesWhen(c, lines[0]);
      if k > 0 {
        assert forall i :: 0 <= i < k - 1 ==> lines[1..][i] == lines[i + 1];
        BeforeBreak(c, lines[1..], k - 1);
        assert lines[..k] == [lines[0]] + lines[1..][..k - 1];
      }
    }
  }

  /** Of each chunk of complete lines, forwarding scans those before the first that breaks the scan. */
  lemma ChunkScans(c: Client, run: Run, raw: seq<bv8>, lines: seq<string>, k: nat)
    requires run.buf == "" && Broken(lines, "") && FirstBreak(c, lines, k)
    ensures k <= |lines|
    ensures var after := Forward(c, run, Chunk(raw, Glue(lines, "")));
            && after.reader == run.reader.(scanned := run.reader.scanned + lines[..k])
            && after.buf == "" && after.sent == run.sent + [Bytes(raw)]
  {
    BreakIsInside(c, lines, k);
    hide *;
    CutIs(lines, "");
    BeforeBreak(c, lines, k);
    ForwardUnfolds(c, run, Chunk(raw, Glue(lines, "")));
  }

  lemma BreakIsInside(c: Client, lines: seq<string>, k: nat)
    requires FirstBreak(c, lines, k)
    ensures k <= |lines|
  {
  }

  lemma ForwardUnfolds(c: Client, run: Run, chunk: Chunk)
    requires run.buf == ""
    ensures var (lines, rest) := Cut(chunk.text);
            Forward(c, run, chunk)
            == Run(run.reader.(scanned := run.reader.scanned + BeforeRaise(c, lines)), rest,
                   run.sent + [Bytes(chunk.raw)])
  {
    hide Cut, BeforeRaise;
    assert "" + chunk.text == chunk.text;
  }

  /** The unfinished last line is scanned unless it is blank or breaks the scan. */
  lemma RestScans(c: Client, run: Run, last: string)
    ensures CloseForward(c, run, last).reader.scanned
            == run.reader.scanned
               + if Text.Strip(run.buf + last) == "" || ScanBreaks(c, run.buf + last) then [] else [run.buf + last]
  {
    CloseScans(c, run, last);
    RaisesWhen(c, run.buf + last);
    hide CloseForward, Text.Strip, Raises, ScanBreaks;
  }
}
