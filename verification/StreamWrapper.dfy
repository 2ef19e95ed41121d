/** The wrapper around a streamed response: what it sends, and how it ends. */
module StreamWrapper {
  import opened Wrappers
  import opened StreamLines
  import opened ThinkingStream
  import opened PassThrough
  import opened MinuteRollups
  import StatsStore
  import LiveStore
  import Requests
  import opened TrackerCalls
  import G = LiveGauges
  import T = ThinkTags
  import Text

  /** One chunk, on whichever path the wrapper is on. */
  function TakeIn(c: Client, normalise: bool, run: Run, chunk: Chunk): Run {
    if normalise then Take(c, run, chunk.text) else Forward(c, run, chunk)
  }

  function TakeEnd(c: Client, normalise: bool, run: Run, last: string): Run {
    if normalise then Close(c, run, last) else CloseForward(c, run, last)
  }

  class Wrapper {
    const client: Client
    const normalise: bool
    const parser: T.ThinkTagParser
    var lineBuf: string          // parser path: text not yet sent
    var teleBuf: string          // forwarding path: text not yet scanned
    var scanned: seq<string>
    var thinking: string
    var content: string
    var accumulated: seq<Piece>
    var failed: bool             // an exception is on its way

    constructor (client: Client, normalise: bool)
      ensures View() == OPENED && fresh(parser) && this.client == client && this.normalise == normalise
    {
      this.client, this.normalise := client, normalise;
      parser := new T.ThinkTagParser();
      lineBuf, teleBuf, scanned, thinking, content, accumulated, failed := "", "", [], "", "", [], false;
    }

    function ReaderView(): Reader
      reads this, parser
    {
      Reader(parser.View(), scanned, thinking, content, failed)
    }

    function View(): Run
      reads this, parser
    {
      Run(ReaderView(), if normalise then lineBuf else teleBuf, accumulated)
    }

    /** Scan a line for usage. */
    method ScanLine(line: string)
      requires !failed
      modifies `scanned, `failed
      ensures failed == Raises(client, line)
      ensures scanned == if failed then old(scanned) else old(scanned) + [line]
    {
      hide Text.Strip;
      var payload := ScanPayload(line);
      if payload.Some? && client.parse(payload.value).Unreadable? {
        failed := true;
      } else {
        scanned := scanned + [line];
      }
    }

    /** Feed the tag parser and keep what it releases. */
    method Feed(text: string) returns (out: T.Output)
      modifies `thinking, `content, parser
      ensures (parser.View(), out) == T.FeedText(old(parser.View()), text)
      ensures thinking == old(thinking) + out.thinking && content == old(content) + out.standard
    {
      hide T.FeedText;
      var thinkDelta, textDelta := parser.Feed(text);
      thinking := thinking + thinkDelta;
      content := content + textDelta;
      out := T.Output(thinkDelta, textDelta);
    }

    /** The branches for one parsed `data:` line: pass it on, feed its text and rewrite it, or raise. */
    method Normalise(line: string, payload: string, data: Payload) returns (pieces: seq<Piece>)
      requires !failed && Text.StartsWith(line, "data: ") && payload == Text.Strip(line[6..]) && payload != "[DONE]"
      requires data == client.parse(payload)
      modifies `thinking, `content, `failed, parser
      ensures match Rewrite(client, line)
              case Refused => failed && pieces == [] && unchanged(`thinking, `content, parser)
              case Passed(reasoning) =>
                !failed && pieces == [Line(line)] && thinking == old(thinking) + reasoning
                    && unchanged(`content, parser)
              case Fed(text, p) =>
                var (tags, out) := T.FeedText(old(parser.View()), text);
                && !failed && parser.View() == tags && thinking == old(thinking) + out.thinking
                && content == old(content) + out.standard
                && pieces == if SentOn(client, p, out) then [Rewritten(p, out)] else []
    {
      hide Text.Strip, T.FeedText;
      pieces := [];
      var nothing := thinking + "";
      assert nothing == thinking;
      match data
      case NotJson => pieces := [Line(line)];
      case Null =>
        if client.openai || client.anthropic {
          failed := true;
        } else {
          pieces := [Line(line)];
        }
      case Unreadable => failed := true;
      case Object(choice, _, block) =>
        if client.openai && choice != NoChoices {
          match choice
          case NoDelta => pieces := [Line(line)];
          case BadChoice => failed := true;
          case Delta(reasoning, text) =>
            if reasoning != "" {
              thinking := thinking + reasoning;
              pieces := [Line(line)];
            } else if text != "" {
              var out := Feed(text);
              pieces := [Rewritten(payload, out)];
            } else {
              pieces := [Line(line)];
            }
        } else if client.anthropic {
          match block
          case NoBlock => pieces := [Line(line)];
          case OtherBlock => pieces := [Line(line)];
          case BadBlock => failed := true;
          case TextBlock(text) =>
            var out := Feed(text);
            if out.standard != "" {
              pieces := [Rewritten(payload, out)];
            }
        } else {
          pieces := [Line(line)];
        }
    }

    /** One complete line on the parser path. */
    method OnLine(line: string) returns (pieces: seq<Piece>)
      requires !failed
      modifies `scanned, `thinking, `content, `failed, parser
      ensures (ReaderView(), pieces) == ReadLine(client, old(ReaderView()), line)
    {
      hide Text.Strip, T.FeedText, SentOn, Raises;
      pieces := [];
      ScanLine(line);
      if failed {
        return;
      }
      assert thinking + "" == thinking;
      if Text.StartsWith(line, "data: ") {
        var payload := Text.Strip(line[6..]);
        if payload == "[DONE]" {
          pieces := [Line(line)];
        } else {
          pieces := Normalise(line, payload, client.parse(payload));
          hide Rewrite;
        }
      } else {
        pieces := [Line(line)];
      }
    }

    /** All the complete lines of a chunk on the parser path; an exception leaves the rest unread. */
    method OnLines(lines: seq<string>) returns (pieces: seq<Piece>)
      requires !failed
      modifies `scanned, `thinking, `content, `failed, parser
      ensures (ReaderView(), pieces) == ReadLines(client, old(ReaderView()), lines)
    {
      hide ReadLine;
      pieces := [];
      var i := 0;
      assert lines[..0] == [];
      while i < |lines| && !failed
        invariant i <= |lines|
        invariant (ReaderView(), pieces) == ReadLines(client, old(ReaderView()), lines[..i])
      {
        ghost var before := old(ReaderView());
        assert lines[..i + 1] == lines[..i] + [lines[i]];
        ReadSplit(client, before, lines[..i], [lines[i]]);
        ReadOne(client, ReaderView(), lines[i]);
        var more := OnLine(lines[i]);
        pieces := pieces + more;
        i := i + 1;
      }
      if failed {
        ReadSplit(client, old(ReaderView()), lines[..i], lines[i..]);
        ReadAfterFailure(client, ReaderView(), lines[i..]);
        assert lines == lines[..i] + lines[i..] && pieces + [] == pieces;
      } else {
        assert lines[..i] == lines;
      }
    }

    /** The usage scan of the forwarding path: an exception ends it, and goes no further. */
    method ScanLines(lines: seq<string>)
      requires !failed
      modifies `scanned, `failed
      ensures !failed && scanned == old(scanned) + BeforeRaise(client, lines)
    {
      hide Raises;
      var i := 0;
      assert lines[0..] == lines;
      while i < |lines|
        invariant i <= |lines| && !failed
        invariant scanned + BeforeRaise(client, lines[i..]) == old(scanned) + BeforeRaise(client, lines)
      {
        ghost var taken, rest := scanned, BeforeRaise(client, lines[i + 1..]);
        assert lines[i..][0] == lines[i] && lines[i..][1..] == lines[i + 1..];
        ScanLine(lines[i]);
        if failed {
          failed := false;
          assert taken + [] == taken;
          return;
        }
        assert (taken + [lines[i]]) + rest == taken + ([lines[i]] + rest);
        i := i + 1;
      }
      assert scanned + [] == scanned;
    }

    /** One upstream chunk: what it makes the wrapper send. */
    method OnChunk(chunk: Chunk) returns (pieces: seq<Piece>)
      requires !failed
      modifies this, parser
      ensures View() == TakeIn(client, normalise, old(View()), chunk)
      ensures View().sent == old(View().sent) + pieces && (failed ==> pieces == [])
    {
      hide Cut, ReadLines, BeforeRaise;
      if normalise {
        var (lines, rest) := Cut(lineBuf + chunk.text);
        lineBuf := rest;
        pieces := OnLines(lines);
        if failed {
          pieces := [];
        }
        assert accumulated + [] == accumulated;
        accumulated := accumulated + pieces;
      } else {
        pieces := [Bytes(chunk.raw)];
        accumulated := accumulated + pieces;
        var (lines, rest) := Cut(teleBuf + chunk.text);
        teleBuf := rest;
        ScanLines(lines);
      }
    }

    /** The end of the stream, with the flush of the tag parser, which releases nothing. */
    method OnEnd(last: string) returns (pieces: seq<Piece>)
      requires !failed
      modifies this, parser
      ensures View() == TakeEnd(client, normalise, old(View()), last)
      ensures View().sent == old(View().sent) + pieces && (failed ==> pieces == [])
    {
      hide Raises, Text.Strip;
      pieces := [];
      assert accumulated + [] == accumulated;
      if normalise {
        lineBuf := lineBuf + last;
        if lineBuf != "" {
          ScanLine(lineBuf);
          if failed {
            return;
          }
          pieces := [Tail(lineBuf)];
          accumulated := accumulated + pieces;
        }
      } else {
        teleBuf := teleBuf + last;
        if Text.Strip(teleBuf) != "" {
          ScanLine(teleBuf);
          failed := false;
        }
      }
      if normalise && parser.buffer != "" {
        assert thinking + "" == thinking && content + "" == content;
        var out := Feed("");
      }
    }
  }

  // ------------------------------------------------------------------ how a run ends

  /** What disturbs the run: nothing, or a cancellation or an upstream error at one of its waits. */
  datatype Fault =
    | Calm
    | CancelAwait(at: nat)          // while waiting for chunk `at`, or for the end
    | UpstreamError(at: nat)
    | CancelSend(at: nat)           // while what chunk `at` made it send is on its way to the client
    | CancelTail

  /** How the body of the wrapper comes to finalisation. */
  datatype Ended = Normal | Cancelled | Failed

  ghost function Ride(c: Client, normalise: bool, run: Run, chunks: seq<Chunk>, i: nat, last: string,
                      fault: Fault): (Ended, Run)
    requires i <= |chunks|
    decreases |chunks| - i
  {
    if fault == CancelAwait(i) then (Cancelled, run)
    else if fault == UpstreamError(i) then (Failed, run)
    else if i == |chunks| then
      var after := TakeEnd(c, normalise, run, last);
      (if after.reader.failed then Failed
       else if fault == CancelTail && after.sent != run.sent then Cancelled else Normal, after)
    else
      var after := TakeIn(c, normalise, run, chunks[i]);
      if after.reader.failed then (Failed, after)
      else if fault == CancelSend(i) && after.sent != run.sent then (Cancelled, after)
      else Ride(c, normalise, after, chunks, i + 1, last, fault)
  }

  /** How many chunks arrive in such a run. */
  ghost function Arrived(c: Client, normalise: bool, run: Run, chunks: seq<Chunk>, i: nat, last: string,
                         fault: Fault): (n: nat)
    requires i <= |chunks|
    ensures i <= n <= |chunks|
    decreases |chunks| - i
  {
    if fault == CancelAwait(i) || fault == UpstreamError(i) || i == |chunks| then i
    else
      var after := TakeIn(c, normalise, run, chunks[i]);
      if after.reader.failed || (fault == CancelSend(i) && after.sent != run.sent) then i + 1
      else Arrived(c, normalise, after, chunks, i + 1, last, fault)
  }

  /** The completion callback: none, or what its run does. */
  datatype Callback = Absent | Returns | RaisesError | IsCancelled

  /** How recording goes: well, or raising in the metrics or, with the tracker finished, in the span attributes. */
  datatype Recording = Fine | MetricsRaise | AttributesRaise

  datatype Usage = Usage(prompt: int, completion: int, total: int, decodeSeconds: Option<real>)

  /** What the wrapper does to the world around it. */
  datatype Act =
    | Sent(piece: Piece)                                              // yielded to the client
    | Recorded(success: bool, usage: Usage)                           // the call that records request metrics
    | TrackedDone(success: bool, cancelled: bool, usage: Usage)       // the tracker's finish
    | CallbackStarted(cancelled: bool, prompt: int, completion: int)

  /** Everything done so far, in order. Nothing is ever taken back. */
  class Ledger {
    ghost var acts: seq<Act>

    constructor ()
      ensures acts == []
    {
      acts := [];
    }

    method Send(pieces: seq<Piece>)
      modifies this
      ensures acts == old(acts) + Sends(pieces)
    {
      acts := acts + Sends(pieces);
    }

    method RecordMetrics(success: bool, usage: Usage)
      modifies this
      ensures acts == old(acts) + [Recorded(success, usage)]
    {
      acts := acts + [Recorded(success, usage)];
    }

    /** The tracker, if there is one, is finished; `share` is what its minute bucket gains. */
    method TrackDone(tracker: Requests.RequestTracker?, success: bool, cancelled: bool, usage: Usage, now: real,
                     minute: int)
      returns (share: Totals)
      requires tracker != null ==> tracker.store.Valid()
      modifies this, if tracker == null then {} else {tracker, tracker.store}
      ensures acts == old(acts) + [TrackedDone(success, cancelled, usage)]
      ensures tracker != null ==>
                Finished(old(See(tracker)), See(tracker), Closing(success, cancelled, usage, now), share, minute)
      ensures tracker != null && !old(tracker.finished)
              ==> CountsAs(share, success, cancelled, usage, tracker.View(), now)
    {
      hide Requests.TimingOf, Requests.TimesOf, Requests.FiguresOf, Share, Credit, Tell, Told, LiveStore.Whole;
      acts := acts + [TrackedDone(success, cancelled, usage)];
      share := NOTHING;
      if tracker != null {
        var report := Requests.Report(success, cancelled, usage.completion, usage.prompt, usage.total,
                                      usage.decodeSeconds, None, None);
        share := Share(Requests.FiguresOf(tracker.View(), report, now));
        ToldSingle(tracker.store.keys, tracker.View(), End(!success && !cancelled, usage.completion, now));
        EndIs(tracker.store.keys, tracker.View(), success, cancelled, usage, now);
        Requests.ShareOfRequest(tracker.View(), report, now);
        SameTimes(share, tracker.View(), usage.decodeSeconds, usage.completion, now);
        var _ := tracker.Finish(report, now, minute);
      }
    }

    method StartCallback(cancelled: bool, usage: Usage)
      modifies this
      ensures acts == old(acts) + [CallbackStarted(cancelled, usage.prompt, usage.completion)]
    {
      acts := acts + [CallbackStarted(cancelled, usage.prompt, usage.completion)];
    }
  }

  function Sends(pieces: seq<Piece>): seq<Act> { seq(|pieces|, i requires 0 <= i < |pieces| => Sent(pieces[i])) }

  /** Sending more is sending all of it. */
  lemma SendsJoin(before: seq<Act>, a: seq<Piece>, b: seq<Piece>)
    ensures before + Sends(a) + Sends(b) == before + Sends(a + b) && before + Sends([]) == before
  {
  }

  /** Finishing a tracker changes none of its times. */
  lemma SameTimes(share: Totals, t: G.Tracker, generating: Option<real>, tokens: int, now: real)
    ensures forall u: G.Tracker :: u.start == t.start && u.firstToken == t.firstToken ==>
              (Requests.TimesOf(share, u, generating, None, None, tokens, now)
               <==> Requests.TimesOf(share, t, generating, None, None, tokens, now))
  {
  }

  /** What recording does: metrics, then the tracker, as far as it gets. */
  function RecordActs(success: bool, cancelled: bool, recording: Recording, usage: Usage): seq<Act> {
    [Recorded(success, usage)] + if recording == MetricsRaise then [] else [TrackedDone(success, cancelled, usage)]
  }

  /** What a run does at its end, in every outcome: metrics and tracker once, the callback at most once. */
  function ActsOf(ended: Ended, upstreamOk: bool, recording: Recording, callback: Callback, usage: Usage): seq<Act> {
    var success, cancelled := ended == Normal && upstreamOk, ended == Cancelled;
    RecordActs(success, cancelled, recording, usage)
    + if recording != Fine || ended == Failed || callback == Absent then []
      else [CallbackStarted(cancelled, usage.prompt, usage.completion)]
  }

  datatype Kind = Output | Metrics | Finish | Completion

  function KindOf(act: Act): Kind {
    match act
    case Sent(_) => Output
    case Recorded(_, _) => Metrics
    case TrackedDone(_, _, _) => Finish
    case CallbackStarted(_, _, _) => Completion
  }

  /** How often something of this kind is done. */
  function Times(acts: seq<Act>, kind: Kind): nat {
    if acts == [] then 0 else (if KindOf(acts[0]) == kind then 1 else 0) + Times(acts[1..], kind)
  }

  lemma {:induction false} TimesJoin(a: seq<Act>, b: seq<Act>, kind: Kind)
    ensures Times(a + b, kind) == Times(a, kind) + Times(b, kind)
  {
    if a == [] {
      assert a + b == b;
    } else {
      assert (a + b)[1..] == a[1..] + b;
      TimesJoin(a[1..], b, kind);
    }
  }

  lemma {:induction false} SendsArePieces(pieces: seq<Piece>, kind: Kind)
    requires kind != Output
    ensures Times(Sends(pieces), kind) == 0
    decreases |pieces|
  {
    if pieces != [] {
      assert Sends(pieces)[1..] == Sends(pieces[1..]);
      SendsArePieces(pieces[1..], kind);
    }
  }

  lemma TimesOne(act: Act, kind: Kind)
    ensures Times([act], kind) == (if KindOf(act) == kind then 1 else 0) && Times([], kind) == 0
  {
    assert [act][1..] == [];
  }

  /**
    In a whole run metrics are recorded once in every outcome. A callback is started once unless the
    stream failed or recording raised, and then not at all; the tracker is finished once unless
    recording metrics raised, and then not at all.
   */
  lemma OncePerRequest(pieces: seq<Piece>, ended: Ended, upstreamOk: bool, recording: Recording, callback: Callback,
                       usage: Usage)
    ensures var acts := Sends(pieces) + ActsOf(ended, upstreamOk, recording, callback, usage);
            && Times(acts, Metrics) == 1
            && Times(acts, Finish) == (if recording == MetricsRaise then 0 else 1)
            && Times(acts, Completion) == if recording != Fine || ended == Failed || callback == Absent then 0 else 1
  {
    hide Times, Sends;
    var success, cancelled := ended == Normal && upstreamOk, ended == Cancelled;
    var m, f := Recorded(success, usage), TrackedDone(success, cancelled, usage);
    var c := CallbackStarted(cancelled, usage.prompt, usage.completion);
    var finish, call := if recording == MetricsRaise then [] else [f],
        if recording != Fine || ended == Failed || callback == Absent then [] else [c];
    forall kind: Kind | kind != Output
      ensures Times(Sends(pieces) + ActsOf(ended, upstreamOk, recording, callback, usage), kind)
              == Times([m], kind) + Times(finish, kind) + Times(call, kind)
    {
      SendsArePieces(pieces, kind);
      TimesJoin([m], finish, kind);
      TimesJoin([m] + finish, call, kind);
      TimesJoin(Sends(pieces), [m] + finish + call, kind);
    }
    forall kind: Kind ensures Times([m], kind) == (if kind == Metrics then 1 else 0)
      ensures Times([f], kind) == (if kind == Finish then 1 else 0)
      ensures Times([c], kind) == (if kind == Completion then 1 else 0) && Times([], kind) == 0
    {
      TimesOne(m, kind);
      TimesOne(f, kind);
      TimesOne(c, kind);
    }
  }

  /** The place of an act in a run. */
  function Rank(act: Act): nat {
    match act
    case Sent(_) => 0
    case Recorded(_, _) => 1
    case TrackedDone(_, _, _) => 2
    case CallbackStarted(_, _, _) => 3
  }

  /** The act says what happened: a success is a normal end with upstream content, and the figures are the run's. */
  predicate SaysWhatHappened(act: Act, ended: Ended, upstreamOk: bool, usage: Usage) {
    match act
    case Sent(_) => true
    case Recorded(s, u) => (s <==> ended == Normal && upstreamOk) && u == usage
    case TrackedDone(s, x, u) => (s <==> ended == Normal && upstreamOk) && (x <==> ended == Cancelled) && u == usage
    case CallbackStarted(x, prompt, completion) =>
      (x <==> ended == Cancelled) && prompt == usage.prompt && completion == usage.completion
  }

  /** So does every act of a run; and output comes before metrics, these before the finish, it before the callback. */
  ghost predicate Truthful(acts: seq<Act>, ended: Ended, upstreamOk: bool, usage: Usage) {
    && (forall i :: 0 <= i < |acts| ==> SaysWhatHappened(acts[i], ended, upstreamOk, usage))
    && forall i, j :: 0 <= i < j < |acts| ==> Rank(acts[i]) <= Rank(acts[j])
  }

  lemma RunIsTruthful(pieces: seq<Piece>, ended: Ended, upstreamOk: bool, recording: Recording, callback: Callback,
                      usage: Usage)
    ensures Truthful(Sends(pieces) + ActsOf(ended, upstreamOk, recording, callback, usage), ended, upstreamOk, usage)
  {
  }

  /** What the tracker is told at the end. */
  function Closing(success: bool, cancelled: bool, usage: Usage, now: real): seq<Call> {
    [End(!success && !cancelled, usage.completion, now)]
  }

  lemma EndIs(keys: LiveStore.Keys, t: G.Tracker, success: bool, cancelled: bool, usage: Usage, now: real)
    requires LiveStore.Whole(keys)
    ensures Tell(keys, t, End(!success && !cancelled, usage.completion, now))
            == G.DoneTracker(keys, t, !success && !cancelled, usage.completion, now, true)
  {
    hide G.DoneTracker;
  }

  /** A tracker and the store it drives. */
  datatype Sight = Sight(keys: LiveStore.Keys, tracker: G.Tracker, minutes: Table)

  function See(tracker: Requests.RequestTracker): Sight
    reads tracker, tracker.store
  {
    Sight(tracker.store.keys, tracker.View(), tracker.store.minutes)
  }

  /** Told as much, the tracker is not finished by it, and no minute bucket has moved. */
  ghost predicate Followed(a: Sight, b: Sight, calls: seq<Call>) {
    && LiveStore.Whole(a.keys) && (b.keys, b.tracker) == Told(a.keys, a.tracker, calls)
    && b.tracker.finished == a.tracker.finished && b.tracker.key == a.tracker.key && b.minutes == a.minutes
  }

  /**
    Told as much, the tracker is finished, and its minute bucket has received exactly this share,
    unless it was finished before.
   */
  ghost predicate Finished(a: Sight, b: Sight, calls: seq<Call>, share: Totals, minute: int) {
    && LiveStore.Whole(a.keys) && (b.keys, b.tracker) == Told(a.keys, a.tracker, calls) && b.tracker.finished
    && b.minutes == if a.tracker.finished then a.minutes
                    else Credit(a.minutes, StatsStore.MinuteOf(minute, a.tracker.key), share)
  }

  lemma FollowedNothing(a: Sight)
    requires LiveStore.Whole(a.keys)
    ensures Followed(a, a, [])
  {
    hide LiveStore.Whole;
  }

  /** First these calls, then those. */
  lemma FollowedJoin(a: Sight, b: Sight, c: Sight, first: seq<Call>, second: seq<Call>, share: Totals, minute: int)
    requires Followed(a, b, first)
    ensures Followed(b, c, second) ==> Followed(a, c, first + second)
    ensures Finished(b, c, second, share, minute) ==> Finished(a, c, first + second, share, minute)
  {
    hide Told, LiveStore.Whole, Credit, StatsStore.MinuteOf;
    ToldJoin(a.keys, a.tracker, first, second);
  }

  lemma FollowedIsWhole(a: Sight, b: Sight, calls: seq<Call>)
    requires Followed(a, b, calls)
    ensures LiveStore.Whole(b.keys) && b.tracker.finished == a.tracker.finished
  {
    hide LiveStore.Whole, Told;
    var _ := Told(a.keys, a.tracker, calls);
  }

  /** The share says what was recorded, and the times of the tracker. */
  predicate CountsAs(share: Totals, success: bool, cancelled: bool, usage: Usage, t: G.Tracker, now: real) {
    && share.requests == 0 && share.errors == (if success || cancelled then 0 else 1)
    && share.prompt == usage.prompt && share.completion == usage.completion
    && share.total == (if usage.total != 0 then usage.total else usage.prompt + usage.completion)
    && Requests.TimesOf(share, t, usage.decodeSeconds, None, None, usage.completion, now)
  }

  /** Metrics, then the tracker, then span attributes. */
  method Record(ledger: Ledger, tracker: Requests.RequestTracker?, success: bool, cancelled: bool,
                recording: Recording, usage: Usage, now: real, minute: int)
    returns (share: Totals, raised: bool)
    requires tracker != null ==> tracker.store.Valid()
    modifies ledger, if tracker == null then {} else {tracker, tracker.store}
    ensures ledger.acts == old(ledger.acts) + RecordActs(success, cancelled, recording, usage)
    ensures raised <==> recording != Fine
    ensures tracker != null ==>
              if recording == MetricsRaise then Followed(old(See(tracker)), See(tracker), [])
              else Finished(old(See(tracker)), See(tracker), Closing(success, cancelled, usage, now), share, minute)
    ensures tracker != null && !old(tracker.finished) && recording != MetricsRaise ==>
              CountsAs(share, success, cancelled, usage, tracker.View(), now)
  {
    hide Finished, Followed, CountsAs, Told;
    ledger.RecordMetrics(success, usage);
    if recording == MetricsRaise {
      if tracker != null {
        FollowedNothing(See(tracker));
      }
      return NOTHING, true;
    }
    share := ledger.TrackDone(tracker, success, cancelled, usage, now, minute);
    raised := recording == AttributesRaise;
  }

  /** Bytes received with some chunks. */
  function SizeOf(chunks: seq<Chunk>): nat {
    if chunks == [] then 0 else SizeOf(chunks[..|chunks| - 1]) + |chunks[|chunks| - 1].raw|
  }

  /** What the tracker is told of one chunk: the first token, if it is the first, and the bytes up to here. */
  function ChunkCalls(first: bool, bytes: nat, token: real, now: real): seq<Call> {
    (if first then [Token(token)] else []) + [Size(bytes, now)]
  }

  /** What it is told of the first `n` chunks. */
  function StreamCalls(chunks: seq<Chunk>, n: nat, clock: nat -> real): seq<Call>
    requires n <= |chunks|
  {
    if n == 0 then []
    else StreamCalls(chunks, n - 1, clock) + ChunkCalls(n == 1, SizeOf(chunks[..n]), clock(0), clock(n))
  }

  /** What the tracker is told about a chunk. */
  method Observe(tracker: Requests.RequestTracker, first: bool, bytes: nat, token: real, now: real)
    requires tracker.store.Valid()
    modifies tracker, tracker.store
    ensures Followed(old(See(tracker)), See(tracker), ChunkCalls(first, bytes, token, now))
  {
    hide LiveStore.FirstToken, LiveStore.AddInflight, Told, LiveStore.Whole;
    ghost var keys, t := tracker.store.keys, tracker.View();
    ObservedIs(keys, t, first, bytes, token, now);
    if first {
      tracker.FirstToken(token);
    }
    tracker.SetInflightBytes(bytes, now);
  }

  lemma ObservedIs(keys: LiveStore.Keys, t: G.Tracker, first: bool, bytes: nat, token: real, now: real)
    requires LiveStore.Whole(keys)
    ensures var (k, u) := if first then Tell(keys, t, Token(token)) else (keys, t);
            && LiveStore.Whole(k) && Told(keys, t, ChunkCalls(first, bytes, token, now)) == Tell(k, u, Size(bytes, now))
  {
    hide Told, Tell;
    if first {
      TellWhole(keys, t, Token(token));
      ToldSingle(keys, t, Token(token));
      ToldOne(keys, t, [Token(token)], Size(bytes, now));
    } else {
      ToldSingle(keys, t, Size(bytes, now));
      assert [] + [Size(bytes, now)] == [Size(bytes, now)];
    }
  }

  /** One chunk: the tracker sees it, then it is taken in, and what comes of it is sent. */
  method OnArrival(ledger: Ledger, w: Wrapper, chunk: Chunk, first: bool, bytes: nat,
                   tracker: Requests.RequestTracker?, token: real, now: real)
    returns (pieces: seq<Piece>)
    requires !w.failed
    requires tracker != null ==> tracker.store.Valid()
    modifies ledger, w, w.parser, if tracker == null then {} else {tracker, tracker.store}
    ensures w.View() == TakeIn(w.client, w.normalise, old(w.View()), chunk)
    ensures w.View().sent == old(w.View().sent) + pieces
    ensures ledger.acts == old(ledger.acts) + Sends(pieces)
    ensures tracker != null ==> Followed(old(See(tracker)), See(tracker), ChunkCalls(first, bytes, token, now))
  {
    hide TakeIn, Sends, LiveStore.Whole, Told;
    if tracker != null {
      Observe(tracker, first, bytes, token, now);
    }
    pieces := w.OnChunk(chunk);
    ledger.Send(pieces);
  }

  /** The run from `run` on, with `i` chunks behind it, is the rest of the whole run. */
  ghost predicate Onward(c: Client, normalise: bool, run: Run, chunks: seq<Chunk>, i: nat, last: string, fault: Fault) {
    && i <= |chunks| && !run.reader.failed
    && Ride(c, normalise, OPENED, chunks, 0, last, fault) == Ride(c, normalise, run, chunks, i, last, fault)
    && Arrived(c, normalise, OPENED, chunks, 0, last, fault) == Arrived(c, normalise, run, chunks, i, last, fault)
  }

  /** The whole run ends so, with `n` chunks arrived. */
  ghost predicate Ends(c: Client, normalise: bool, chunks: seq<Chunk>, last: string, fault: Fault, ended: Ended,
                       run: Run, n: nat) {
    && (ended, run) == Ride(c, normalise, OPENED, chunks, 0, last, fault)
    && n == Arrived(c, normalise, OPENED, chunks, 0, last, fault)
  }

  lemma Awaited(c: Client, normalise: bool, run: Run, chunks: seq<Chunk>, i: nat, last: string, fault: Fault)
    requires Onward(c, normalise, run, chunks, i, last, fault)
    ensures fault == CancelAwait(i) ==> Ends(c, normalise, chunks, last, fault, Cancelled, run, i)
    ensures fault == UpstreamError(i) ==> Ends(c, normalise, chunks, last, fault, Failed, run, i)
  {
    hide TakeIn, TakeEnd;
  }

  lemma LastDone(c: Client, normalise: bool, run: Run, chunks: seq<Chunk>, last: string, fault: Fault, after: Run)
    requires Onward(c, normalise, run, chunks, |chunks|, last, fault)
    requires fault != CancelAwait(|chunks|) && fault != UpstreamError(|chunks|)
    requires after == TakeEnd(c, normalise, run, last)
    ensures Ends(c, normalise, chunks, last, fault,
                 if after.reader.failed then Failed
                 else if fault == CancelTail && after.sent != run.sent then Cancelled else Normal, after, |chunks|)
  {
    hide TakeIn, TakeEnd;
  }

  lemma ChunkDone(c: Client, normalise: bool, run: Run, chunks: seq<Chunk>, i: nat, last: string, fault: Fault,
                  after: Run)
    requires i < |chunks| && Onward(c, normalise, run, chunks, i, last, fault)
    requires fault != CancelAwait(i) && fault != UpstreamError(i)
    requires after == TakeIn(c, normalise, run, chunks[i])
    ensures if after.reader.failed then Ends(c, normalise, chunks, last, fault, Failed, after, i + 1)
            else if fault == CancelSend(i) && after.sent != run.sent then
              Ends(c, normalise, chunks, last, fault, Cancelled, after, i + 1)
            else Onward(c, normalise, after, chunks, i + 1, last, fault)
  {
    hide TakeIn, TakeEnd;
  }

  const NOBODY := Sight(map[], G.Tracker(LiveStore.Key("", "", ""), 0.0, None, false, 0), map[])

  lemma CallsGrow(a: Sight, b: Sight, c: Sight, chunks: seq<Chunk>, i: nat, clock: nat -> real)
    requires i < |chunks| && Followed(a, b, StreamCalls(chunks, i, clock))
    requires Followed(b, c, ChunkCalls(i == 0, SizeOf(chunks[..i + 1]), clock(0), clock(i + 1)))
    ensures Followed(a, c, StreamCalls(chunks, i + 1, clock))
  {
    hide Followed, Finished, ChunkCalls, SizeOf;
    FollowedJoin(a, b, c, StreamCalls(chunks, i, clock),
        ChunkCalls(i == 0, SizeOf(chunks[..i + 1]), clock(0), clock(i + 1)), NOTHING, 0);
  }

  lemma NotMovedYet(tracker: Requests.RequestTracker)
    requires tracker.store.Valid()
    ensures Followed(See(tracker), See(tracker), [])
  {
    FollowedNothing(See(tracker));
  }

  lemma FailedIs(w: Wrapper)
    ensures w.View().reader.failed == w.failed
  {
  }

  lemma StillValid(tracker: Requests.RequestTracker, a: Sight, calls: seq<Call>)
    requires Followed(a, See(tracker), calls)
    ensures tracker.store.Valid()
  {
    hide LiveStore.Whole;
    FollowedIsWhole(a, See(tracker), calls);
  }

  /** One round of the streaming loop, unless a chunk fails to come: `ended` tells whether it is the last. */
  method OnRound(ledger: Ledger, w: Wrapper, chunks: seq<Chunk>, i: nat, last: string, fault: Fault, bytes: nat,
                 tracker: Requests.RequestTracker?, clock: nat -> real)
    returns (ended: Option<Ended>, pieces: seq<Piece>)
    requires Onward(w.client, w.normalise, w.View(), chunks, i, last, fault)
    requires i <= |chunks| && bytes == SizeOf(chunks[..i])
    requires fault != CancelAwait(i) && fault != UpstreamError(i)
    requires tracker != null ==> tracker.store.Valid()
    modifies ledger, w, w.parser, if tracker == null then {} else {tracker, tracker.store}
    ensures i == |chunks| ==> ended.Some? && (tracker != null ==> See(tracker) == old(See(tracker)))
    ensures i < |chunks| && tracker != null ==>
              Followed(old(See(tracker)), See(tracker),
                       ChunkCalls(i == 0, SizeOf(chunks[..i + 1]), clock(0), clock(i + 1)))
    ensures if ended.Some?
            then Ends(w.client, w.normalise, chunks, last, fault, ended.value, w.View(),
                      if i < |chunks| then i + 1 else i)
            else Onward(w.client, w.normalise, w.View(), chunks, i + 1, last, fault)
    ensures w.View().sent == old(w.View().sent) + pieces && ledger.acts == old(ledger.acts) + Sends(pieces)
  {
    hide TakeIn, TakeEnd, LiveStore.Whole, Sends, Onward, Ends, Followed, ChunkCalls, SizeOf, See, Wrapper.View;
    ghost var run := w.View();
    OnwardIs(w.client, w.normalise, run, chunks, i, last, fault);
    FailedIs(w);
    if i == |chunks| {
      pieces := w.OnEnd(last);
      ledger.Send(pieces);
      LastDone(w.client, w.normalise, run, chunks, last, fault, w.View());
      FailedIs(w);
      ended := Some(if w.failed then Failed else if fault == CancelTail && pieces != [] then Cancelled else Normal);
    } else {
      SizeGrows(chunks, i);
      pieces := OnArrival(ledger, w, chunks[i], i == 0, bytes + |chunks[i].raw|, tracker, clock(0), clock(i + 1));
      ChunkDone(w.client, w.normalise, run, chunks, i, last, fault, w.View());
      FailedIs(w);
      ended := if w.failed then Some(Failed)
               else if fault == CancelSend(i) && pieces != [] then Some(Cancelled) else None;
    }
  }

  /** The streaming loop; `arrived` chunks are taken in. */
  method Body(ledger: Ledger, w: Wrapper, chunks: seq<Chunk>, last: string, fault: Fault,
              tracker: Requests.RequestTracker?, clock: nat -> real)
    returns (ended: Ended, ghost arrived: nat)
    requires w.View() == OPENED
    requires tracker != null ==> tracker.store.Valid()
    modifies ledger, w, w.parser, if tracker == null then {} else {tracker, tracker.store}
    ensures Ends(w.client, w.normalise, chunks, last, fault, ended, w.View(), arrived) && arrived <= |chunks|
    ensures ledger.acts == old(ledger.acts) + Sends(w.View().sent)
    ensures tracker != null ==> Followed(old(See(tracker)), See(tracker), StreamCalls(chunks, arrived, clock))
  {
    hide LiveStore.Whole, Sends, Onward, Ends, Followed, ChunkCalls, StreamCalls, SizeOf, See, Wrapper.View;
    var i, bytes: nat := 0, 0;
    NothingYet(w.client, w.normalise, chunks, last, fault, ledger.acts, clock);
    if tracker != null {
      NotMovedYet(tracker);
    }
    while fault != CancelAwait(i) && fault != UpstreamError(i)
      invariant i <= |chunks| && bytes == SizeOf(chunks[..i])
      invariant Onward(w.client, w.normalise, w.View(), chunks, i, last, fault)
      invariant ledger.acts == old(ledger.acts) + Sends(w.View().sent)
      invariant tracker != null ==> Followed(old(See(tracker)), See(tracker), StreamCalls(chunks, i, clock))
      decreases |chunks| - i
    {
      ghost var sent, seen := w.View().sent, if tracker == null then NOBODY else See(tracker);
      if tracker != null {
        StillValid(tracker, old(See(tracker)), StreamCalls(chunks, i, clock));
      }
      var over, pieces := OnRound(ledger, w, chunks, i, last, fault, bytes, tracker, clock);
      SendsJoin(old(ledger.acts), sent, pieces);
      if i < |chunks| {
        SizeGrows(chunks, i);
        bytes := bytes + |chunks[i].raw|;
        if tracker != null {
          CallsGrow(old(See(tracker)), seen, See(tracker), chunks, i, clock);
        }
      }
      if over.Some? {
        return over.value, if i < |chunks| then i + 1 else i;
      }
      i := i + 1;
    }
    Awaited(w.client, w.normalise, w.View(), chunks, i, last, fault);
    ended, arrived := if fault == CancelAwait(i) then Cancelled else Failed, i;
  }

  lemma OnwardIs(c: Client, normalise: bool, run: Run, chunks: seq<Chunk>, i: nat, last: string, fault: Fault)
    requires Onward(c, normalise, run, chunks, i, last, fault)
    ensures i <= |chunks| && !run.reader.failed && OPENED.reader == START
  {
  }

  lemma NothingYet(c: Client, normalise: bool, chunks: seq<Chunk>, last: string, fault: Fault, acts: seq<Act>,
                   clock: nat -> real)
    ensures SizeOf(chunks[..0]) == 0 && StreamCalls(chunks, 0, clock) == []
    ensures Onward(c, normalise, OPENED, chunks, 0, last, fault) && acts == acts + Sends(OPENED.sent)
  {
    hide TakeIn, TakeEnd;
  }

  lemma SizeGrows(chunks: seq<Chunk>, i: nat)
    requires i < |chunks|
    ensures SizeOf(chunks[..i + 1]) == SizeOf(chunks[..i]) + |chunks[i].raw|
  {
    assert chunks[..i + 1][..i] == chunks[..i];
  }

  /**
    The end of the body and the exception handlers, in every outcome: an exception or a cancellation
    that arrives once the run is finalised finds it so and records nothing again.
   */
  method Finalise(ledger: Ledger, ended: Ended, upstreamOk: bool, recording: Recording, callback: Callback,
                  usage: Usage, tracker: Requests.RequestTracker?, now: real, minute: int)
    returns (share: Totals, raised: bool)
    requires tracker != null ==> tracker.store.Valid()
    modifies ledger, if tracker == null then {} else {tracker, tracker.store}
    ensures ledger.acts == old(ledger.acts) + ActsOf(ended, upstreamOk, recording, callback, usage)
    ensures raised <==> ended != Normal || recording != Fine || callback == IsCancelled
    ensures tracker != null ==>
              if recording == MetricsRaise then Followed(old(See(tracker)), See(tracker), [])
              else Finished(old(See(tracker)), See(tracker),
                            Closing(ended == Normal && upstreamOk, ended == Cancelled, usage, now), share, minute)
    ensures tracker != null && !old(tracker.finished) && recording != MetricsRaise ==>
              CountsAs(share, ended == Normal && upstreamOk, ended == Cancelled, usage, tracker.View(), now)
  {
    hide CountsAs, Finished, Followed, RecordActs, Closing, LiveStore.Whole;
    share, raised := NOTHING, false;
    var finalized, met := false, ended;
    if ended == Normal {
      finalized := true;
      share, raised := Record(ledger, tracker, upstreamOk, false, recording, usage, now, minute);
      if raised {
        met := Failed;
      } else if callback != Absent {
        ledger.StartCallback(false, usage);
        met := if callback == IsCancelled then Cancelled else Normal;
      }
    }
    if met == Cancelled {
      if !finalized {
        finalized := true;
        share, raised := Record(ledger, tracker, false, true, recording, usage, now, minute);
        if !raised && callback != Absent {
          ledger.StartCallback(true, usage);
        }
      }
      raised := true;
    } else if met == Failed {
      if !finalized {
        finalized := true;
        share, raised := Record(ledger, tracker, false, false, recording, usage, now, minute);
      }
      raised := true;
    }
  }

  /** What the tracker is told in a whole run: of the chunks that arrive, and at the end. */
  ghost function RunCalls(c: Client, normalise: bool, chunks: seq<Chunk>, last: string, upstreamOk: bool, fault: Fault,
                          recording: Recording, usage: Run -> Usage, clock: nat -> real): seq<Call> {
    var (ended, run) := Ride(c, normalise, OPENED, chunks, 0, last, fault);
    StreamCalls(chunks, Arrived(c, normalise, OPENED, chunks, 0, last, fault), clock)
    + if recording == MetricsRaise then []
      else Closing(ended == Normal && upstreamOk, ended == Cancelled, usage(run), clock(|chunks| + 1))
  }

  /**
    A whole run of the wrapper: the pieces that the stream's own semantics gives, up to where the
    run was disturbed, then metrics once and the tracker's finish once, however it ends, and then
    the callback once, if there is one, unless the stream failed. There is nothing else. When
    recording metrics raises, the tracker is left open; when recording raises at all, there is no
    callback.
   */
  method StreamWithTelemetry(ledger: Ledger, w: Wrapper, chunks: seq<Chunk>, last: string, upstreamOk: bool,
                             fault: Fault, recording: Recording, callback: Callback, usage: Run -> Usage,
                             tracker: Requests.RequestTracker?, clock: nat -> real, minute: int)
    returns (share: Totals, ended: Ended, raised: bool)
    requires w.View() == OPENED
    requires tracker != null ==> tracker.store.Valid()
    modifies ledger, w, w.parser, if tracker == null then {} else {tracker, tracker.store}
    ensures (ended, w.View()) == Ride(w.client, w.normalise, OPENED, chunks, 0, last, fault)
    ensures ledger.acts
            == old(ledger.acts) + Sends(w.View().sent) + ActsOf(ended, upstreamOk, recording, callback, usage(w.View()))
    ensures Truthful(ledger.acts[|old(ledger.acts)|..], ended, upstreamOk, usage(w.View()))
    ensures raised <==> ended != Normal || recording != Fine || callback == IsCancelled
    ensures tracker != null ==>
              var calls := RunCalls(w.client, w.normalise, chunks, last, upstreamOk, fault, recording, usage, clock);
              if recording == MetricsRaise then Followed(old(See(tracker)), See(tracker), calls)
              else Finished(old(See(tracker)), See(tracker), calls, share, minute)
    ensures tracker != null && !old(tracker.finished) && recording != MetricsRaise ==>
              CountsAs(share, ended == Normal && upstreamOk, ended == Cancelled, usage(w.View()), tracker.View(),
                       clock(|chunks| + 1))
  {
    hide Ride, Arrived, CountsAs, LiveStore.Whole, ActsOf, Sends, Followed, Finished, Closing, StreamCalls;
    ghost var before := if tracker == null then NOBODY else See(tracker);
    ghost var arrived;
    ended, arrived := Body(ledger, w, chunks, last, fault, tracker, clock);
    var figures, now := usage(w.View()), clock(|chunks| + 1);
    ghost var middle := if tracker == null then NOBODY else See(tracker);
    ghost var streamed := StreamCalls(chunks, arrived, clock);
    if tracker != null {
      FollowedIsWhole(before, middle, streamed);
    }
    share, raised := Finalise(ledger, ended, upstreamOk, recording, callback, figures, tracker, now, minute);
    if tracker != null {
      FollowedJoin(before, middle, See(tracker), streamed,
          if recording == MetricsRaise then []
          else Closing(ended == Normal && upstreamOk, ended == Cancelled, figures, now), share, minute);
    }
    RunIsTruthful(w.View().sent, ended, upstreamOk, recording, callback, figures);
    hide Truthful;
    ghost var acts := Sends(w.View().sent) + ActsOf(ended, upstreamOk, recording, callback, figures);
    assert ledger.acts == old(ledger.acts) + acts;
    assert ledger.acts[|old(ledger.acts)|..] == acts;
  }

  // ------------------------------------------------------------------ what a run sends

  lemma TakeInGrows(c: Client, normalise: bool, run: Run, chunk: Chunk, last: string)
    ensures Prefix(run.sent, TakeIn(c, normalise, run, chunk).sent)
    ensures Prefix(run.sent, TakeEnd(c, normalise, run, last).sent)
  {
    hide Cut, ReadLines, BeforeRaise, Raises, Text.Strip;
  }

  lemma {:induction false} RideGrows(c: Client, normalise: bool, run: Run, chunks: seq<Chunk>, i: nat, last: string,
                                     fault: Fault)
    requires i <= |chunks|
    ensures Prefix(run.sent, Ride(c, normalise, run, chunks, i, last, fault).1.sent)
    decreases |chunks| - i
  {
    hide TakeIn, TakeEnd;
    TakeInGrows(c, normalise, run, Chunk([], ""), last);
    if i < |chunks| {
      var next := TakeIn(c, normalise, run, chunks[i]);
      TakeInGrows(c, normalise, run, chunks[i], last);
      RideGrows(c, normalise, next, chunks, i + 1, last, fault);
      PrefixTrans(run.sent, next.sent, Ride(c, normalise, next, chunks, i + 1, last, fault).1.sent);
    }
  }

  /** A disturbance only cuts the stream short: the client has a beginning of what it would have got. */
  lemma {:induction false} DisturbedIsPrefix(c: Client, normalise: bool, run: Run, chunks: seq<Chunk>, i: nat,
                                             last: string, fault: Fault)
    requires i <= |chunks|
    ensures Prefix(Ride(c, normalise, run, chunks, i, last, fault).1.sent,
                   Ride(c, normalise, run, chunks, i, last, Calm).1.sent)
    decreases |chunks| - i
  {
    hide TakeIn, TakeEnd;
    RideGrows(c, normalise, run, chunks, i, last, Calm);
    if i < |chunks| {
      var next := TakeIn(c, normalise, run, chunks[i]);
      RideGrows(c, normalise, next, chunks, i + 1, last, Calm);
      DisturbedIsPrefix(c, normalise, next, chunks, i + 1, last, fault);
    }
  }

  lemma TextsFrom(chunks: seq<Chunk>, i: nat)
    requires i < |chunks|
    ensures Texts(chunks[i..]) == [chunks[i].text] + Texts(chunks[i + 1..])
    ensures RawOf(chunks[i..]) == [Bytes(chunks[i].raw)] + RawOf(chunks[i + 1..])
  {
    assert chunks[i..][1..] == chunks[i + 1..];
  }

  /**
    Undisturbed, the parser path reads and sends what the stream's text alone decides, and ends
    normally exactly when no line fails.
   */
  lemma {:induction false} CalmIsWhole(c: Client, run: Run, chunks: seq<Chunk>, i: nat, last: string)
    requires i <= |chunks| && !run.reader.failed
    ensures var whole := Close(c, TakeAll(c, run, Texts(chunks[i..])), last);
            Ride(c, true, run, chunks, i, last, Calm) == (if whole.reader.failed then Failed else Normal, whole)
    decreases |chunks| - i
  {
    hide Take, Close;
    if i < |chunks| {
      TextsFrom(chunks, i);
      var next, texts := Take(c, run, chunks[i].text), Texts(chunks[i + 1..]);
      assert ([chunks[i].text] + texts)[1..] == texts;
      if next.reader.failed {
        TakeAfterFailure(c, next, texts);
        FailedStays(c, next, last);
      } else {
        CalmIsWhole(c, next, chunks, i + 1, last);
      }
    }
  }

  /** Undisturbed, the forwarding path always ends normally and sends exactly the upstream chunks. */
  lemma {:induction false} CalmForwards(c: Client, run: Run, chunks: seq<Chunk>, i: nat, last: string)
    requires i <= |chunks| && !run.reader.failed
    ensures var (ended, after) := Ride(c, false, run, chunks, i, last, Calm);
            ended == Normal && after.sent == run.sent + RawOf(chunks[i..])
    decreases |chunks| - i
  {
    hide Cut, BeforeRaise, Raises, Text.Strip;
    if i < |chunks| {
      TextsFrom(chunks, i);
      CalmForwards(c, Forward(c, run, chunks[i]), chunks, i + 1, last);
      assert (run.sent + [Bytes(chunks[i].raw)]) + RawOf(chunks[i + 1..])
             == run.sent + ([Bytes(chunks[i].raw)] + RawOf(chunks[i + 1..]));
    } else {
      assert run.sent + [] == run.sent;
    }
  }
}
