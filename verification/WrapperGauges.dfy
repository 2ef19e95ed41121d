/** What the streaming wrappers of many requests do together to the live gauges. */
module WrapperGauges {
  import opened Wrappers
  import opened ThinkingStream
  import opened PassThrough
  import opened TrackerCalls
  import opened StreamWrapper
  import LiveStore
  import MinuteRollups
  import G = LiveGauges

  predicate NoSize(calls: seq<Call>) {
    forall k :: 0 <= k < |calls| ==> !calls[k].Size?
  }

  /**
    A tracker is told what a wrapper tells it of some chunks, or the beginning of that, and then
    nothing of bytes: the end, the safety net's end, or, without any streaming, anything else.
   */
  ghost predicate Streamed(calls: seq<Call>) {
    exists chunks: seq<Chunk>, n: nat, clock: nat -> real, m: nat ::
      n <= |chunks| && m <= |calls| && calls[..m] <= StreamCalls(chunks, n, clock) && NoSize(calls[m..])
  }

  /** A wrapper speaks of the first token first. */
  lemma {:induction false} TokenFirst(chunks: seq<Chunk>, n: nat, clock: nat -> real)
    requires n <= |chunks|
    ensures StreamCalls(chunks, n, clock) != [] ==> StreamCalls(chunks, n, clock)[0] == Token(clock(0))
  {
    hide SizeOf;
    if n > 1 {
      TokenFirst(chunks, n - 1, clock);
    }
  }

  /** The bytes of some chunks, together. */
  function AllBytes(chunks: seq<Chunk>): seq<bv8> {
    if chunks == [] then [] else AllBytes(chunks[..|chunks| - 1]) + chunks[|chunks| - 1].raw
  }

  lemma {:induction false} SizeIsBytes(chunks: seq<Chunk>)
    ensures SizeOf(chunks) == |AllBytes(chunks)|
  {
    if chunks != [] {
      SizeIsBytes(chunks[..|chunks| - 1]);
    }
  }

  /** The tracker hears of the first token once, and after each chunk of all the bytes so far. */
  lemma {:induction false} StreamCallsAre(chunks: seq<Chunk>, n: nat, clock: nat -> real)
    requires n <= |chunks|
    ensures n == 0 ==> StreamCalls(chunks, n, clock) == []
    ensures n > 0 ==>
              var calls := StreamCalls(chunks, n, clock);
              && |calls| == n + 1 && calls[0] == Token(clock(0))
              && forall i :: 1 <= i <= n ==> calls[i] == Size(|AllBytes(chunks[..i])|, clock(i))
  {
    hide SizeOf, AllBytes;
    if n > 0 {
      StreamCallsAre(chunks, n - 1, clock);
      SizeIsBytes(chunks[..n]);
    }
  }

  /** What a call does to a tracker that is not finished. */
  lemma TellMeans(keys: LiveStore.Keys, t: G.Tracker, c: Call)
    requires LiveStore.Whole(keys) && !t.finished
    ensures var u := Tell(keys, t, c).1;
            && u.key == t.key && u.start == t.start && u.finished == c.End?
            && u.firstToken == (if c.Token? && t.firstToken == None then Some(c.now) else t.firstToken)
            && u.inflight == match c case Token(_) => t.inflight case Size(total, _) => total case End(_, _, _) => 0
  {
    hide LiveStore.FirstToken, LiveStore.AddInflight, LiveStore.Finish, LiveStore.FinishCounts;
  }

  /** A tracker that was waiting remembers when its first chunk came, and the bytes that have come so far. */
  lemma {:induction false} StreamRemembers(keys: LiveStore.Keys, t: G.Tracker, chunks: seq<Chunk>, n: nat,
                                           clock: nat -> real)
    requires LiveStore.Whole(keys) && !t.finished && t.firstToken == None && 0 < n <= |chunks|
    ensures Told(keys, t, StreamCalls(chunks, n, clock)).1
            == t.(firstToken := Some(clock(0)), inflight := |AllBytes(chunks[..n])|)
  {
    hide *;
    var now, bytes := clock(n), SizeOf(chunks[..n]);
    SizeIsBytes(chunks[..n]);
    StreamCallsGrow(chunks, n, clock);
    ToldJoin(keys, t, StreamCalls(chunks, n - 1, clock), ChunkCalls(n == 1, bytes, clock(0), now));
    var (k, u) := Told(keys, t, StreamCalls(chunks, n - 1, clock));
    ObservedIs(k, u, n == 1, bytes, clock(0), now);
    if n == 1 {
      NoCalls(chunks, clock);
      ToldNothing(keys, t);
      var (k1, u1) := Tell(k, u, Token(clock(0)));
      TellMeans(k, u, Token(clock(0)));
      TellMeans(k1, u1, Size(bytes, now));
    } else {
      StreamRemembers(keys, t, chunks, n - 1, clock);
      TellMeans(k, u, Size(bytes, now));
    }
  }

  lemma NoCalls(chunks: seq<Chunk>, clock: nat -> real)
    ensures StreamCalls(chunks, 0, clock) == []
  {
  }

  lemma StreamCallsGrow(chunks: seq<Chunk>, n: nat, clock: nat -> real)
    requires 0 < n <= |chunks|
    ensures StreamCalls(chunks, n, clock)
            == StreamCalls(chunks, n - 1, clock) + ChunkCalls(n == 1, SizeOf(chunks[..n]), clock(0), clock(n))
  {
    hide ChunkCalls, SizeOf;
  }

  /** At the end of a whole run it hears of a failure just when the run neither ended well nor was cancelled. */
  lemma RunCallsEnd(c: Client, normalise: bool, chunks: seq<Chunk>, last: string, upstreamOk: bool, fault: Fault,
                    recording: Recording, usage: Run -> Usage, clock: nat -> real)
    ensures var (ended, run) := Ride(c, normalise, OPENED, chunks, 0, last, fault);
            var arrived := Arrived(c, normalise, OPENED, chunks, 0, last, fault);
            var calls := RunCalls(c, normalise, chunks, last, upstreamOk, fault, recording, usage, clock);
            && calls[..|StreamCalls(chunks, arrived, clock)|] == StreamCalls(chunks, arrived, clock)
            && calls[|StreamCalls(chunks, arrived, clock)|..]
               == if recording == MetricsRaise then []
                  else [End(ended == Failed || (ended == Normal && !upstreamOk), usage(run).completion,
                            clock(|chunks| + 1))]
  {
    hide Ride, Arrived, StreamCalls;
  }

  lemma StreamedIsOrdered(calls: seq<Call>)
    requires Streamed(calls)
    ensures Ordered(calls)
  {
    hide StreamCalls;
    var chunks: seq<Chunk>, n: nat, clock: nat -> real, m: nat :|
      n <= |chunks| && m <= |calls| && calls[..m] <= StreamCalls(chunks, n, clock) && NoSize(calls[m..]);
    TokenFirst(chunks, n, clock);
    if m > 0 {
      assert calls[0] == calls[..m][0] == StreamCalls(chunks, n, clock)[0];
    } else if calls != [] {
      assert calls[0] == calls[m..][0];
    }
  }

  /** Whatever disturbs a run of the wrapper, its calls are of this kind. */
  lemma RunIsStreamed(c: Client, normalise: bool, chunks: seq<Chunk>, last: string, upstreamOk: bool, fault: Fault,
                      recording: Recording, usage: Run -> Usage, clock: nat -> real)
    ensures Streamed(RunCalls(c, normalise, chunks, last, upstreamOk, fault, recording, usage, clock))
  {
    hide Ride, StreamCalls;
    var n := Arrived(c, normalise, OPENED, chunks, 0, last, fault);
    hide Arrived;
    var calls := RunCalls(c, normalise, chunks, last, upstreamOk, fault, recording, usage, clock);
    var m := |StreamCalls(chunks, n, clock)|;
    assert calls[..m] == StreamCalls(chunks, n, clock);
    assert NoSize(calls[m..]);
  }

  /**
    From an empty store, with any number of requests behind streaming wrappers or without streaming,
    interleaved in any way with one another, retargets and snapshots, the gauges are exact in every
    state.
   */
  lemma WrappersKeepGaugesExact(run: seq<G.Event>)
    requires G.CanRun(G.World(map[], []), run, true)
    requires forall i: nat :: Streamed(CallsOn(run, i))
    ensures G.AlwaysExact(G.World(map[], []), run)
  {
    hide *;
    forall i: nat ensures Ordered(CallsOn(run, i)) {
      StreamedIsOrdered(CallsOn(run, i));
    }
    OrderedRunsAreExact(run);
  }

  /** In particular, one run of the wrapper takes a world with exact gauges to one with exact gauges. */
  lemma OneRunKeepsExact(w: G.World, i: nat, a: Sight, b: Sight, calls: seq<Call>)
    requires G.Exact(w) && i < |w.trackers| && w.keys == a.keys && w.trackers[i] == a.tracker
    requires Followed(a, b, calls) || exists share, minute :: Finished(a, b, calls, share, minute)
    ensures G.Exact(G.World(b.keys, w.trackers[i := b.tracker]))
  {
    hide G.Exact, Told, LiveStore.Whole, MinuteRollups.Credit;
    ToldKeepsExact(w, i, calls);
  }
}
