/** What one request tells its tracker, and what the calls of many requests do to the gauges together. */
module TrackerCalls {
  import opened Wrappers
  import opened LiveStore
  import G = LiveGauges

  /** A call of a request to its tracker, and the clock reading it goes by. */
  datatype Call =
    | Token(now: real)                                // first_token
    | Size(total: nat, now: real)                     // set_inflight_bytes
    | End(failed: bool, tokens: int, now: real)       // finish

  /** One call: the key table and the tracker after it. */
  function Tell(keys: Keys, t: G.Tracker, c: Call): (Keys, G.Tracker)
    requires Whole(keys)
  {
    match c
    case Token(now) => G.FirstTracker(keys, t, now, true)
    case Size(total, now) => G.BytesTracker(keys, t, total, now, true)
    case End(failed, tokens, now) => G.DoneTracker(keys, t, failed, tokens, now, true)
  }

  lemma TellWhole(keys: Keys, t: G.Tracker, c: Call)
    requires Whole(keys)
    ensures Whole(Tell(keys, t, c).0)
  {
    hide LiveStore.FirstToken, AddInflight, LiveStore.Finish, FinishCounts;
    match c
    case Token(now) => FirstWhole(keys, t.key, now);
    case Size(total, now) => InflightWhole(keys, t.key, total - t.inflight, now);
    case End(failed, tokens, now) =>
      var d := FinishCounts(failed, tokens);
      G.FinishWhole(keys, t.key, t.firstToken.Some?, d, now, true);
      InflightWhole(LiveStore.Finish(keys, t.key, t.firstToken.Some?, d, now, true), t.key, 0 - t.inflight, now);
  }

  lemma FirstWhole(keys: Keys, key: Key, now: real)
    requires Whole(keys)
    ensures Whole(LiveStore.FirstToken(keys, key, now, true))
  {
    EnterWhole(keys, key, now);
    hide Enter, Target;
  }

  lemma InflightWhole(keys: Keys, key: Key, delta: int, now: real)
    requires Whole(keys)
    ensures Whole(AddInflight(keys, key, delta, now, true))
  {
    EnterWhole(keys, key, now);
    hide Enter, Target;
  }

  /** All the calls, in order. */
  function Told(keys: Keys, t: G.Tracker, calls: seq<Call>): (r: (Keys, G.Tracker))
    requires Whole(keys)
    ensures Whole(r.0)
  {
    if calls == [] then (keys, t)
    else
      var n := |calls| - 1;
      var (k, u) := Told(keys, t, calls[..n]);
      TellWhole(k, u, calls[n]);
      Tell(k, u, calls[n])
  }

  lemma ToldNothing(keys: Keys, t: G.Tracker)
    requires Whole(keys)
    ensures Told(keys, t, []) == (keys, t)
  {
  }

  lemma ToldOne(keys: Keys, t: G.Tracker, calls: seq<Call>, c: Call)
    requires Whole(keys)
    ensures var (k, u) := Told(keys, t, calls); Told(keys, t, calls + [c]) == Tell(k, u, c)
  {
    hide Tell;
    assert (calls + [c])[..|calls|] == calls;
  }

  lemma ToldSingle(keys: Keys, t: G.Tracker, c: Call)
    requires Whole(keys)
    ensures Told(keys, t, [c]) == Tell(keys, t, c)
  {
    hide Tell;
    assert [c] == [] + [c];
    ToldOne(keys, t, [], c);
  }

  /** Telling more is telling all of it. */
  lemma {:induction false} ToldJoin(keys: Keys, t: G.Tracker, a: seq<Call>, b: seq<Call>)
    requires Whole(keys)
    ensures var (k, u) := Told(keys, t, a); Told(keys, t, a + b) == Told(k, u, b)
    decreases |b|
  {
    hide Tell;
    if b == [] {
      assert a + b == a;
    } else {
      var n := |b| - 1;
      assert a + b == (a + b[..n]) + [b[n]] && b == b[..n] + [b[n]];
      ToldJoin(keys, t, a, b[..n]);
      ToldOne(keys, t, a + b[..n], b[n]);
    }
  }

  // ------------------------------------------------------------------ among other requests

  /** The call to tracker `i` as a step of the world of all trackers. */
  function EventOf(i: nat, c: Call): G.Event {
    match c
    case Token(now) => G.Event(G.First(i), now)
    case Size(total, now) => G.Event(G.Bytes(i, total), now)
    case End(failed, tokens, now) => G.Event(G.Done(i, failed, tokens), now)
  }

  function EventsOf(i: nat, calls: seq<Call>): seq<G.Event> {
    seq(|calls|, k requires 0 <= k < |calls| => EventOf(i, calls[k]))
  }

  lemma TellIsStep(w: G.World, i: nat, c: Call)
    requires Whole(w.keys) && i < |w.trackers|
    ensures G.Possible(w, EventOf(i, c).step)
    ensures G.Apply(w, EventOf(i, c).step, EventOf(i, c).now, true)
            == G.SetTracker(w, i, Tell(w.keys, w.trackers[i], c))
  {
    hide Whole, G.FirstTracker, G.BytesTracker, G.DoneTracker;
  }

  lemma EventsUnfold(i: nat, calls: seq<Call>)
    requires calls != []
    ensures EventsOf(i, calls) != [] && EventsOf(i, calls)[0] == EventOf(i, calls[0])
    ensures EventsOf(i, calls)[1..] == EventsOf(i, calls[1..])
    ensures calls == [calls[0]] + calls[1..]
  {
  }

  /** A request's calls are a run of the world of all trackers, which moves its own tracker and the table only. */
  lemma {:induction false} ToldIsRun(w: G.World, i: nat, calls: seq<Call>)
    requires Whole(w.keys) && i < |w.trackers|
    ensures G.CanRun(w, EventsOf(i, calls), true)
    ensures G.After(w, EventsOf(i, calls), true) == G.SetTracker(w, i, Told(w.keys, w.trackers[i], calls))
    decreases |calls|
  {
    hide Tell, Whole, G.Apply, G.Possible, EventOf, EventsOf;
    if calls == [] {
      assert EventsOf(i, calls) == [] by { hide *; NoEvents(i); }
      assert w.trackers[i := w.trackers[i]] == w.trackers;
    } else {
      EventsUnfold(i, calls);
      TellIsStep(w, i, calls[0]);
      TellWhole(w.keys, w.trackers[i], calls[0]);
      ToldSingle(w.keys, w.trackers[i], calls[0]);
      ToldJoin(w.keys, w.trackers[i], [calls[0]], calls[1..]);
      hide Told;
      var next := G.SetTracker(w, i, Tell(w.keys, w.trackers[i], calls[0]));
      ToldIsRun(next, i, calls[1..]);
      SetAgain(w, i, Tell(w.keys, w.trackers[i], calls[0]), Told(w.keys, w.trackers[i], calls));
    }
  }

  lemma SetAgain(w: G.World, i: nat, a: (Keys, G.Tracker), b: (Keys, G.Tracker))
    requires i < |w.trackers|
    ensures G.SetTracker(G.SetTracker(w, i, a), i, b) == G.SetTracker(w, i, b)
  {
  }

  lemma NoEvents(i: nat)
    ensures EventsOf(i, []) == []
  {
  }

  lemma {:induction false} NoMoves(w: G.World, run: seq<G.Event>)
    requires G.CanRun(w, run, true) && forall k :: 0 <= k < |run| ==> !run[k].step.Move?
    ensures G.AllGuarded(w, run)
    decreases |run|
  {
    hide G.Apply, G.Possible;
    if run != [] {
      NoMoves(G.Apply(w, run[0].step, run[0].now, true), run[1..]);
    }
  }

  lemma EventsDoNotMove(i: nat, calls: seq<Call>)
    ensures forall k :: 0 <= k < |EventsOf(i, calls)| ==> !EventsOf(i, calls)[k].step.Move?
  {
  }

  /** A world whose gauges are exact has exact gauges during and after any calls of one request. */
  lemma ToldKeepsExact(w: G.World, i: nat, calls: seq<Call>)
    requires Whole(w.keys) && G.Exact(w) && i < |w.trackers|
    ensures G.CanRun(w, EventsOf(i, calls), true) && G.AlwaysExact(w, EventsOf(i, calls))
    ensures G.Exact(G.SetTracker(w, i, Told(w.keys, w.trackers[i], calls)))
  {
    hide *;
    ToldIsRun(w, i, calls);
    EventsDoNotMove(i, calls);
    NoMoves(w, EventsOf(i, calls));
    G.GaugesExact(w, EventsOf(i, calls));
    G.EndsExact(w, EventsOf(i, calls));
  }

  // ------------------------------------------------------------------ many requests at once

  /** What a step is to tracker `i`. */
  function CallOf(e: G.Event, i: nat): Option<Call> {
    match e.step
    case First(j) => if j == i then Some(Token(e.now)) else None
    case Bytes(j, total) => if j == i then Some(Size(total, e.now)) else None
    case Done(j, failed, tokens) => if j == i then Some(End(failed, tokens, e.now)) else None
    case _ => None
  }

  /** The calls to tracker `i` in a run of all trackers. */
  function CallsOn(run: seq<G.Event>, i: nat): seq<Call> {
    if run == [] then []
    else
      (match CallOf(run[0], i)
       case None => []
       case Some(c) => [c]) + CallsOn(run[1..], i)
  }

  /** The request does not begin with a report of bytes. */
  predicate Ordered(calls: seq<Call>) {
    calls != [] ==> !calls[0].Size?
  }

  /** Tracker `i` exists and is past its wait. */
  predicate Begun(w: G.World, i: nat) {
    i < |w.trackers| && (w.trackers[i].finished || w.trackers[i].firstToken.Some?)
  }

  lemma BegunStays(w: G.World, e: G.Event, i: nat)
    requires G.Possible(w, e.step)
    ensures Begun(w, i) ==> Begun(G.Apply(w, e.step, e.now, true), i)
    ensures CallOf(e, i).Some? && !CallOf(e, i).value.Size? ==> Begun(G.Apply(w, e.step, e.now, true), i)
  {
    hide Whole, Retarget, LiveStore.FirstToken, LiveStore.Finish, AddInflight, Dispatch, LiveStore.Resolve,
         FinishCounts;
  }

  lemma CallsUnfold(run: seq<G.Event>, i: nat)
    requires run != []
    ensures CallOf(run[0], i).Some? ==> CallsOn(run, i) == [CallOf(run[0], i).value] + CallsOn(run[1..], i)
    ensures CallOf(run[0], i).None? ==> CallsOn(run, i) == CallsOn(run[1..], i)
  {
    hide CallOf;
    assert CallOf(run[0], i).None? ==> [] + CallsOn(run[1..], i) == CallsOn(run[1..], i);
  }

  /** Requests whose calls are ordered make a run that reports bytes only after the first token. */
  lemma {:induction false} OrderedIsBytesAfterFirst(w: G.World, run: seq<G.Event>)
    requires G.CanRun(w, run, true)
    requires forall i: nat :: Begun(w, i) || Ordered(CallsOn(run, i))
    ensures G.BytesAfterFirst(w, run)
    decreases |run|
  {
    hide G.Apply, G.Possible, CallsOn, Begun;
    if run != [] {
      var e := run[0];
      var next := G.Apply(w, e.step, e.now, true);
      forall i: nat ensures Begun(next, i) || Ordered(CallsOn(run[1..], i)) {
        CallsUnfold(run, i);
        BegunStays(w, e, i);
        assert Begun(w, i) || Ordered(CallsOn(run, i));
      }
      OrderedIsBytesAfterFirst(next, run[1..]);
      if e.step.Bytes? {
        CallsUnfold(run, e.step.i);
        assert !Ordered(CallsOn(run, e.step.i));
        BegunIs(w, e.step.i);
      }
    }
  }

  lemma BegunIs(w: G.World, i: nat)
    ensures Begun(w, i) ==> i < |w.trackers| && (w.trackers[i].finished || w.trackers[i].firstToken.Some?)
  {
  }

  /**
    From an empty store, in any interleaving of requests, retargets and snapshots, the gauges are
    exact in every state if no request begins with a report of bytes.
   */
  lemma OrderedRunsAreExact(run: seq<G.Event>)
    requires G.CanRun(G.World(map[], []), run, true)
    requires forall i: nat :: Ordered(CallsOn(run, i))
    ensures G.AlwaysExact(G.World(map[], []), run)
  {
    hide *;
    OrderedIsBytesAfterFirst(G.World(map[], []), run);
    G.StreamingIsGuarded(G.World(map[], []), run);
    G.NothingToCount();
    G.GaugesExact(G.World(map[], []), run);
  }
}
