/** Request trackers, drains and flushes together: what each finished request adds to the rollups. */
module RollupRuns {
  import opened Wrappers
  import opened MinuteRollups
  import opened StatsStore
  import LiveStore
  import G = LiveGauges
  import R = Requests

  datatype System = System(world: G.World, flow: Flow)

  datatype Act =
    | Gauge(step: G.Step)                       // any tracker step but a finish, and snapshots
    | Close(i: nat, report: R.Report)           // finish
    | DrainAll
    | CommitBatch(batch: nat)
    | FailBatch(batch: nat)

  /** An act, the clock reading it goes by, and the minute of the wall clock. */
  datatype Event = Event(act: Act, now: real, minute: int)

  /** The step of the trackers in an act, if there is one. */
  function TrackerStep(a: Act): Option<G.Step> {
    match a
    case Gauge(s) => Some(s)
    case Close(i, r) => Some(G.Done(i, !r.success && !r.cancelled, r.outputTokens))
    case _ => None
  }

  ghost predicate Enabled(sys: System, a: Act) {
    && (TrackerStep(a).Some? ==> G.Possible(sys.world, TrackerStep(a).value))
    && (a.Gauge? ==> !a.step.Done?)
    && (a.CommitBatch? || a.FailBatch? ==> a.batch < |sys.flow.batches|)
  }

  /** The request that an event closes, and what it adds to which minute bucket. */
  ghost function Closes(sys: System, e: Event): Option<(MinuteKey, Totals)>
    requires Enabled(sys, e.act)
  {
    if e.act.Close? && !sys.world.trackers[e.act.i].finished then
      var t := sys.world.trackers[e.act.i];
      Some((MinuteOf(e.minute, t.key), Share(R.FiguresOf(t, e.act.report, e.now))))
    else None
  }

  /** What an event does to the minute buckets, the batches and the table. */
  ghost function Effects(sys: System, e: Event): seq<Step>
    requires Enabled(sys, e.act)
  {
    var keys, pending := sys.world.keys, sys.flow.pending;
    match e.act
    case Gauge(Start(key)) => [Count(MinuteOf(e.minute, LiveStore.Resolve(keys, key)), ONE_REQUEST)]
    case Gauge(Move(i, key)) =>
      var t := sys.world.trackers[i];
      if !G.Moves(keys, t, key) then []
      else
        var left, taken := MinuteOf(e.minute, t.key), MinuteOf(e.minute, LiveStore.Resolve(keys, key));
        [Count(left, GivenUp(pending, left)), Count(taken, ONE_REQUEST)]
    case Gauge(_) => []
    case Close(i, r) =>
      (match Closes(sys, e)
       case None => []
       case Some((key, share)) => [Count(key, share)])
    case DrainAll => [Drain]
    case CommitBatch(b) => [Commit(b)]
    case FailBatch(b) => [Fail(b)]
  }

  /** The bucket of a request is that of its minute, server and model, and its share counts what was reported. */
  lemma ClosesMeans(sys: System, e: Event)
    requires Enabled(sys, e.act)
    ensures Closes(sys, e).Some? <==> e.act.Close? && !sys.world.trackers[e.act.i].finished
    ensures Closes(sys, e).Some? ==>
              var t, r, (k, s) := sys.world.trackers[e.act.i], e.act.report, Closes(sys, e).value;
              && k == MinuteKey(e.minute, t.key.server, t.key.model)
              && s.errors == (if r.success || r.cancelled then 0 else 1) && s.requests == 0
              && s.prompt == r.promptTokens && s.completion == r.outputTokens
              && s.total == (if r.totalTokens != 0 then r.totalTokens else r.promptTokens + r.outputTokens)
              && R.TimesOf(s, t, r.decodeSeconds, r.duration, r.itl, r.outputTokens, e.now)
  {
    if Closes(sys, e).Some? {
      R.ShareOfRequest(sys.world.trackers[e.act.i], e.act.report, e.now);
    }
    hide Share, R.FiguresOf, R.TimesOf;
  }

  lemma FewSteps(flow: Flow, a: Step, b: Step)
    ensures CanRun(flow, []) && After(flow, []) == flow
    ensures MinuteRollups.Possible(flow, a) ==> CanRun(flow, [a]) && After(flow, [a]) == MinuteRollups.Apply(flow, a)
    ensures MinuteRollups.Possible(flow, a) && MinuteRollups.Possible(MinuteRollups.Apply(flow, a), b) ==>
              CanRun(flow, [a, b]) && After(flow, [a, b]) == MinuteRollups.Apply(MinuteRollups.Apply(flow, a), b)
  {
    hide MinuteRollups.Apply, MinuteRollups.Possible;
    assert [a][1..] == [] && [a, b][1..] == [b] && [b][1..] == [];
    if MinuteRollups.Possible(flow, a) {
      var next := MinuteRollups.Apply(flow, a);
      assert CanRun(next, []);
      if MinuteRollups.Possible(next, b) {
        assert CanRun(MinuteRollups.Apply(next, b), []);
        assert CanRun(next, [b]);
      }
    }
  }

  lemma EffectsCanRun(sys: System, e: Event)
    requires Enabled(sys, e.act)
    ensures CanRun(sys.flow, Effects(sys, e))
  {
    hide Share, Credit, GivenUp, G.Moves, LiveStore.Resolve, Without, AddAll, CanRun, After;
    var es := Effects(sys, e);
    FewSteps(sys.flow, if |es| > 0 then es[0] else Drain, if |es| > 1 then es[1] else Drain);
    assert |es| <= 2 && (es == [] || es == [es[0]] || es == [es[0], es[1]]);
  }

  ghost function Apply(sys: System, e: Event): System
    requires Enabled(sys, e.act)
  {
    EffectsCanRun(sys, e);
    System(match TrackerStep(e.act) case None => sys.world case Some(s) => G.Apply(sys.world, s, e.now, true),
           After(sys.flow, Effects(sys, e)))
  }

  /** The minute buckets move as the trackers' own methods say. */
  lemma EffectsAreTheTrackers(sys: System, e: Event)
    requires Enabled(sys, e.act)
    ensures var pending, after := sys.flow.pending, Apply(sys, e).flow.pending;
            match e.act
            case Gauge(Start(key)) =>
              after == Credit(pending, MinuteOf(e.minute, LiveStore.Resolve(sys.world.keys, key)), ONE_REQUEST)
            case Gauge(Move(i, key)) =>
              after == R.MinutesMoved(sys.world.keys, pending, sys.world.trackers[i], key, e.minute)
            case Gauge(_) => after == pending
            case Close(i, r) => after == R.MinutesDone(pending, sys.world.trackers[i], r, e.now, e.minute)
            case DrainAll => after == map[]
            case _ => after == pending
  {
    hide Share, Credit, GivenUp, G.Moves, LiveStore.Resolve, Without, AddAll, CanRun, After, G.Apply;
    var es := Effects(sys, e);
    FewSteps(sys.flow, if |es| > 0 then es[0] else Drain, if |es| > 1 then es[1] else Drain);
    assert es == [] || es == [es[0]] || es == [es[0], es[1]];
  }

  // ------------------------------------------------------------------ runs

  ghost predicate Runs(sys: System, run: seq<Event>)
    decreases |run|
  {
    run == [] || (Enabled(sys, run[0].act) && Runs(Apply(sys, run[0]), run[1..]))
  }

  ghost function AtEnd(sys: System, run: seq<Event>): System
    requires Runs(sys, run)
    decreases |run|
  {
    if run == [] then sys else AtEnd(Apply(sys, run[0]), run[1..])
  }

  /** What tracker `i` adds in a run: its share, at the event that closes it. */
  ghost function Closing(sys: System, run: seq<Event>, i: nat): Option<(MinuteKey, Totals)>
    requires Runs(sys, run)
    decreases |run|
  {
    if run == [] then None
    else if run[0].act.Close? && run[0].act.i == i && Closes(sys, run[0]).Some? then Closes(sys, run[0])
    else Closing(Apply(sys, run[0]), run[1..], i)
  }

  function At(c: Option<(MinuteKey, Totals)>, k: MinuteKey): Totals {
    if c.Some? && c.value.0 == k then c.value.1 else NOTHING
  }

  /** The shares of the first `n` trackers for a key. */
  ghost function Closed(sys: System, run: seq<Event>, n: nat, k: MinuteKey): Totals
    requires Runs(sys, run)
  {
    if n == 0 then NOTHING else Add(Closed(sys, run, n - 1, k), At(Closing(sys, run, n - 1), k))
  }

  /** All columns but the request count, which dispatches and retargets move. */
  function Rest(t: Totals): Totals { t.(requests := 0) }

  lemma RestLaws(a: Totals, b: Totals)
    ensures Rest(Add(a, b)) == Add(Rest(a), Rest(b)) && Rest(NOTHING) == NOTHING == Rest(ONE_REQUEST)
    ensures Rest(Rest(a)) == Rest(a)
  {
  }

  lemma GivenUpIsRequests(t: Table, k: MinuteKey)
    ensures Rest(GivenUp(t, k)) == NOTHING
  {
  }

  lemma ShareCountsNoRequest(f: Figures)
    ensures Rest(Share(f)) == Share(f)
  {
  }

  lemma LoggedOne(a: Step, k: MinuteKey)
    ensures Logged([], k) == NOTHING && Logged([a], k) == (if a.Count? && a.key == k then a.d else NOTHING)
  {
    assert [a][1..] == [];
    AddLaws(if a.Count? && a.key == k then a.d else NOTHING, NOTHING, NOTHING);
    hide Add;
  }

  lemma LoggedTwo(a: Step, b: Step, k: MinuteKey)
    ensures Logged([a, b], k) == Add(Logged([a], k), Logged([b], k))
  {
    hide Add;
    LoggedOne(a, k);
    assert [a, b][1..] == [b];
  }

  /** Apart from requests, an event counts only what it closes. */
  lemma EffectsCount(sys: System, e: Event, k: MinuteKey)
    requires Enabled(sys, e.act)
    ensures Rest(Logged(Effects(sys, e), k)) == At(Closes(sys, e), k)
  {
    hide Share, Credit, GivenUp, G.Moves, LiveStore.Resolve, Logged, Rest, Add;
    var es := Effects(sys, e);
    RestLaws(NOTHING, NOTHING);
    AddLaws(NOTHING, NOTHING, NOTHING);
    LoggedOne(Drain, k);
    if |es| == 1 {
      LoggedOne(es[0], k);
      assert es == [es[0]];
      if e.act.Close? {
        ShareCountsNoRequest(R.FiguresOf(sys.world.trackers[e.act.i], e.act.report, e.now));
      }
    } else if |es| == 2 {
      LoggedOne(es[0], k);
      LoggedOne(es[1], k);
      LoggedTwo(es[0], es[1], k);
      assert es == [es[0], es[1]];
      GivenUpIsRequests(sys.flow.pending, es[0].key);
      RestLaws(Logged([es[0]], k), Logged([es[1]], k));
    }
  }

  // ------------------------------------------------------------------ each request once

  lemma TrackersGrow(sys: System, e: Event)
    requires Enabled(sys, e.act)
    ensures var ts, after := sys.world.trackers, Apply(sys, e).world.trackers;
            && |ts| <= |after| <= |ts| + 1
            && (forall i :: 0 <= i < |ts| ==>
                  (after[i].finished <==> ts[i].finished || (e.act.Close? && e.act.i == i)))
            && (|ts| < |after| ==> !after[|ts|].finished)
  {
    hide LiveStore.Retarget, LiveStore.FirstToken, LiveStore.Finish, LiveStore.AddInflight, LiveStore.Dispatch,
         LiveStore.Resolve, LiveStore.EvictIdle, Effects, After;
  }

  ghost predicate Finished(sys: System, i: nat) {
    i < |sys.world.trackers| && sys.world.trackers[i].finished
  }

  /** A tracker's share is added exactly when it is finished at the end and was not at the beginning. */
  lemma {:induction false} ClosedOnce(sys: System, run: seq<Event>, i: nat)
    requires Runs(sys, run)
    ensures Closing(sys, run, i).Some? <==> Finished(AtEnd(sys, run), i) && !Finished(sys, i)
    ensures Finished(sys, i) ==> Finished(AtEnd(sys, run), i)
    decreases |run|
  {
    hide Apply, Enabled;
    if run != [] {
      ClosesIs(sys, run[0]);
      FinishedNext(sys, run[0], i);
      ClosedOnce(Apply(sys, run[0]), run[1..], i);
      hide Closes;
    }
  }

  lemma ClosesIs(sys: System, e: Event)
    requires Enabled(sys, e.act)
    ensures Closes(sys, e).Some? <==> e.act.Close? && !Finished(sys, e.act.i)
  {
  }

  lemma FinishedNext(sys: System, e: Event, i: nat)
    requires Enabled(sys, e.act)
    ensures Finished(Apply(sys, e), i) <==> Finished(sys, i) || (e.act.Close? && e.act.i == i)
  {
    hide *;
    TrackersGrow(sys, e);
    InRange(sys, e, |sys.world.trackers|);
    FinishedIs(sys, i);
    FinishedIs(Apply(sys, e), i);
  }

  lemma FinishedIs(sys: System, i: nat)
    ensures Finished(sys, i) <==> i < |sys.world.trackers| && sys.world.trackers[i].finished
  {
  }

  /** The first event's closing comes on top of the closings of the rest of the run. */
  lemma {:induction false} ClosedUnfolds(sys: System, run: seq<Event>, n: nat, k: MinuteKey)
    requires Runs(sys, run) && run != []
    ensures Closed(sys, run, n, k)
            == Add(if run[0].act.Close? && run[0].act.i < n then At(Closes(sys, run[0]), k) else NOTHING,
                   Closed(Apply(sys, run[0]), run[1..], n, k))
    decreases n
  {
    hide *;
    RunsUnfolds(sys, run);
    var e, next := run[0], Apply(sys, run[0]);
    AddLaws(NOTHING, NOTHING, NOTHING);
    if n == 0 {
      NoneClosed(sys, run, k);
      NoneClosed(next, run[1..], k);
    } else {
      ClosedUnfolds(sys, run, n - 1, k);
      OneMore(sys, run, n, k);
      OneMore(next, run[1..], n, k);
      ClosingUnfolds(sys, run, n - 1, k);
      var c := At(Closes(sys, e), k);
      var before, mine := Closed(next, run[1..], n - 1, k), At(Closing(next, run[1..], n - 1), k);
      AddLaws(c, before, mine);
      AddLaws(NOTHING, before, mine);
      AddLaws(before, c, NOTHING);
      AddLaws(Add(before, mine), NOTHING, NOTHING);
    }
  }

  lemma RunsUnfolds(sys: System, run: seq<Event>)
    requires Runs(sys, run) && run != []
    ensures Enabled(sys, run[0].act) && Runs(Apply(sys, run[0]), run[1..])
    ensures AtEnd(sys, run) == AtEnd(Apply(sys, run[0]), run[1..])
  {
    hide Apply, Enabled;
  }

  lemma NoneClosed(sys: System, run: seq<Event>, k: MinuteKey)
    requires Runs(sys, run)
    ensures Closed(sys, run, 0, k) == NOTHING
  {
  }

  lemma OneMore(sys: System, run: seq<Event>, n: nat, k: MinuteKey)
    requires Runs(sys, run) && n > 0
    ensures Closed(sys, run, n, k) == Add(Closed(sys, run, n - 1, k), At(Closing(sys, run, n - 1), k))
  {
    hide Add, Closing, At, Runs;
  }

  /** A tracker closed by the first event is not closed again. */
  lemma ClosingUnfolds(sys: System, run: seq<Event>, i: nat, k: MinuteKey)
    requires Runs(sys, run) && run != []
    ensures var e, next := run[0], Apply(sys, run[0]);
            if e.act.Close? && e.act.i == i && Closes(sys, e).Some? then
              At(Closing(sys, run, i), k) == At(Closes(sys, e), k) && At(Closing(next, run[1..], i), k) == NOTHING
            else At(Closing(sys, run, i), k) == At(Closing(next, run[1..], i), k)
                 && (e.act.Close? && e.act.i == i ==> At(Closes(sys, e), k) == NOTHING)
  {
    var e, next := run[0], Apply(sys, run[0]);
    FinishedNext(sys, e, i);
    ClosedOnce(next, run[1..], i);
    hide Apply, Enabled, Closes;
  }

  // ------------------------------------------------------------------ conservation

  lemma {:induction false} TrackersStay(sys: System, run: seq<Event>)
    requires Runs(sys, run)
    ensures |sys.world.trackers| <= |AtEnd(sys, run).world.trackers|
    decreases |run|
  {
    hide Apply, Enabled;
    if run != [] {
      TrackersGrow(sys, run[0]);
      TrackersStay(Apply(sys, run[0]), run[1..]);
    }
  }

  lemma EventHolds(sys: System, e: Event, k: MinuteKey)
    requires Enabled(sys, e.act)
    ensures Rest(Held(Apply(sys, e).flow, k)) == Add(Rest(Held(sys.flow, k)), At(Closes(sys, e), k))
  {
    EffectsCanRun(sys, e);
    EffectsCount(sys, e, k);
    hide Held, Rest, Add, Effects, Closes, Logged, CanRun, After;
    NothingLost(sys.flow, Effects(sys, e), k);
    RestLaws(Held(sys.flow, k), Logged(Effects(sys, e), k));
  }

  /**
    In every run of trackers, drains, commits and failures, in any order, all columns but the
    request count grow, over everything held and lost for a key, by exactly the shares of the
    requests closed under it, each counted once.
   */
  lemma {:induction false} FinishesAreHeld(sys: System, run: seq<Event>, n: nat, k: MinuteKey)
    requires Runs(sys, run) && n >= |AtEnd(sys, run).world.trackers|
    ensures Rest(Held(AtEnd(sys, run).flow, k)) == Add(Rest(Held(sys.flow, k)), Closed(sys, run, n, k))
    decreases |run|
  {
    hide *;
    if run == [] {
      EmptyRun(sys, n, k);
      AddLaws(Rest(Held(sys.flow, k)), NOTHING, NOTHING);
    } else {
      RunsUnfolds(sys, run);
      var e, next := run[0], Apply(sys, run[0]);
      EventHolds(sys, e, k);
      FinishesAreHeld(next, run[1..], n, k);
      TrackersStay(sys, run);
      ClosedUnfolds(sys, run, n, k);
      InRange(sys, e, n);
      NotClosing(sys, e, k);
      AddLaws(Rest(Held(sys.flow, k)), At(Closes(sys, e), k), Closed(next, run[1..], n, k));
    }
  }

  lemma InRange(sys: System, e: Event, n: nat)
    requires Enabled(sys, e.act) && n >= |sys.world.trackers|
    ensures e.act.Close? ==> e.act.i < n
  {
  }

  lemma NotClosing(sys: System, e: Event, k: MinuteKey)
    requires Enabled(sys, e.act)
    ensures !e.act.Close? ==> At(Closes(sys, e), k) == NOTHING
  {
  }

  lemma {:induction false} EmptyRun(sys: System, n: nat, k: MinuteKey)
    ensures Runs(sys, []) && AtEnd(sys, []) == sys && Closed(sys, [], n, k) == NOTHING
    decreases n
  {
    AddLaws(NOTHING, NOTHING, NOTHING);
    hide Add;
    if n > 0 { EmptyRun(sys, n - 1, k); }
  }

  const FRESH := System(G.World(map[], []), EMPTY)

  /**
    From an empty store, with no batch under way: errors, tokens, first-token, gap and duration
    columns of the table and the pending buckets are exactly the shares of the finished requests,
    if and only if no failed flush took any of them.
   */
  lemma TableIsFinishedRequests(run: seq<Event>, k: MinuteKey)
    requires Runs(FRESH, run) && AtEnd(FRESH, run).flow.batches == []
    ensures var end := AtEnd(FRESH, run);
            Rest(Add(Get(end.flow.stored, k), Get(end.flow.pending, k))) == Closed(FRESH, run, |end.world.trackers|, k)
            <==> Rest(Get(end.flow.lost, k)) == NOTHING
  {
    hide *;
    var end := AtEnd(FRESH, run);
    FinishesAreHeld(FRESH, run, |end.world.trackers|, k);
    HeldWhenIn(end.flow, k);
    FreshHoldsNothing(k);
    RestLaws(NOTHING, NOTHING);
    RestLaws(Add(Get(end.flow.stored, k), Get(end.flow.pending, k)), Get(end.flow.lost, k));
    AddLaws(Closed(FRESH, run, |end.world.trackers|, k), NOTHING, NOTHING);
    NothingAdded(Rest(Add(Get(end.flow.stored, k), Get(end.flow.pending, k))), Rest(Get(end.flow.lost, k)));
  }

  lemma FreshHoldsNothing(k: MinuteKey)
    ensures Held(FRESH.flow, k) == NOTHING
  {
    HeldAtFirst(k);
  }

  // ------------------------------------------------------------------ the request column

  /** The moving retargets. */
  predicate IsMove(sys: System, e: Event)
    requires e.act.Gauge? && e.act.step.Move? ==> e.act.step.i < |sys.world.trackers|
  {
    e.act.Gauge? && e.act.step.Move? && G.Moves(sys.world.keys, sys.world.trackers[e.act.step.i], e.act.step.key)
  }

  /** The minute bucket that a moving retarget takes its request from. */
  ghost function OldBucket(sys: System, e: Event): MinuteKey
    requires Enabled(sys, e.act) && IsMove(sys, e)
  {
    MinuteOf(e.minute, sys.world.trackers[e.act.step.i].key)
  }

  /** The minute bucket that a dispatch or a moving retarget counts a request in. */
  ghost function Into(sys: System, e: Event): Option<MinuteKey>
    requires Enabled(sys, e.act)
  {
    if (e.act.Gauge? && e.act.step.Start?) || IsMove(sys, e)
    then Some(MinuteOf(e.minute, LiveStore.Resolve(sys.world.keys, e.act.step.key))) else None
  }

  /** The minute bucket that gives up a request: the old one, if it holds any. */
  ghost function OutOf(sys: System, e: Event): Option<MinuteKey>
    requires Enabled(sys, e.act)
  {
    if IsMove(sys, e) && Get(sys.flow.pending, OldBucket(sys, e)).requests > 0 then Some(OldBucket(sys, e)) else None
  }

  function One(o: Option<MinuteKey>, k: MinuteKey): nat { if o == Some(k) then 1 else 0 }

  ghost predicate NoNegatives(t: Table) {
    forall k :: Get(t, k).requests >= 0
  }

  lemma RequestsAdd(a: Totals, b: Totals)
    ensures Add(a, b).requests == a.requests + b.requests && NOTHING.requests == 0 && ONE_REQUEST.requests == 1
  {
  }

  lemma GivenUpRequests(t: Table, k: MinuteKey)
    requires NoNegatives(t)
    ensures GivenUp(t, k).requests == if Get(t, k).requests > 0 then -1 else 0
  {
  }

  lemma ShareRequests(f: Figures)
    ensures Share(f).requests == 0
  {
  }

  lemma LoggedRequests(a: Step, b: Step, k: MinuteKey)
    ensures Logged([], k).requests == 0
    ensures Logged([a], k).requests == if a.Count? && a.key == k then a.d.requests else 0
    ensures Logged([a, b], k).requests == Logged([a], k).requests + Logged([b], k).requests
  {
    LoggedOne(a, k);
    LoggedTwo(a, b, k);
    RequestsAdd(Logged([a], k), Logged([b], k));
    hide Logged, Add;
  }

  /** What an event counts in the request column of a key. */
  lemma EffectsRequests(sys: System, e: Event, k: MinuteKey)
    requires Enabled(sys, e.act) && NoNegatives(sys.flow.pending)
    ensures Logged(Effects(sys, e), k).requests == One(Into(sys, e), k) - One(OutOf(sys, e), k)
  {
    hide Share, Credit, GivenUp, G.Moves, LiveStore.Resolve, Logged, Add, NoNegatives;
    var es := Effects(sys, e);
    RequestsAdd(NOTHING, NOTHING);
    LoggedRequests(if |es| > 0 then es[0] else Drain, if |es| > 1 then es[1] else Drain, k);
    LoggedRequests(if |es| > 1 then es[1] else Drain, Drain, k);
    assert es == [] || es == [es[0]] || es == [es[0], es[1]];
    if e.act.Close? && |es| == 1 {
      ShareRequests(R.FiguresOf(sys.world.trackers[e.act.i], e.act.report, e.now));
    } else if |es| == 2 {
      GivenUpRequests(sys.flow.pending, es[0].key);
    }
  }

  lemma EventRequests(sys: System, e: Event, k: MinuteKey)
    requires Enabled(sys, e.act) && NoNegatives(sys.flow.pending)
    ensures Held(Apply(sys, e).flow, k).requests
            == Held(sys.flow, k).requests + One(Into(sys, e), k) - One(OutOf(sys, e), k)
  {
    EffectsCanRun(sys, e);
    EffectsRequests(sys, e, k);
    hide Held, Add, Effects, Logged, CanRun, After, Into, OutOf, One, NoNegatives;
    NothingLost(sys.flow, Effects(sys, e), k);
    RequestsAdd(Held(sys.flow, k), Logged(Effects(sys, e), k));
  }

  lemma CreditRequests(t: Table, k: MinuteKey, d: Totals)
    requires NoNegatives(t) && Get(t, k).requests + d.requests >= 0
    ensures NoNegatives(Credit(t, k, d))
  {
    forall o ensures Get(Credit(t, k, d), o).requests >= 0 {
      CreditGets(t, k, d, o);
      RequestsAdd(Get(t, o), d);
      assert Get(t, o).requests >= 0;
    }
  }

  /** A dispatch or a move counts a request in the bucket of its minute and resolved key. */
  lemma IntoMeans(sys: System, e: Event)
    requires Enabled(sys, e.act)
    ensures Into(sys, e).Some? ==>
              e.act.Gauge? && (e.act.step.Start? || e.act.step.Move?)
              && var k := LiveStore.Resolve(sys.world.keys, e.act.step.key);
                 Into(sys, e).value == MinuteKey(e.minute, k.server, k.model)
    ensures OutOf(sys, e).Some? ==>
              e.act.Gauge? && e.act.step.Move?
              && var k := sys.world.trackers[e.act.step.i].key;
                 OutOf(sys, e).value == MinuteKey(e.minute, k.server, k.model)
  {
    hide LiveStore.Resolve, G.Moves;
  }

  /** No bucket's request count goes below zero. */
  lemma StaysNonNegative(sys: System, e: Event)
    requires Enabled(sys, e.act) && NoNegatives(sys.flow.pending)
    ensures NoNegatives(Apply(sys, e).flow.pending)
  {
    hide *;
    EffectsAreTheTrackers(sys, e);
    TrackerInRange(sys, e);
    var t, keys := sys.flow.pending, sys.world.keys;
    match e.act
    case Gauge(Start(key)) => OneMoreCounted(t, MinuteOf(e.minute, LiveStore.Resolve(keys, key)));
    case Gauge(Move(i, key)) => MoveCounted(keys, t, sys.world.trackers[i], key, e.minute);
    case Close(i, r) => DoneCounted(t, sys.world.trackers[i], r, e.now, e.minute);
    case DrainAll => NothingIsNonNegative();
    case _ =>
  }

  lemma TrackerInRange(sys: System, e: Event)
    requires Enabled(sys, e.act)
    ensures e.act.Close? ==> e.act.i < |sys.world.trackers|
    ensures e.act.Gauge? && e.act.step.Move? ==> e.act.step.i < |sys.world.trackers|
  {
  }

  lemma MoveCounted(keys: LiveStore.Keys, t: Table, tracker: G.Tracker, key: LiveStore.Key, minute: int)
    requires NoNegatives(t)
    ensures NoNegatives(R.MinutesMoved(keys, t, tracker, key, minute))
  {
    hide NoNegatives, Credit, GivenUp, G.Moves, LiveStore.Resolve, MinuteOf;
    var left := MinuteOf(minute, tracker.key);
    OneGivenUp(t, left);
    OneMoreCounted(Credit(t, left, GivenUp(t, left)), MinuteOf(minute, LiveStore.Resolve(keys, key)));
  }

  lemma DoneCounted(t: Table, tracker: G.Tracker, r: R.Report, now: real, minute: int)
    requires NoNegatives(t)
    ensures NoNegatives(R.MinutesDone(t, tracker, r, now, minute))
  {
    hide NoNegatives, Credit, Share, MinuteOf, R.FiguresOf;
    ShareCounted(t, MinuteOf(minute, tracker.key), R.FiguresOf(tracker, r, now));
  }

  lemma OneMoreCounted(t: Table, k: MinuteKey)
    requires NoNegatives(t)
    ensures NoNegatives(Credit(t, k, ONE_REQUEST))
  {
    assert Get(t, k).requests >= 0;
    CreditRequests(t, k, ONE_REQUEST);
  }

  lemma OneGivenUp(t: Table, k: MinuteKey)
    requires NoNegatives(t)
    ensures NoNegatives(Credit(t, k, GivenUp(t, k)))
  {
    assert Get(t, k).requests >= 0;
    GivenUpRequests(t, k);
    CreditRequests(t, k, GivenUp(t, k));
  }

  lemma ShareCounted(t: Table, k: MinuteKey, f: Figures)
    requires NoNegatives(t)
    ensures NoNegatives(Credit(t, k, Share(f)))
  {
    assert Get(t, k).requests >= 0;
    ShareRequests(f);
    CreditRequests(t, k, Share(f));
  }

  lemma NothingIsNonNegative()
    ensures NoNegatives(map[])
  {
  }

  /** The requests that came into a bucket in a run, and those that were taken out of it. */
  ghost function Came(sys: System, run: seq<Event>, k: MinuteKey): nat
    requires Runs(sys, run)
    decreases |run|
  {
    if run == [] then 0 else One(Into(sys, run[0]), k) + Came(Apply(sys, run[0]), run[1..], k)
  }

  ghost function Went(sys: System, run: seq<Event>, k: MinuteKey): nat
    requires Runs(sys, run)
    decreases |run|
  {
    if run == [] then 0 else One(OutOf(sys, run[0]), k) + Went(Apply(sys, run[0]), run[1..], k)
  }

  /**
    In every run the request count held and lost for a key grows by the dispatches and moves into it,
    less the moves out of it that found a request in its bucket.
   */
  lemma {:induction false} RequestsAreHeld(sys: System, run: seq<Event>, k: MinuteKey)
    requires Runs(sys, run) && NoNegatives(sys.flow.pending)
    ensures Held(AtEnd(sys, run).flow, k).requests
            == Held(sys.flow, k).requests + Came(sys, run, k) - Went(sys, run, k)
    decreases |run|
  {
    hide Apply, Enabled, Held, Into, OutOf, One, NoNegatives;
    if run != [] {
      EventRequests(sys, run[0], k);
      StaysNonNegative(sys, run[0]);
      RequestsAreHeld(Apply(sys, run[0]), run[1..], k);
    }
  }

  // ---- over all keys

  /** The request counts of these keys, held and lost, together. */
  function Requests(flow: Flow, ks: seq<MinuteKey>): int {
    if ks == [] then 0 else Held(flow, ks[0]).requests + Requests(flow, ks[1..])
  }

  predicate Distinct(ks: seq<MinuteKey>) {
    forall i, j :: 0 <= i < j < |ks| ==> ks[i] != ks[j]
  }

  function OneIn(o: Option<MinuteKey>, ks: seq<MinuteKey>): nat {
    if ks == [] then 0 else One(o, ks[0]) + OneIn(o, ks[1..])
  }

  lemma {:induction false} OneInIs(o: Option<MinuteKey>, ks: seq<MinuteKey>)
    requires Distinct(ks)
    ensures OneIn(o, ks) == if o.Some? && o.value in ks then 1 else 0
  {
    if ks != [] {
      OneInIs(o, ks[1..]);
      assert ks == [ks[0]] + ks[1..];
    }
  }

  /** Every bucket that the run's dispatches and moves touch is among these keys. */
  ghost predicate Covers(sys: System, run: seq<Event>, ks: seq<MinuteKey>)
    requires Runs(sys, run)
    decreases |run|
  {
    run != [] ==>
      && (Into(sys, run[0]).Some? ==> Into(sys, run[0]).value in ks)
      && (OutOf(sys, run[0]).Some? ==> OutOf(sys, run[0]).value in ks)
      && Covers(Apply(sys, run[0]), run[1..], ks)
  }

  function Dispatches(run: seq<Event>): nat {
    if run == [] then 0
    else (if run[0].act.Gauge? && run[0].act.step.Start? then 1 else 0) + Dispatches(run[1..])
  }

  /** A move whose old minute bucket holds no request to give up. */
  ghost predicate EmptyMove(sys: System, e: Event)
    requires Enabled(sys, e.act)
  {
    IsMove(sys, e) && Get(sys.flow.pending, OldBucket(sys, e)).requests <= 0
  }

  ghost function EmptyMoves(sys: System, run: seq<Event>): nat
    requires Runs(sys, run)
    decreases |run|
  {
    if run == [] then 0 else (if EmptyMove(sys, run[0]) then 1 else 0) + EmptyMoves(Apply(sys, run[0]), run[1..])
  }

  lemma {:induction false} RequestsNext(sys: System, e: Event, ks: seq<MinuteKey>)
    requires Enabled(sys, e.act) && NoNegatives(sys.flow.pending)
    ensures Requests(Apply(sys, e).flow, ks)
            == Requests(sys.flow, ks) + OneIn(Into(sys, e), ks) - OneIn(OutOf(sys, e), ks)
    decreases |ks|
  {
    hide Apply, Enabled, Held, Into, OutOf, One, NoNegatives;
    if ks != [] {
      EventRequests(sys, e, ks[0]);
      RequestsNext(sys, e, ks[1..]);
    }
  }

  /** An event counts one request more exactly when it is a dispatch or a move out of an empty bucket. */
  lemma EventCounts(sys: System, e: Event)
    requires Enabled(sys, e.act)
    ensures (if Into(sys, e).Some? then 1 else 0) - (if OutOf(sys, e).Some? then 1 else 0)
            == (if e.act.Gauge? && e.act.step.Start? then 1 else 0) + (if EmptyMove(sys, e) then 1 else 0)
  {
    hide Get, G.Moves, LiveStore.Resolve;
  }

  /** Over all keys, the request count grows by the dispatches and the moves out of empty buckets. */
  lemma {:induction false} RequestsGrow(sys: System, run: seq<Event>, ks: seq<MinuteKey>)
    requires Runs(sys, run) && NoNegatives(sys.flow.pending) && Distinct(ks) && Covers(sys, run, ks)
    ensures Requests(AtEnd(sys, run).flow, ks) == Requests(sys.flow, ks) + Dispatches(run) + EmptyMoves(sys, run)
    decreases |run|
  {
    hide Apply, Enabled, Held, Into, OutOf, OneIn, NoNegatives, Requests, EmptyMove, Distinct;
    if run != [] {
      RequestsNext(sys, run[0], ks);
      OneInIs(Into(sys, run[0]), ks);
      OneInIs(OutOf(sys, run[0]), ks);
      EventCounts(sys, run[0]);
      StaysNonNegative(sys, run[0]);
      RequestsGrow(Apply(sys, run[0]), run[1..], ks);
    }
  }

  /**
    From an empty store, every dispatched request is counted once over table, batches, buckets and
    losses together, if and only if no move finds its old minute bucket empty: each that does counts
    its request once more.
   */
  lemma RequestsCountedOnce(run: seq<Event>, ks: seq<MinuteKey>)
    requires Runs(FRESH, run) && Distinct(ks) && Covers(FRESH, run, ks)
    ensures Requests(AtEnd(FRESH, run).flow, ks) == Dispatches(run) + EmptyMoves(FRESH, run)
    ensures Requests(AtEnd(FRESH, run).flow, ks) == Dispatches(run) <==> EmptyMoves(FRESH, run) == 0
  {
    hide *;
    FreshIsNonNegative();
    RequestsGrow(FRESH, run, ks);
    NoRequestsAtFirst(ks);
  }

  lemma FreshIsNonNegative()
    ensures NoNegatives(FRESH.flow.pending)
  {
  }

  lemma {:induction false} NoRequestsAtFirst(ks: seq<MinuteKey>)
    ensures Requests(FRESH.flow, ks) == 0
  {
    hide *;
    RequestsUnfold(FRESH.flow, ks);
    if ks != [] {
      FreshHoldsNothing(ks[0]);
      NoRequestsAtFirst(ks[1..]);
      RequestsAdd(NOTHING, NOTHING);
    }
  }

  lemma RequestsUnfold(flow: Flow, ks: seq<MinuteKey>)
    ensures Requests(flow, ks) == if ks == [] then 0 else Held(flow, ks[0]).requests + Requests(flow, ks[1..])
  {
    hide Held;
  }
}
