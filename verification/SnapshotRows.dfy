/** Which keys a snapshot shows, told by the event log and the open requests. */
module SnapshotRows {
  import opened Wrappers
  import opened LiveStore
  import opened LiveGauges
  import opened LiveRing
  import StatsStore

  const EMPTY_WORLD := World(map[], [])

  /** The snapshot at `now` has a row for the key. */
  predicate Shows(keys: Keys, k: Key, now: real) {
    k in EvictIdle(keys, now) && StatsStore.Listed(StatsStore.RowOf(keys[k], now))
  }

  ghost predicate OpenOn(ts: seq<Tracker>, k: Key) {
    exists i :: 0 <= i < |ts| && !ts[i].finished && ts[i].key == k
  }

  /** Nothing open on a key: every gauge of it is zero. */
  lemma {:induction false} NothingOpen(ts: seq<Tracker>, k: Key, g: Gauge)
    requires !OpenOn(ts, k)
    ensures Sum(ts, k, g) == 0
  {
    if ts != [] {
      assert ts[0].finished || ts[0].key != k;
      assert forall i :: 0 <= i < |ts[1..]| ==> ts[1..][i] == ts[i + 1];
      NothingOpen(ts[1..], k, g);
    }
  }

  /** With exact gauges, something is open on a key exactly when it shows as waiting or generating. */
  lemma OpenIsShown(w: World, k: Key)
    requires Exact(w)
    ensures OpenOn(w.trackers, k)
            <==> k in w.keys && (w.keys[k].waiting != 0 || w.keys[k].generating != 0 || w.keys[k].inflight != 0)
  {
    hide Sum, OpenOn, Weight;
    assert Shown(w.keys, k, Waiting) == Sum(w.trackers, k, Waiting);
    assert Shown(w.keys, k, Generating) == Sum(w.trackers, k, Generating);
    assert Shown(w.keys, k, Inflight) == Sum(w.trackers, k, Inflight);
    if OpenOn(w.trackers, k) {
      OpenCounts(w, k);
    } else {
      NothingOpen(w.trackers, k, Waiting);
      NothingOpen(w.trackers, k, Generating);
      NothingOpen(w.trackers, k, Inflight);
    }
  }

  lemma OpenCounts(w: World, k: Key)
    requires OpenOn(w.trackers, k)
    ensures Sum(w.trackers, k, Waiting) > 0 || Sum(w.trackers, k, Generating) > 0
  {
    var i :| 0 <= i < |w.trackers| && !w.trackers[i].finished && w.trackers[i].key == k;
    SumAtLeast(w.trackers, i, k, Waiting);
    SumAtLeast(w.trackers, i, k, Generating);
    hide Sum;
  }

  /** A key that shows anything or has requests in its window is not idle. */
  lemma ShowsIs(keys: Keys, log: seq<Entry>, now: real, k: Key)
    requires Recorded(keys, log, now)
    ensures Shows(keys, k, now)
            <==> k in keys && (WindowOf(keys, k, now, WINDOW_S).requests != 0 || keys[k].waiting != 0
                               || keys[k].generating != 0 || keys[k].inflight != 0)
  {
    hide Recorded, Window;
    EvictionInvisible(keys, log, now, k, WINDOW_S);
  }

  /**
    After any run that keeps the gauges exact, a snapshot has a row for a key if and only if the
    log counts a request for it in the last minute or a request is open on it. Errors and tokens of
    the last minute do not matter.
   */
  lemma SnapshotLists(run: seq<Event>, from: real, now: real, k: Key)
    requires CanRun(EMPTY_WORLD, run, true) && Timed(run, from) && EndOf(run, from) <= now
    requires AllGuarded(EMPTY_WORLD, run)
    ensures var w := After(EMPTY_WORLD, run, true);
            Shows(w.keys, k, now)
            <==> LogWindow(LogOf(EMPTY_WORLD, run), k, Sec(now) - WINDOW_S, Sec(now)).requests != 0
                 || OpenOn(w.trackers, k)
  {
    hide *;
    var w, log := After(EMPTY_WORLD, run, true), LogOf(EMPTY_WORLD, run);
    NothingYet();
    EmptyRecorded(from);
    GaugesExact(EMPTY_WORLD, run);
    EndsExact(EMPTY_WORLD, run);
    RunRecorded(EMPTY_WORLD, run, [], from);
    assert [] + log == log;
    TimePasses(w.keys, log, EndOf(run, from), now);
    RecordedWindow(w.keys, log, now, k, 60);
    ShowsIs(w.keys, log, now, k);
    OpenIsShown(w, k);
    WindowOfNone(w.keys, k, now);
  }

  lemma NothingYet()
    ensures Exact(EMPTY_WORLD) && EMPTY_WORLD.keys == map[] && WINDOW_S == 60
  {
  }

  lemma WindowOfNone(keys: Keys, k: Key, now: real)
    ensures k !in keys ==> WindowOf(keys, k, now, 60).requests == 0
  {
  }

  // ------------------------------------------------------------------ a failure that is not shown

  /** A request that fails more than a minute after its dispatch, and is the key's only one. */
  function LateFailure(a: Key): seq<Event> { [Event(Start(a), 0.0), Event(Done(0, true, 0), 61.0)] }

  /** Its error is counted in the last minute, its key is still there, and the snapshot has no row for it. */
  lemma LateFailureNotShown(a: Key)
    ensures CanRun(EMPTY_WORLD, LateFailure(a), true)
    ensures var w := After(EMPTY_WORLD, LateFailure(a), true);
            && a in EvictIdle(w.keys, 61.0) && WindowOf(w.keys, a, 61.0, WINDOW_S) == Counts(0, 1, 0)
            && !Shows(w.keys, a, 61.0)
  {
    hide *;
    var run := LateFailure(a);
    SecondsOf();
    StartedAndFailed(a);
    TwoStepRun(a);
    SnapshotLists(run, 0.0, 61.0, a);
    RingRefinesLog(run, 0.0, 61.0, a, 60);
    TwoEntries(a, LogOf(EMPTY_WORLD, run));
  }

  lemma SecondsOf()
    ensures Sec(61.0) == 61 && WINDOW_S == 60 && EMPTY_WORLD == World(map[], [])
  {
  }

  /** What the two steps do and log. */
  lemma StartedAndFailed(a: Key)
    ensures Possible(EMPTY_WORLD, Start(a)) && Entries(EMPTY_WORLD, Start(a), 0.0) == [Entry(a, 0, Counts(1, 0, 0))]
    ensures var w1, s2 := Apply(EMPTY_WORLD, Start(a), 0.0, true), Done(0, true, 0);
            && Possible(w1, s2) && Entries(w1, s2, 61.0) == [Entry(a, 61, Counts(0, 1, 0))]
            && Guard(EMPTY_WORLD, Start(a)) && Guard(w1, s2)
            && var w2 := Apply(w1, s2, 61.0, true);
               a in EvictIdle(w2.keys, 61.0) && !OpenOn(w2.trackers, a)
  {
    EmptyDispatch(a);
    EmptyResolve(a);
    FirstRing(a);
    SecondsOf();
    hide Dispatch, Resolve, AddTo, Sec;
    var w1 := Apply(EMPTY_WORLD, Start(a), 0.0, true);
    assert w1.trackers == [Tracker(a, 0.0, None, false, 0)];
    FinishedInPlace(w1.keys, a, 61.0);
    hide Finish, EvictIdle, FinishCounts;
    FailedCounts();
  }

  lemma FailedCounts()
    ensures FinishCounts(true, 0) == Counts(0, 1, 0)
  {
  }

  /** A finish on a known key leaves it in use. */
  lemma FinishedInPlace(keys: Keys, a: Key, now: real)
    requires a in keys && Whole(keys)
    ensures a in EvictIdle(Finish(keys, a, false, FinishCounts(true, 0), now, true), now) && Target(keys, a, now) == a
  {
    EnterWhole(keys, a, now);
    hide AddTo, Sec, FinishCounts;
    var after := Finish(keys, a, false, FinishCounts(true, 0), now, true);
    assert a in after && after[a].lastActive == now;
    hide Finish, Enter;
    assert !Idle(after[a], now);
  }

  lemma TwoStepRun(a: Key)
    requires Possible(EMPTY_WORLD, Start(a)) && Guard(EMPTY_WORLD, Start(a))
    requires var w1 := Apply(EMPTY_WORLD, Start(a), 0.0, true);
             Possible(w1, Done(0, true, 0)) && Guard(w1, Done(0, true, 0))
    ensures var run, w1, s2 := LateFailure(a), Apply(EMPTY_WORLD, Start(a), 0.0, true), Done(0, true, 0);
            && CanRun(EMPTY_WORLD, run, true) && Timed(run, 0.0) && EndOf(run, 0.0) == 61.0
            && AllGuarded(EMPTY_WORLD, run)
            && After(EMPTY_WORLD, run, true) == Apply(w1, s2, 61.0, true)
            && LogOf(EMPTY_WORLD, run) == Entries(EMPTY_WORLD, Start(a), 0.0) + Entries(w1, s2, 61.0)
  {
    hide Apply, Possible, Entries, Guard;
    var w1, s2 := Apply(EMPTY_WORLD, Start(a), 0.0, true), Done(0, true, 0);
    var w2, rest := Apply(w1, s2, 61.0, true), [Event(s2, 61.0)];
    var run := LateFailure(a);
    assert run[1..] == rest && rest[1..] == [];
    assert CanRun(w2, [], true) && AllGuarded(w2, []);
    assert CanRun(w1, rest, true) && Timed(rest, 0.0) && AllGuarded(w1, rest);
    assert After(w1, rest, true) == After(w2, [], true) == w2;
    assert After(EMPTY_WORLD, run, true) == After(w1, rest, true);
    var es := Entries(w1, s2, 61.0);
    assert LogOf(w1, rest) == es + [] == es;
    assert LogOf(EMPTY_WORLD, run) == Entries(EMPTY_WORLD, Start(a), 0.0) + LogOf(w1, rest);
  }

  lemma TwoEntries(a: Key, log: seq<Entry>)
    requires log == [Entry(a, 0, Counts(1, 0, 0))] + [Entry(a, 61, Counts(0, 1, 0))]
    ensures LogWindow(log, a, 1, 61) == Counts(0, 1, 0)
  {
    var e1, e2 := Entry(a, 0, Counts(1, 0, 0)), Entry(a, 61, Counts(0, 1, 0));
    var none: seq<Entry> := [];
    hide LogWindow, Plus;
    assert none + [e1] == [e1] && log == [e1] + [e2];
    NothingLogged(a, 1, 61);
    LogWindowGrows(none, e1, a, 1, 61);
    LogWindowGrows([e1], e2, a, 1, 61);
    PlusLaws(ZERO, ZERO, ZERO);
    PlusLaws(Counts(0, 1, 0), ZERO, ZERO);
  }
}
