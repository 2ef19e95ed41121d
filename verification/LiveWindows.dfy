/** What the windows, the points and the snapshot rows show, told by the events of the run and the open requests. */
module LiveWindows {
  import opened Wrappers
  import opened LiveStore
  import opened LiveGauges
  import opened LiveRing
  import opened OpenGauges
  import StatsStore

  // ------------------------------------------------------------------ events

  /** The event is the first end of a request that is accounted under `k`, in a second of `lo < s <= hi`. */
  predicate EndsOn(w: World, e: Event, k: Key, lo: int, hi: int)
    requires e.step.Done? ==> e.step.i < |w.trackers|
  {
    && e.step.Done? && !w.trackers[e.step.i].finished && w.trackers[e.step.i].key == k && lo < Sec(e.now) <= hi
  }

  /** It is a failure. */
  ghost function ErrorOf(w: World, e: Event, k: Key, lo: int, hi: int): nat
    requires Possible(w, e.step)
  {
    if EndsOn(w, e, k, lo, hi) && e.step.failed then 1 else 0
  }

  /** The tokens it reports, none for a negative number. */
  ghost function TokensOf(w: World, e: Event, k: Key, lo: int, hi: int): nat
    requires Possible(w, e.step)
  {
    if EndsOn(w, e, k, lo, hi) && e.step.tokens > 0 then e.step.tokens else 0
  }

  /** A request comes under `k`: it is dispatched, or moved there. */
  predicate ComesTo(w: World, e: Event, k: Key)
    requires e.step.Move? ==> e.step.i < |w.trackers|
  {
    (e.step.Start? || (e.step.Move? && Moves(w.keys, w.trackers[e.step.i], e.step.key)))
    && Resolve(w.keys, e.step.key) == k
  }

  /** A request is moved away from `k`, whose bucket of that second holds a request to give up. */
  ghost predicate LeavesFrom(w: World, e: Event, k: Key)
    requires Possible(w, e.step)
  {
    && e.step.Move? && Moves(w.keys, w.trackers[e.step.i], e.step.key) && w.trackers[e.step.i].key == k
    && k in w.keys && AtSecond(w.keys[k].ring, Sec(e.now)).requests > 0
  }

  ghost function RequestOf(w: World, e: Event, k: Key, lo: int, hi: int): int
    requires Possible(w, e.step)
  {
    if !(lo < Sec(e.now) <= hi) then 0
    else (if ComesTo(w, e, k) then 1 else 0) - (if LeavesFrom(w, e, k) then 1 else 0)
  }

  /** All of these in a run. */
  ghost function Errors(w: World, run: seq<Event>, k: Key, lo: int, hi: int): nat
    requires CanRun(w, run, true)
    decreases |run|
  {
    if run == [] then 0
    else ErrorOf(w, run[0], k, lo, hi) + Errors(Apply(w, run[0].step, run[0].now, true), run[1..], k, lo, hi)
  }

  ghost function TokensOut(w: World, run: seq<Event>, k: Key, lo: int, hi: int): nat
    requires CanRun(w, run, true)
    decreases |run|
  {
    if run == [] then 0
    else TokensOf(w, run[0], k, lo, hi) + TokensOut(Apply(w, run[0].step, run[0].now, true), run[1..], k, lo, hi)
  }

  ghost function Requested(w: World, run: seq<Event>, k: Key, lo: int, hi: int): int
    requires CanRun(w, run, true)
    decreases |run|
  {
    if run == [] then 0
    else RequestOf(w, run[0], k, lo, hi) + Requested(Apply(w, run[0].step, run[0].now, true), run[1..], k, lo, hi)
  }

  // ------------------------------------------------------------------ no negative counts

  ghost predicate NoNegatives(keys: Keys) {
    forall k, i :: k in keys && 0 <= i < |keys[k].ring| ==> keys[k].ring[i].n.requests >= 0
  }

  lemma EnterNoNegatives(keys: Keys, key: Key, now: real)
    requires NoNegatives(keys)
    ensures NoNegatives(Enter(keys, key, now)) && NoNegatives(EvictIdle(keys, now))
  {
  }

  lemma PutNoNegatives(keys: Keys, k: Key, st: KeyState)
    requires NoNegatives(keys) && forall i :: 0 <= i < |st.ring| ==> st.ring[i].n.requests >= 0
    ensures NoNegatives(keys[k := st])
  {
  }

  lemma AddNoNegatives(ring: seq<Bucket>, sec: int, d: Counts)
    requires |ring| == WINDOW_S && forall i :: 0 <= i < |ring| ==> ring[i].n.requests >= 0
    requires Current(ring, sec).n.requests + d.requests >= 0
    ensures forall i :: 0 <= i < |ring| ==> AddTo(ring, sec, d)[i].n.requests >= 0
  {
  }

  /** A request given up leaves the count at zero or more. */
  lemma WithdrawnIs(ring: seq<Bucket>, sec: int)
    requires |ring| == WINDOW_S && forall i :: 0 <= i < |ring| ==> ring[i].n.requests >= 0
    ensures Withdrawn(ring, sec) == Counts(if AtSecond(ring, sec).requests > 0 then -1 else 0, 0, 0)
    ensures Current(ring, sec).n.requests >= 0
    ensures Current(ring, sec).n.requests + Withdrawn(ring, sec).requests >= 0
  {
  }

  lemma WritesNoNegatives(keys: Keys, key: Key, wasGenerating: bool, d: Counts, delta: int, now: real)
    requires Whole(keys) && NoNegatives(keys) && d.requests == 0
    ensures NoNegatives(Dispatch(keys, key, now)) && NoNegatives(Withdraw(keys, key, now, true))
    ensures NoNegatives(FirstToken(keys, key, now, true)) && NoNegatives(AddInflight(keys, key, delta, now, true))
    ensures NoNegatives(Finish(keys, key, wasGenerating, d, now, true))
  {
    EnterNoNegatives(keys, key, now);
    EnterWhole(keys, key, now);
    var k, entered := Target(keys, key, now), Enter(keys, key, now);
    var ring, sec := entered[k].ring, Sec(now);
    assert forall i :: 0 <= i < |ring| ==> ring[i].n.requests >= 0;
    WithdrawnIs(ring, sec);
    AddNoNegatives(ring, sec, Counts(1, 0, 0));
    AddNoNegatives(ring, sec, Withdrawn(ring, sec));
    AddNoNegatives(ring, sec, d);
    hide NoNegatives, Enter, Target, AddTo, Sec, Withdrawn, Current, AtSecond;
    PutNoNegatives(entered, k, Dispatch(keys, key, now)[k]);
    PutNoNegatives(entered, k, Withdraw(keys, key, now, true)[k]);
    PutNoNegatives(entered, k, FirstToken(keys, key, now, true)[k]);
    PutNoNegatives(entered, k, AddInflight(keys, key, delta, now, true)[k]);
    PutNoNegatives(entered, k, Finish(keys, key, wasGenerating, d, now, true)[k]);
  }

  lemma StepNoNegatives(w: World, s: Step, now: real)
    requires Possible(w, s) && NoNegatives(w.keys)
    ensures NoNegatives(Apply(w, s, now, true).keys)
  {
    hide NoNegatives, Whole, Dispatch, Withdraw, FirstToken, Finish, AddInflight, Resolve;
    NothingCounted();
    match s
    case Start(key) => WritesNoNegatives(w.keys, Resolve(w.keys, key), true, ZERO, 0, now);
    case Move(i, key) =>
      var t := w.trackers[i];
      WritesWhole(w.keys, t.key, now, true);
      WritesNoNegatives(w.keys, t.key, true, ZERO, 0, now);
      WritesNoNegatives(Withdraw(w.keys, t.key, now, true), Resolve(w.keys, key), true, ZERO, 0, now);
    case First(i) => WritesNoNegatives(w.keys, w.trackers[i].key, true, ZERO, 0, now);
    case Bytes(i, total) =>
      WritesNoNegatives(w.keys, w.trackers[i].key, true, ZERO, total - w.trackers[i].inflight, now);
    case Done(i, failed, tokens) =>
      var t, d := w.trackers[i], FinishCounts(failed, tokens);
      FinishWhole(w.keys, t.key, t.firstToken.Some?, d, now, true);
      WritesNoNegatives(w.keys, t.key, t.firstToken.Some?, d, 0, now);
      var closed := Finish(w.keys, t.key, t.firstToken.Some?, d, now, true);
      WritesNoNegatives(closed, t.key, true, ZERO, 0 - t.inflight, now);
    case Snapshot => EnterNoNegatives(w.keys, Key("", "", ""), now);
  }

  lemma NothingCounted()
    ensures ZERO.requests == 0
  {
  }

  // ------------------------------------------------------------------ what an event logs

  lemma {:induction false} LogWindowAppend(a: seq<Entry>, b: seq<Entry>, k: Key, lo: int, hi: int)
    ensures LogWindow(a + b, k, lo, hi) == Plus(LogWindow(a, k, lo, hi), LogWindow(b, k, lo, hi))
    decreases |b|
  {
    hide *;
    if b == [] {
      assert a + b == a;
      NothingLogged(k, lo, hi);
      PlusLaws(LogWindow(a, k, lo, hi), ZERO, ZERO);
    } else {
      var init, e := b[..|b| - 1], b[|b| - 1];
      assert a + b == (a + init) + [e] && b == init + [e];
      LogWindowAppend(a, init, k, lo, hi);
      LogWindowGrows(a + init, e, k, lo, hi);
      LogWindowGrows(init, e, k, lo, hi);
      PlusLaws(LogWindow(a, k, lo, hi), LogWindow(init, k, lo, hi),
               if e.key == k && lo < e.sec <= hi then e.d else ZERO);
    }
  }

  /** The windows of short logs. */
  lemma FewLogged(e1: Entry, e2: Entry, k: Key, lo: int, hi: int)
    ensures LogWindow([e1], k, lo, hi) == LiveRing.Share(e1, k, lo, hi)
    ensures LogWindow([e1, e2], k, lo, hi) == Plus(LiveRing.Share(e1, k, lo, hi), LiveRing.Share(e2, k, lo, hi))
  {
    hide LogWindow, Plus;
    var none: seq<Entry> := [];
    assert none + [e1] == [e1] && [e1] + [e2] == [e1, e2];
    NothingLogged(k, lo, hi);
    LogWindowGrows(none, e1, k, lo, hi);
    LogWindowGrows([e1], e2, k, lo, hi);
    PlusLaws(LiveRing.Share(e1, k, lo, hi), ZERO, ZERO);
  }

  /** A move of a request whose key is in the table logs at its key and at the resolved one. */
  lemma MoveLogs(w: World, i: nat, key: Key, now: real)
    requires Possible(w, Move(i, key)) && Moves(w.keys, w.trackers[i], key) && w.trackers[i].key in w.keys
    ensures var left := w.trackers[i].key;
            Entries(w, Move(i, key), now)
            == [Entry(left, Sec(now), Withdrawn(w.keys[left].ring, Sec(now))),
                Entry(Resolve(w.keys, key), Sec(now), Counts(1, 0, 0))]
  {
    var t := w.trackers[i];
    EnterWhole(w.keys, t.key, now);
    hide AddTo, Sec, Withdrawn, Resolve;
    var mid := Withdraw(w.keys, t.key, now, true);
    assert mid.Keys == w.keys.Keys;
    ResolveStable(w.keys, mid, key, now);
    hide Withdraw, Target;
  }

  /** What an event adds to a window of the log. */
  function Adds(inside: bool, come: bool, leave: bool, failed: bool, tokens: int): Counts {
    if !inside then ZERO
    else Counts((if come then 1 else 0) - (if leave then 1 else 0), if failed then 1 else 0,
                if tokens > 0 then tokens else 0)
  }

  lemma StartLogs(w: World, e: Event, k: Key, lo: int, hi: int)
    requires Possible(w, e.step) && e.step.Start?
    ensures LogWindow(Entries(w, e.step, e.now), k, lo, hi)
            == Adds(lo < Sec(e.now) <= hi, ComesTo(w, e, k), false, false, 0)
  {
    hide *;
    StartEntries(w, e);
    var entry := Entry(Resolve(w.keys, e.step.key), Sec(e.now), Counts(1, 0, 0));
    FewLogged(entry, entry, k, lo, hi);
    ComesIs(w, e, k);
    ShareAdds(entry, k, lo, hi, ComesTo(w, e, k));
  }

  lemma StartEntries(w: World, e: Event)
    requires Possible(w, e.step) && e.step.Start?
    ensures Entries(w, e.step, e.now) == [Entry(Resolve(w.keys, e.step.key), Sec(e.now), Counts(1, 0, 0))]
  {
    ResolveStable(w.keys, w.keys, e.step.key, e.now);
    hide Resolve, Target, Sec;
  }

  lemma ComesIs(w: World, e: Event, k: Key)
    requires Possible(w, e.step) && (e.step.Start? || (e.step.Move? && Moves(w.keys, w.trackers[e.step.i], e.step.key)))
    ensures ComesTo(w, e, k) <==> Resolve(w.keys, e.step.key) == k
  {
    hide Resolve, Moves, Whole;
  }

  lemma ShareAdds(entry: Entry, k: Key, lo: int, hi: int, come: bool)
    requires entry.d == Counts(1, 0, 0) && (come <==> entry.key == k)
    ensures LiveRing.Share(entry, k, lo, hi) == Adds(lo < entry.sec <= hi, come, false, false, 0)
  {
  }

  lemma ShareTakes(entry: Entry, k: Key, lo: int, hi: int, leave: bool, held: bool)
    requires entry.d == Counts(if held then -1 else 0, 0, 0) && (leave <==> entry.key == k && held)
    ensures LiveRing.Share(entry, k, lo, hi) == Adds(lo < entry.sec <= hi, false, leave, false, 0)
  {
  }

  lemma MovedLogs(w: World, e: Event, k: Key, lo: int, hi: int)
    requires Possible(w, e.step) && e.step.Move? && Counted(w) && NoNegatives(w.keys)
    ensures LogWindow(Entries(w, e.step, e.now), k, lo, hi)
            == Adds(lo < Sec(e.now) <= hi, ComesTo(w, e, k), LeavesFrom(w, e, k), false, 0)
  {
    hide *;
    StepInRange(w, e.step);
    if Moves(w.keys, w.trackers[e.step.i], e.step.key) {
      var left, taken, sec := w.trackers[e.step.i].key, Resolve(w.keys, e.step.key), Sec(e.now);
      MovesAreOpen(w.keys, w.trackers[e.step.i], e.step.key);
      OpenIsThere(w, e.step.i);
      MoveLogs(w, e.step.i, e.step.key, e.now);
      RingIsWhole(w.keys, left, sec);
      var e1, e2 := Entry(left, sec, Withdrawn(w.keys[left].ring, sec)), Entry(taken, sec, Counts(1, 0, 0));
      FewLogged(e1, e2, k, lo, hi);
      ComesIs(w, e, k);
      LeavesIs(w, e, k);
      ShareAdds(e2, k, lo, hi, ComesTo(w, e, k));
      ShareTakes(e1, k, lo, hi, LeavesFrom(w, e, k), AtSecond(w.keys[left].ring, sec).requests > 0);
      BothAdd(lo < sec <= hi, ComesTo(w, e, k), LeavesFrom(w, e, k));
    } else {
      NothingLogged(k, lo, hi);
      NotMoved(w, e, k, lo, hi);
    }
  }

  lemma MovesAreOpen(keys: Keys, t: Tracker, key: Key)
    requires Moves(keys, t, key)
    ensures !t.finished
  {
  }

  lemma RingIsWhole(keys: Keys, k: Key, sec: int)
    requires Whole(keys) && NoNegatives(keys) && k in keys
    ensures |keys[k].ring| == WINDOW_S
    ensures Withdrawn(keys[k].ring, sec) == Counts(if AtSecond(keys[k].ring, sec).requests > 0 then -1 else 0, 0, 0)
  {
    assert forall i :: 0 <= i < |keys[k].ring| ==> keys[k].ring[i].n.requests >= 0;
    WithdrawnIs(keys[k].ring, sec);
    hide Withdrawn, AtSecond;
  }

  lemma LeavesIs(w: World, e: Event, k: Key)
    requires Possible(w, e.step) && e.step.Move? && Moves(w.keys, w.trackers[e.step.i], e.step.key)
    requires w.trackers[e.step.i].key in w.keys && |w.keys[w.trackers[e.step.i].key].ring| == WINDOW_S
    ensures var left := w.trackers[e.step.i].key;
            LeavesFrom(w, e, k) <==> left == k && AtSecond(w.keys[left].ring, Sec(e.now)).requests > 0
  {
    hide Moves, Sec, AtSecond, Whole;
  }

  lemma BothAdd(inside: bool, come: bool, leave: bool)
    ensures Plus(Adds(inside, false, leave, false, 0), Adds(inside, come, false, false, 0))
            == Adds(inside, come, leave, false, 0)
  {
  }

  lemma NotMoved(w: World, e: Event, k: Key, lo: int, hi: int)
    requires Possible(w, e.step) && e.step.Move? && !Moves(w.keys, w.trackers[e.step.i], e.step.key)
    ensures Entries(w, e.step, e.now) == [] && !ComesTo(w, e, k) && !LeavesFrom(w, e, k)
    ensures Adds(lo < Sec(e.now) <= hi, false, false, false, 0) == ZERO
  {
    hide Moves, Resolve, Whole, Sec;
  }

  lemma DoneLogs(w: World, e: Event, k: Key, lo: int, hi: int)
    requires Possible(w, e.step) && e.step.Done? && Counted(w)
    ensures LogWindow(Entries(w, e.step, e.now), k, lo, hi)
            == if EndsOn(w, e, k, lo, hi) then Adds(true, false, false, e.step.failed, e.step.tokens) else ZERO
  {
    hide *;
    StepInRange(w, e.step);
    EndsIs(w, e, k, lo, hi);
    if w.trackers[e.step.i].finished {
      NothingLogged(k, lo, hi);
      NotEnded(w, e);
    } else {
      OpenIsThere(w, e.step.i);
      EndLogs(w, e);
      var entry := Entry(w.trackers[e.step.i].key, Sec(e.now), FinishCounts(e.step.failed, e.step.tokens));
      FewLogged(entry, entry, k, lo, hi);
      ShareEnds(entry, e.step.failed, e.step.tokens, k, lo, hi);
    }
  }

  lemma EndsIs(w: World, e: Event, k: Key, lo: int, hi: int)
    requires e.step.Done? && e.step.i < |w.trackers|
    ensures EndsOn(w, e, k, lo, hi)
            <==> !w.trackers[e.step.i].finished && w.trackers[e.step.i].key == k && lo < Sec(e.now) <= hi
  {
    hide Sec;
  }

  lemma NotEnded(w: World, e: Event)
    requires Possible(w, e.step) && e.step.Done? && w.trackers[e.step.i].finished
    ensures Entries(w, e.step, e.now) == []
  {
    hide Whole;
  }

  lemma EndLogs(w: World, e: Event)
    requires Possible(w, e.step) && e.step.Done? && !w.trackers[e.step.i].finished
    requires w.trackers[e.step.i].key in w.keys
    ensures Entries(w, e.step, e.now)
            == [Entry(w.trackers[e.step.i].key, Sec(e.now), FinishCounts(e.step.failed, e.step.tokens))]
  {
    hide Whole, Sec, FinishCounts;
  }

  lemma ShareEnds(entry: Entry, failed: bool, tokens: int, k: Key, lo: int, hi: int)
    requires entry.d == FinishCounts(failed, tokens)
    ensures LiveRing.Share(entry, k, lo, hi)
            == if entry.key == k && lo < entry.sec <= hi then Adds(true, false, false, failed, tokens) else ZERO
  {
  }

  lemma EventLogs(w: World, e: Event, k: Key, lo: int, hi: int)
    requires Possible(w, e.step) && Counted(w) && NoNegatives(w.keys)
    ensures LogWindow(Entries(w, e.step, e.now), k, lo, hi)
            == Counts(RequestOf(w, e, k, lo, hi), ErrorOf(w, e, k, lo, hi), TokensOf(w, e, k, lo, hi))
  {
    hide Counted, NoNegatives, Sec, Whole, Moves, Resolve, LogWindow;
    match e.step
    case Start(_) => StartLogs(w, e, k, lo, hi);
    case Move(_, _) => MovedLogs(w, e, k, lo, hi);
    case Done(_, _, _) => DoneLogs(w, e, k, lo, hi);
    case _ => NothingLogged(k, lo, hi);
  }

  lemma CountsUnfold(w: World, run: seq<Event>, k: Key, lo: int, hi: int)
    requires CanRun(w, run, true) && run != []
    ensures Possible(w, run[0].step)
    ensures var e := run[0];
            var w' := Apply(w, e.step, e.now, true);
            && CanRun(w', run[1..], true) && LogOf(w, run) == Entries(w, e.step, e.now) + LogOf(w', run[1..])
            && Errors(w, run, k, lo, hi) == ErrorOf(w, e, k, lo, hi) + Errors(w', run[1..], k, lo, hi)
            && TokensOut(w, run, k, lo, hi) == TokensOf(w, e, k, lo, hi) + TokensOut(w', run[1..], k, lo, hi)
            && Requested(w, run, k, lo, hi) == RequestOf(w, e, k, lo, hi) + Requested(w', run[1..], k, lo, hi)
  {
    hide Apply, Entries, ErrorOf, TokensOf, RequestOf;
  }

  /** The windows of the log of a run are its events. */
  lemma {:induction false} RunLogs(w: World, run: seq<Event>, k: Key, lo: int, hi: int)
    requires CanRun(w, run, true) && Counted(w) && NoNegatives(w.keys)
    ensures LogWindow(LogOf(w, run), k, lo, hi)
            == Counts(Requested(w, run, k, lo, hi), Errors(w, run, k, lo, hi), TokensOut(w, run, k, lo, hi))
    decreases |run|
  {
    hide *;
    if run == [] {
      NothingLogged(k, lo, hi);
      NothingHappens(w, k, lo, hi);
    } else {
      var e := run[0];
      CountsUnfold(w, run, k, lo, hi);
      var w' := Apply(w, e.step, e.now, true);
      StepCounted(w, e.step, e.now);
      StepNoNegatives(w, e.step, e.now);
      EventLogs(w, e, k, lo, hi);
      RunLogs(w', run[1..], k, lo, hi);
      LogWindowAppend(Entries(w, e.step, e.now), LogOf(w', run[1..]), k, lo, hi);
      AddUp(RequestOf(w, e, k, lo, hi), ErrorOf(w, e, k, lo, hi), TokensOf(w, e, k, lo, hi),
            Requested(w', run[1..], k, lo, hi), Errors(w', run[1..], k, lo, hi), TokensOut(w', run[1..], k, lo, hi));
    }
  }

  lemma NothingHappens(w: World, k: Key, lo: int, hi: int)
    ensures CanRun(w, [], true) && LogOf(w, []) == [] && Requested(w, [], k, lo, hi) == 0
    ensures Errors(w, [], k, lo, hi) == 0 && TokensOut(w, [], k, lo, hi) == 0 && ZERO == Counts(0, 0, 0)
  {
  }

  lemma AddUp(a: int, b: int, c: int, d: int, e: int, f: int)
    ensures Plus(Counts(a, b, c), Counts(d, e, f)) == Counts(a + d, b + e, c + f)
  {
  }

  // ------------------------------------------------------------------ windows, points and rows

  /** What the events of a run make of a window. */
  ghost function Happened(run: seq<Event>, k: Key, lo: int, hi: int): Counts
    requires CanRun(World(map[], []), run, true)
  {
    var w := World(map[], []);
    Counts(Requested(w, run, k, lo, hi), Errors(w, run, k, lo, hi), TokensOut(w, run, k, lo, hi))
  }

  lemma EmptyIsCounted()
    ensures Counted(World(map[], [])) && NoNegatives(World(map[], []).keys)
  {
  }

  /**
    After any run from an empty store, a window of at most 60 s counts as errors the failed ends of the
    requests of its key, the first of each, as tokens what these ends report, and as requests those
    that came to the key less those that left it with a request in its current bucket.
   */
  lemma WindowsCountEvents(run: seq<Event>, from: real, now: real, k: Key, span: int)
    requires CanRun(World(map[], []), run, true) && Timed(run, from) && EndOf(run, from) <= now && span <= 60
    ensures WindowOf(After(World(map[], []), run, true).keys, k, now, span)
            == Happened(run, k, Sec(now) - span, Sec(now))
  {
    hide *;
    SixtySeconds();
    EmptyIsCounted();
    RingRefinesLog(run, from, now, k, span);
    RunLogs(World(map[], []), run, k, Sec(now) - span, Sec(now));
    HappenedIs(run, k, Sec(now) - span, Sec(now));
  }

  lemma SixtySeconds()
    ensures WINDOW_S == 60
  {
  }

  lemma HappenedIs(run: seq<Event>, k: Key, lo: int, hi: int)
    requires CanRun(World(map[], []), run, true)
    ensures var w := World(map[], []);
            Happened(run, k, lo, hi)
            == Counts(Requested(w, run, k, lo, hi), Errors(w, run, k, lo, hi), TokensOut(w, run, k, lo, hi))
  {
    hide Requested, Errors, TokensOut;
  }

  // ---- points

  lemma {:induction false} PointAt(ring: seq<Bucket>, lo: int, hi: int, j: nat)
    requires |ring| == WINDOW_S && j < hi - lo
    ensures |Points(ring, lo, hi)| == hi - lo && Points(ring, lo, hi)[j] == AtSecond(ring, lo + 1 + j)
    decreases hi - lo
  {
    hide AtSecond;
    if j < hi - lo - 1 {
      PointAt(ring, lo, hi - 1, j);
    } else if j > 0 {
      PointAt(ring, lo, hi - 1, 0);
    }
  }

  /** A second of the last minute, in the ring of a recorded log. */
  lemma SecondOfLog(keys: Keys, log: seq<Entry>, now: real, k: Key, s: int)
    requires Recorded(keys, log, now) && k in keys && Sec(now) - 60 < s <= Sec(now)
    ensures |keys[k].ring| == WINDOW_S && AtSecond(keys[k].ring, s) == LogWindow(log, k, s - 1, s)
  {
    hide Sec, Orderly, AtSecond, LogWindow;
    assert KeyRecorded(keys, log, k, now);
    OrderlyLength(keys[k].ring, Sec(now));
    LogWindowStep(log, k, s - 1, s);
    LogWindowEmpty(log, k, s - 1, s - 1);
    PlusLaws(Tally(log, k, s), ZERO, ZERO);
    hide Tally;
  }

  /** The j-th of the sixty points of a key's history counts what happened in the j-th of the last sixty seconds. */
  lemma PointsCountEvents(run: seq<Event>, from: real, now: real, k: Key, j: nat)
    requires CanRun(World(map[], []), run, true) && Timed(run, from) && EndOf(run, from) <= now && j < 60
    requires k in After(World(map[], []), run, true).keys
    ensures var ring, s := After(World(map[], []), run, true).keys[k].ring, Sec(now) - 59 + j;
            |ring| == 60 && |Points(ring, Sec(now) - 60, Sec(now))| == 60
            && Points(ring, Sec(now) - 60, Sec(now))[j] == Happened(run, k, s - 1, s)
  {
    hide *;
    var w, s := World(map[], []), Sec(now) - 59 + j;
    var keys, log := After(w, run, true).keys, LogOf(w, run);
    SixtySeconds();
    EmptyIsCounted();
    EmptyRecorded(from);
    RunRecorded(w, run, [], from);
    assert [] + log == log;
    TimePasses(keys, log, EndOf(run, from), now);
    SecondOfLog(keys, log, now, k, s);
    RunLogs(w, run, k, s - 1, s);
    HappenedIs(run, k, s - 1, s);
    PointAt(keys[k].ring, Sec(now) - 60, Sec(now), j);
  }

  // ---- rows

  /**
    After any run from an empty store, the row of a key shows as waiting and generating its open
    requests without and with a first token, and as its figures what happened in the last ten and
    sixty seconds; in a guarded run, as bytes in flight those of its open requests.
   */
  lemma RowsCountEvents(run: seq<Event>, from: real, now: real, k: Key)
    requires CanRun(World(map[], []), run, true) && Timed(run, from) && EndOf(run, from) <= now
    requires k in After(World(map[], []), run, true).keys
    ensures var w := After(World(map[], []), run, true);
            var row := StatsStore.RowOf(w.keys[k], now);
            && row.waiting == OpenCount(w.trackers, k, false) && row.generating == OpenCount(w.trackers, k, true)
            && row.last60 == Happened(run, k, Sec(now) - 60, Sec(now))
            && row.requests10 == Happened(run, k, Sec(now) - 10, Sec(now)).requests
            && (AllGuarded(World(map[], []), run) ==> row.inflight == BytesOn(w.trackers, k))
  {
    hide *;
    WindowsCountEvents(run, from, now, k, 60);
    WindowsCountEvents(run, from, now, k, 10);
    GaugesCountOpen(run, k);
    if AllGuarded(World(map[], []), run) {
      BytesCountOpen(run, k);
    }
    RowIs(After(World(map[], []), run, true).keys, k, now);
  }

  lemma RowIs(keys: Keys, k: Key, now: real)
    requires k in keys
    ensures var row, st := StatsStore.RowOf(keys[k], now), keys[k];
            && row.waiting == st.waiting && row.generating == st.generating && row.inflight == st.inflight
            && row.last60 == WindowOf(keys, k, now, 60) && row.requests10 == WindowOf(keys, k, now, 10).requests
  {
    hide Window;
  }
}
