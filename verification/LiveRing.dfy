/** The 60-slot rings as a fast form of the plain log of everything ever counted. */
module LiveRing {
  import opened Wrappers
  import opened LiveStore
  import opened LiveGauges

  /** One change of a counter: key, second, amount. */
  datatype Entry = Entry(key: Key, sec: int, d: Counts)

  /** What the log counts for a key in one second. */
  function Tally(log: seq<Entry>, k: Key, s: int): Counts {
    if log == [] then ZERO
    else
      var e := log[|log| - 1];
      Plus(Tally(log[..|log| - 1], k, s), if e.key == k && e.sec == s then e.d else ZERO)
  }

  /** What the log counts for a key in the seconds `lo < s <= hi`. */
  function LogWindow(log: seq<Entry>, k: Key, lo: int, hi: int): Counts {
    if log == [] then ZERO
    else
      var e := log[|log| - 1];
      Plus(LogWindow(log[..|log| - 1], k, lo, hi), if e.key == k && lo < e.sec <= hi then e.d else ZERO)
  }

  /** What the ring holds for one second. */
  function AtSecond(ring: seq<Bucket>, s: int): Counts
    requires |ring| == WINDOW_S
  {
    if ring[s % WINDOW_S].sec == s then ring[s % WINDOW_S].n else ZERO
  }

  /** The sum over the buckets whose second falls in `lo < sec <= hi`, from slot `i` on. */
  function WindowFrom(ring: seq<Bucket>, lo: int, hi: int, i: nat): Counts
    decreases |ring| - i
  {
    if i >= |ring| then ZERO
    else Plus(if lo < ring[i].sec <= hi then ring[i].n else ZERO, WindowFrom(ring, lo, hi, i + 1))
  }

  /** The window of the last `span` seconds. */
  function Window(ring: seq<Bucket>, now: real, span: int): Counts {
    WindowFrom(ring, Sec(now) - span, Sec(now), 0)
  }

  /** The same for a key of the table; a key without a state counts nothing. */
  function WindowOf(keys: Keys, k: Key, now: real, span: int): Counts {
    if k in keys then Window(keys[k].ring, now, span) else ZERO
  }

  lemma PlusLaws(a: Counts, b: Counts, c: Counts)
    ensures Plus(Plus(a, b), c) == Plus(a, Plus(b, c)) && Plus(a, b) == Plus(b, a)
            && Plus(a, ZERO) == a == Plus(ZERO, a)
  {
  }

  // ------------------------------------------------------------------ seconds

  lemma SecMonotone(a: real, b: real)
    requires a <= b
    ensures Sec(a) <= Sec(b)
  {
  }

  /** More than 120 s later is more than 60 whole seconds later. */
  lemma LongIdle(a: real, b: real)
    requires b - a > IDLE_EVICT_S
    ensures Sec(a) <= Sec(b) - WINDOW_S
  {
  }

  // ------------------------------------------------------------------ the refinement

  /** No bucket stands in the wrong slot or in the future with anything in it. */
  ghost predicate Orderly(ring: seq<Bucket>, cur: int) {
    |ring| == WINDOW_S &&
    forall i :: 0 <= i < |ring| ==>
      ring[i].n == ZERO || (ring[i].sec % WINDOW_S == i && ring[i].sec <= cur)
  }

  /** The ring holds the last minute of the log, and the log nothing younger than the key's last use. */
  ghost predicate Holds(st: KeyState, log: seq<Entry>, k: Key, now: real) {
    && Orderly(st.ring, Sec(now)) && st.lastActive <= now
    && (forall s {:trigger Tally(log, k, s)} ::
          Sec(now) - WINDOW_S < s <= Sec(now) ==> AtSecond(st.ring, s) == Tally(log, k, s))
    && (forall s {:trigger Tally(log, k, s)} :: Sec(st.lastActive) < s ==> Tally(log, k, s) == ZERO)
  }

  /** For a key without a state, the log has nothing in the last minute. */
  ghost predicate Quiet(log: seq<Entry>, k: Key, now: real) {
    forall s {:trigger Tally(log, k, s)} :: Sec(now) - WINDOW_S < s ==> Tally(log, k, s) == ZERO
  }

  ghost predicate KeyRecorded(keys: Keys, log: seq<Entry>, k: Key, now: real) {
    if k in keys then Holds(keys[k], log, k, now) else Quiet(log, k, now)
  }

  /** The table refines the log. */
  ghost predicate Recorded(keys: Keys, log: seq<Entry>, now: real) {
    forall k :: KeyRecorded(keys, log, k, now)
  }

  lemma TimePasses(keys: Keys, log: seq<Entry>, now: real, later: real)
    requires Recorded(keys, log, now) && now <= later
    ensures Recorded(keys, log, later)
  {
    SecMonotone(now, later);
    forall k ensures KeyRecorded(keys, log, k, later) {
      assert KeyRecorded(keys, log, k, now);
      if k in keys {
        SecMonotone(keys[k].lastActive, now);
      }
    }
  }

  /** Eviction of idle keys loses nothing of the last minute. */
  lemma EvictRecorded(keys: Keys, log: seq<Entry>, now: real)
    requires Recorded(keys, log, now)
    ensures Recorded(EvictIdle(keys, now), log, now)
  {
    forall k ensures KeyRecorded(EvictIdle(keys, now), log, k, now) {
      assert KeyRecorded(keys, log, k, now);
      if k in keys && Idle(keys[k], now) {
        LongIdle(keys[k].lastActive, now);
      }
    }
  }

  lemma TouchHolds(st: KeyState, log: seq<Entry>, k: Key, now: real)
    requires Holds(st, log, k, now)
    ensures Holds(st.(lastActive := now), log, k, now)
  {
    SecMonotone(st.lastActive, now);
  }

  lemma FreshHolds(log: seq<Entry>, k: Key, now: real)
    requires Quiet(log, k, now)
    ensures Holds(Fresh(now), log, k, now)
  {
  }

  lemma EnterRecorded(keys: Keys, key: Key, log: seq<Entry>, now: real)
    requires Recorded(keys, log, now)
    ensures Recorded(Enter(keys, key, now), log, now)
    ensures Enter(keys, key, now)[Target(keys, key, now)].lastActive == now
  {
    EvictRecorded(keys, log, now);
    var before := if key in keys then keys else EvictIdle(keys, now);
    var r := Target(keys, key, now);
    hide EvictIdle, Holds, Quiet, Resolve;
    forall k ensures KeyRecorded(Enter(keys, key, now), log, k, now) {
      assert KeyRecorded(before, log, k, now);
      if k == r {
        if k in before { TouchHolds(before[k], log, k, now); } else { FreshHolds(log, k, now); }
      }
    }
  }

  /** Adding to the current second's bucket is appending to the log. */
  lemma AddHolds(st: KeyState, log: seq<Entry>, k: Key, now: real, d: Counts, e: Entry)
    requires Holds(st, log, k, now) && st.lastActive == now && e == Entry(k, Sec(now), d)
    ensures Holds(st.(ring := AddTo(st.ring, Sec(now), d)), log + [e], k, now)
  {
    var cur := Sec(now);
    AddOrderly(st.ring, cur, d);
    hide Sec, AddTo, Tally, AtSecond, Plus, Orderly;
    forall s ensures cur - WINDOW_S < s <= cur ==> AtSecond(AddTo(st.ring, cur, d), s) == Tally(log + [e], k, s)
      ensures cur < s ==> Tally(log + [e], k, s) == ZERO
    {
      TallyGrows(log, e, k, s);
      PlusLaws(Tally(log, k, s), ZERO, ZERO);
      if cur - WINDOW_S < s <= cur {
        assert AtSecond(st.ring, s) == Tally(log, k, s);
        AddAtSecond(st.ring, cur, d, s);
      }
    }
  }

  lemma TallyGrows(log: seq<Entry>, e: Entry, k: Key, s: int)
    ensures Tally(log + [e], k, s) == Plus(Tally(log, k, s), if e.key == k && e.sec == s then e.d else ZERO)
  {
    assert (log + [e])[..|log|] == log;
  }

  lemma AddAtSecond(ring: seq<Bucket>, cur: int, d: Counts, s: int)
    requires |ring| == WINDOW_S && cur - WINDOW_S < s <= cur
    ensures AtSecond(AddTo(ring, cur, d), s) == Plus(AtSecond(ring, s), if s == cur then d else ZERO)
  {
    assert s != cur ==> s % WINDOW_S != cur % WINDOW_S;
  }

  lemma AddOrderly(ring: seq<Bucket>, cur: int, d: Counts)
    requires Orderly(ring, cur)
    ensures Orderly(AddTo(ring, cur, d), cur)
  {
  }

  /** An entry of another key changes nothing that is known of `o`. */
  lemma OtherKey(keys: Keys, later: Keys, log: seq<Entry>, e: Entry, o: Key, now: real)
    requires KeyRecorded(keys, log, o, now) && e.key != o
    requires (o in keys <==> o in later) && (o in keys ==> keys[o] == later[o])
    ensures KeyRecorded(later, log + [e], o, now)
  {
    hide Tally, Sec, AtSecond, Orderly;
    forall s ensures Tally(log + [e], o, s) == Tally(log, o, s) {
      TallyGrows(log, e, o, s);
      PlusLaws(Tally(log, o, s), ZERO, ZERO);
    }
  }

  /** A write that changes only the gauges of a key in use. */
  lemma PutSame(keys: Keys, log: seq<Entry>, now: real, k: Key, st: KeyState)
    requires Recorded(keys, log, now) && k in keys
    requires st.lastActive == keys[k].lastActive && st.ring == keys[k].ring
    ensures Recorded(keys[k := st], log, now)
  {
    hide Tally, Sec, AtSecond, Orderly;
    var later := keys[k := st];
    forall o ensures KeyRecorded(later, log, o, now) {
      assert KeyRecorded(keys, log, o, now);
    }
  }

  /** A write that also adds to its current bucket. */
  lemma PutAdded(keys: Keys, log: seq<Entry>, now: real, k: Key, st: KeyState, d: Counts)
    requires Recorded(keys, log, now) && k in keys && |keys[k].ring| == WINDOW_S
    requires keys[k].lastActive == now == st.lastActive && st.ring == AddTo(keys[k].ring, Sec(now), d)
    ensures Recorded(keys[k := st], log + [Entry(k, Sec(now), d)], now)
  {
    var e := Entry(k, Sec(now), d);
    assert KeyRecorded(keys, log, k, now);
    AddHolds(keys[k], log, k, now, d, e);
    hide Tally, Sec, AtSecond, Orderly, AddTo;
    var later, grown := keys[k := st], log + [e];
    forall o ensures KeyRecorded(later, grown, o, now) {
      assert KeyRecorded(keys, log, o, now);
      if o != k { OtherKey(keys, later, log, e, o, now); }
    }
  }

  // ------------------------------------------------------------------ the steps of a run

  /** What a step adds to the log. */
  ghost function Entries(w: World, s: Step, now: real): seq<Entry>
    requires Possible(w, s)
  {
    var sec := Sec(now);
    match s
    case Start(key) => [Entry(Target(w.keys, Resolve(w.keys, key), now), sec, Counts(1, 0, 0))]
    case Move(i, key) =>
      var t := w.trackers[i];
      if !Moves(w.keys, t, key) then []
      else
        var left := Target(w.keys, t.key, now);
        EnterWhole(w.keys, t.key, now);
        var mid := Withdraw(w.keys, t.key, now, true);
        [Entry(left, sec, Withdrawn(Enter(w.keys, t.key, now)[left].ring, sec)),
         Entry(Target(mid, Resolve(w.keys, key), now), sec, Counts(1, 0, 0))]
    case Done(i, failed, tokens) =>
      var t := w.trackers[i];
      if t.finished then [] else [Entry(Target(w.keys, t.key, now), sec, FinishCounts(failed, tokens))]
    case _ => []
  }

  lemma DispatchRecorded(keys: Keys, key: Key, log: seq<Entry>, now: real)
    requires Recorded(keys, log, now) && Whole(keys)
    ensures Recorded(Dispatch(keys, key, now), log + [Entry(Target(keys, key, now), Sec(now), Counts(1, 0, 0))], now)
  {
    EnterWhole(keys, key, now);
    EnterRecorded(keys, key, log, now);
    hide Recorded, Enter, Target, AddTo, Sec;
    var k, entered := Target(keys, key, now), Enter(keys, key, now);
    PutAdded(entered, log, now, k, Dispatch(keys, key, now)[k], Counts(1, 0, 0));
  }

  lemma WithdrawRecorded(keys: Keys, key: Key, log: seq<Entry>, now: real)
    requires Recorded(keys, log, now) && Whole(keys)
    ensures var k := Target(keys, key, now);
            && |Enter(keys, key, now)[k].ring| == WINDOW_S
            && Recorded(Withdraw(keys, key, now, true),
                        log + [Entry(k, Sec(now), Withdrawn(Enter(keys, key, now)[k].ring, Sec(now)))], now)
  {
    EnterWhole(keys, key, now);
    EnterRecorded(keys, key, log, now);
    hide Recorded, Enter, Target, AddTo, Sec, Withdrawn;
    var k, entered := Target(keys, key, now), Enter(keys, key, now);
    PutAdded(entered, log, now, k, Withdraw(keys, key, now, true)[k], Withdrawn(entered[k].ring, Sec(now)));
  }

  lemma FinishRecorded(keys: Keys, key: Key, wasGenerating: bool, d: Counts, log: seq<Entry>, now: real)
    requires Recorded(keys, log, now) && Whole(keys)
    ensures Recorded(Finish(keys, key, wasGenerating, d, now, true),
            log + [Entry(Target(keys, key, now), Sec(now), d)], now)
  {
    EnterWhole(keys, key, now);
    EnterRecorded(keys, key, log, now);
    hide Recorded, Enter, Target, AddTo, Sec;
    var k, entered := Target(keys, key, now), Enter(keys, key, now);
    PutAdded(entered, log, now, k, Finish(keys, key, wasGenerating, d, now, true)[k], d);
  }

  lemma GaugesRecorded(keys: Keys, key: Key, delta: int, log: seq<Entry>, now: real)
    requires Recorded(keys, log, now) && Whole(keys)
    ensures Recorded(FirstToken(keys, key, now, true), log, now)
    ensures Recorded(AddInflight(keys, key, delta, now, true), log, now)
  {
    EnterRecorded(keys, key, log, now);
    hide Recorded, Enter, Target;
    var k, entered := Target(keys, key, now), Enter(keys, key, now);
    PutSame(entered, log, now, k, FirstToken(keys, key, now, true)[k]);
    PutSame(entered, log, now, k, AddInflight(keys, key, delta, now, true)[k]);
  }

  lemma MoveRecorded(w: World, i: nat, key: Key, log: seq<Entry>, now: real)
    requires Possible(w, Move(i, key)) && Recorded(w.keys, log, now) && Moves(w.keys, w.trackers[i], key)
    ensures Recorded(Apply(w, Move(i, key), now, true).keys, log + Entries(w, Move(i, key), now), now)
  {
    hide Recorded, Whole, Resolve, Target, Sec, Withdrawn, Dispatch, Withdraw;
    var t := w.trackers[i];
    var mid := Withdraw(w.keys, t.key, now, true);
    WritesWhole(w.keys, t.key, now, true);
    WithdrawRecorded(w.keys, t.key, log, now);
    var es := Entries(w, Move(i, key), now);
    DispatchRecorded(mid, Resolve(w.keys, key), log + [es[0]], now);
    assert log + [es[0]] + [es[1]] == log + es;
  }

  lemma DoneRecorded(w: World, i: nat, failed: bool, tokens: int, log: seq<Entry>, now: real)
    requires Possible(w, Done(i, failed, tokens)) && Recorded(w.keys, log, now) && !w.trackers[i].finished
    ensures Recorded(Apply(w, Done(i, failed, tokens), now, true).keys,
            log + Entries(w, Done(i, failed, tokens), now), now)
  {
    hide Recorded, Whole, Target, Sec, Finish, AddInflight, FinishCounts;
    var t, d := w.trackers[i], FinishCounts(failed, tokens);
    FinishRecorded(w.keys, t.key, t.firstToken.Some?, d, log, now);
    FinishWhole(w.keys, t.key, t.firstToken.Some?, d, now, true);
    if t.inflight != 0 {
      GaugesRecorded(Finish(w.keys, t.key, t.firstToken.Some?, d, now, true), t.key, 0 - t.inflight,
                     log + Entries(w, Done(i, failed, tokens), now), now);
    }
  }

  /** Each step of a run keeps the rings a record of the log. */
  lemma StepRecorded(w: World, s: Step, log: seq<Entry>, last: real, now: real)
    requires Possible(w, s) && Recorded(w.keys, log, last) && last <= now
    ensures Recorded(Apply(w, s, now, true).keys, log + Entries(w, s, now), now)
  {
    TimePasses(w.keys, log, last, now);
    assert log + [] == log;
    hide Recorded, Whole, Resolve, Target, Sec, Withdrawn, Dispatch, Withdraw, Retarget, FirstToken, Finish,
         AddInflight, FinishCounts;
    match s
    case Start(key) => DispatchRecorded(w.keys, Resolve(w.keys, key), log, now);
    case Move(i, key) =>
      if Moves(w.keys, w.trackers[i], key) { MoveRecorded(w, i, key, log, now); }
    case First(i) => GaugesRecorded(w.keys, w.trackers[i].key, 0, log, now);
    case Bytes(i, total) => GaugesRecorded(w.keys, w.trackers[i].key, total - w.trackers[i].inflight, log, now);
    case Done(i, failed, tokens) =>
      if !w.trackers[i].finished { DoneRecorded(w, i, failed, tokens, log, now); }
    case Snapshot => EvictRecorded(w.keys, log, now);
  }

  /** Clock readings never go back. */
  ghost predicate Timed(run: seq<Event>, from: real)
    decreases |run|
  {
    run == [] || (from <= run[0].now && Timed(run[1..], run[0].now))
  }

  /** The log a run leaves. */
  ghost function LogOf(w: World, run: seq<Event>): seq<Entry>
    requires CanRun(w, run, true)
    decreases |run|
  {
    if run == [] then []
    else Entries(w, run[0].step, run[0].now) + LogOf(Apply(w, run[0].step, run[0].now, true), run[1..])
  }

  function EndOf(run: seq<Event>, from: real): real {
    if run == [] then from else run[|run| - 1].now
  }

  lemma {:induction false} RunRecorded(w: World, run: seq<Event>, log: seq<Entry>, from: real)
    requires CanRun(w, run, true) && Timed(run, from) && Recorded(w.keys, log, from)
    ensures Recorded(After(w, run, true).keys, log + LogOf(w, run), EndOf(run, from))
    decreases |run|
  {
    hide Recorded, Apply, Entries;
    if run == [] {
      assert log + [] == log;
    } else {
      var s, now := run[0].step, run[0].now;
      var es, w' := Entries(w, s, now), Apply(w, s, now, true);
      StepRecorded(w, s, log, from, now);
      RunRecorded(w', run[1..], log + es, now);
      assert log + es + LogOf(w', run[1..]) == log + (es + LogOf(w', run[1..]));
    }
  }

  // ------------------------------------------------------------------ windows

  /** What one entry adds to a window. */
  function Share(e: Entry, k: Key, lo: int, hi: int): Counts {
    if e.key == k && lo < e.sec <= hi then e.d else ZERO
  }

  lemma LogUnfolds(log: seq<Entry>, k: Key, lo: int, hi: int)
    requires log != []
    ensures var init, e := log[..|log| - 1], log[|log| - 1];
            && LogWindow(log, k, lo, hi) == Plus(LogWindow(init, k, lo, hi), Share(e, k, lo, hi))
            && Tally(log, k, hi) == Plus(Tally(init, k, hi), Share(e, k, hi - 1, hi))
  {
    hide Plus;
  }

  lemma Shares(a: Counts, b: Counts, e: Entry, k: Key, lo: int, hi: int)
    requires lo < hi
    ensures Plus(Plus(a, b), Share(e, k, lo, hi))
            == Plus(Plus(a, Share(e, k, lo, hi - 1)), Plus(b, Share(e, k, hi - 1, hi)))
  {
  }

  lemma {:induction false} LogWindowStep(log: seq<Entry>, k: Key, lo: int, hi: int)
    requires lo < hi
    ensures LogWindow(log, k, lo, hi) == Plus(LogWindow(log, k, lo, hi - 1), Tally(log, k, hi))
  {
    if log != [] {
      hide *;
      var init, e := log[..|log| - 1], log[|log| - 1];
      LogWindowStep(init, k, lo, hi);
      LogUnfolds(log, k, lo, hi);
      LogUnfolds(log, k, lo, hi - 1);
      Shares(LogWindow(init, k, lo, hi - 1), Tally(init, k, hi), e, k, lo, hi);
    }
  }

  lemma {:induction false} LogWindowEmpty(log: seq<Entry>, k: Key, lo: int, hi: int)
    requires hi <= lo
    ensures LogWindow(log, k, lo, hi) == ZERO
  {
    if log != [] {
      LogWindowEmpty(log[..|log| - 1], k, lo, hi);
      LogUnfolds(log, k, lo, hi);
      hide LogWindow, Tally;
    }
  }

  /** What one bucket adds to a window. */
  function SlotShare(b: Bucket, lo: int, hi: int): Counts {
    if lo < b.sec <= hi then b.n else ZERO
  }

  lemma WindowUnfolds(ring: seq<Bucket>, lo: int, hi: int, i: nat)
    requires i < |ring|
    ensures WindowFrom(ring, lo, hi, i) == Plus(SlotShare(ring[i], lo, hi), WindowFrom(ring, lo, hi, i + 1))
  {
    hide Plus;
  }

  /** A bucket's share of second `hi` is there only in that second's slot. */
  lemma SlotStep(ring: seq<Bucket>, cur: int, lo: int, hi: int, i: nat)
    requires Orderly(ring, cur) && lo < hi && i < |ring|
    ensures SlotShare(ring[i], lo, hi)
            == Plus(SlotShare(ring[i], lo, hi - 1), if i == hi % WINDOW_S then AtSecond(ring, hi) else ZERO)
  {
    hide Plus;
    PlusLaws(ring[i].n, ZERO, ZERO);
    PlusLaws(ZERO, ZERO, ZERO);
  }

  /** Shares that differ only in slot `h`, by `at`, make windows that differ by `at`. */
  lemma {:induction false} WindowAdds(ring: seq<Bucket>, lo: int, hi: int, i: nat, h: nat, at: Counts)
    requires i <= |ring| && h < |ring|
    requires forall j :: i <= j < |ring| ==>
               SlotShare(ring[j], lo, hi) == Plus(SlotShare(ring[j], lo, hi - 1), if j == h then at else ZERO)
    ensures WindowFrom(ring, lo, hi, i) == Plus(WindowFrom(ring, lo, hi - 1, i), if i <= h then at else ZERO)
    decreases |ring| - i
  {
    hide *;
    PlusLaws(ZERO, ZERO, ZERO);
    if i == |ring| {
      PastEnd(ring, lo, hi, i);
      PastEnd(ring, lo, hi - 1, i);
    } else {
      WindowAdds(ring, lo, hi, i + 1, h, at);
      WindowUnfolds(ring, lo, hi, i);
      WindowUnfolds(ring, lo, hi - 1, i);
      PlusLaws(at, ZERO, ZERO);
      PlusPairs(SlotShare(ring[i], lo, hi - 1), if i == h then at else ZERO,
                WindowFrom(ring, lo, hi - 1, i + 1), if i + 1 <= h then at else ZERO);
    }
  }

  lemma SlotSteps(ring: seq<Bucket>, cur: int, lo: int, hi: int, h: int, at: Counts)
    requires Orderly(ring, cur) && |ring| == WINDOW_S && lo < hi && h == hi % WINDOW_S && at == AtSecond(ring, hi)
    ensures forall i :: 0 <= i < |ring| ==>
              SlotShare(ring[i], lo, hi) == Plus(SlotShare(ring[i], lo, hi - 1), if i == h then at else ZERO)
  {
    hide *;
    forall i | 0 <= i < |ring|
      ensures SlotShare(ring[i], lo, hi) == Plus(SlotShare(ring[i], lo, hi - 1), if i == h then at else ZERO)
    {
      SlotStep(ring, cur, lo, hi, i);
    }
  }

  /** One more second of the window is that second's bucket, wherever in the ring it stands. */
  lemma WindowStep(ring: seq<Bucket>, cur: int, lo: int, hi: int)
    requires Orderly(ring, cur) && lo < hi
    ensures |ring| == WINDOW_S
    ensures WindowFrom(ring, lo, hi, 0) == Plus(WindowFrom(ring, lo, hi - 1, 0), AtSecond(ring, hi))
  {
    hide WindowFrom, SlotShare, AtSecond, Orderly, Plus;
    OrderlyLength(ring, cur);
    var h, at := hi % WINDOW_S, AtSecond(ring, hi);
    SlotSteps(ring, cur, lo, hi, h, at);
    WindowAdds(ring, lo, hi, 0, h, at);
  }

  lemma PlusPairs(a: Counts, b: Counts, c: Counts, d: Counts)
    ensures Plus(Plus(a, b), Plus(c, d)) == Plus(Plus(a, c), Plus(b, d))
  {
  }

  lemma PastEnd(ring: seq<Bucket>, lo: int, hi: int, i: nat)
    requires i >= |ring|
    ensures WindowFrom(ring, lo, hi, i) == ZERO
  {
  }

  lemma {:induction false} WindowEmpty(ring: seq<Bucket>, lo: int, hi: int, i: nat)
    requires hi <= lo
    ensures WindowFrom(ring, lo, hi, i) == ZERO
    decreases |ring| - i
  {
    hide Plus;
    if i < |ring| {
      WindowEmpty(ring, lo, hi, i + 1);
      PlusLaws(ZERO, ZERO, ZERO);
    }
  }

  lemma {:induction false} WindowsAgree(ring: seq<Bucket>, log: seq<Entry>, k: Key, cur: int, lo: int, hi: int)
    requires Orderly(ring, cur) && hi <= cur
    requires forall s {:trigger Tally(log, k, s)} :: lo < s <= hi ==> AtSecond(ring, s) == Tally(log, k, s)
    ensures WindowFrom(ring, lo, hi, 0) == LogWindow(log, k, lo, hi)
    decreases hi - lo
  {
    hide Tally, AtSecond, Orderly;
    if hi <= lo {
      WindowEmpty(ring, lo, hi, 0);
      LogWindowEmpty(log, k, lo, hi);
    } else {
      WindowsAgree(ring, log, k, cur, lo, hi - 1);
      OrderlyLength(ring, cur);
      WindowStep(ring, cur, lo, hi);
      LogWindowStep(log, k, lo, hi);
    }
  }

  lemma OrderlyLength(ring: seq<Bucket>, cur: int)
    requires Orderly(ring, cur)
    ensures |ring| == WINDOW_S
  {
  }

  lemma {:induction false} QuietWindow(log: seq<Entry>, k: Key, lo: int, hi: int)
    requires forall s {:trigger Tally(log, k, s)} :: lo < s ==> Tally(log, k, s) == ZERO
    ensures LogWindow(log, k, lo, hi) == ZERO
    decreases hi - lo
  {
    if hi <= lo {
      LogWindowEmpty(log, k, lo, hi);
    } else {
      QuietWindow(log, k, lo, hi - 1);
      LogWindowStep(log, k, lo, hi);
    }
  }

  /** For a table that records a log, every window of at most 60 s is the log's. */
  lemma RecordedWindow(keys: Keys, log: seq<Entry>, now: real, k: Key, span: int)
    requires Recorded(keys, log, now) && span <= WINDOW_S
    ensures WindowOf(keys, k, now, span) == LogWindow(log, k, Sec(now) - span, Sec(now))
  {
    hide Sec, Tally, AtSecond, Orderly;
    assert KeyRecorded(keys, log, k, now);
    if k in keys {
      WindowsAgree(keys[k].ring, log, k, Sec(now), Sec(now) - span, Sec(now));
    } else {
      QuietWindow(log, k, Sec(now) - span, Sec(now));
    }
  }

  /**
    The ring refines the log: after any run from an empty store, at any later time, the window
    sums of every key over at most 60 s are those of the full log, evicted keys included.
   */
  lemma RingRefinesLog(run: seq<Event>, from: real, now: real, k: Key, span: int)
    requires var w := World(map[], []); CanRun(w, run, true) && Timed(run, from)
    requires EndOf(run, from) <= now && span <= WINDOW_S
    ensures var w := World(map[], []);
            WindowOf(After(w, run, true).keys, k, now, span) == LogWindow(LogOf(w, run), k, Sec(now) - span, Sec(now))
  {
    var w := World(map[], []);
    EmptyRecorded(from);
    RunRecorded(w, run, [], from);
    hide Recorded, LogWindow, WindowOf, Sec;
    assert [] + LogOf(w, run) == LogOf(w, run);
    TimePasses(After(w, run, true).keys, LogOf(w, run), EndOf(run, from), now);
    RecordedWindow(After(w, run, true).keys, LogOf(w, run), now, k, span);
  }

  lemma EmptyRecorded(from: real)
    ensures Recorded(map[], [], from)
  {
  }

  /** Evicting idle keys never changes a window. */
  lemma EvictionInvisible(keys: Keys, log: seq<Entry>, now: real, k: Key, span: int)
    requires Recorded(keys, log, now) && span <= WINDOW_S
    ensures WindowOf(EvictIdle(keys, now), k, now, span) == WindowOf(keys, k, now, span)
  {
    hide Recorded, EvictIdle, WindowOf;
    EvictRecorded(keys, log, now);
    RecordedWindow(keys, log, now, k, span);
    RecordedWindow(EvictIdle(keys, now), log, now, k, span);
  }

  // ------------------------------------------------------------------ the per-second history

  /** The points of `get_1s_history` for the seconds `lo < s <= hi`. */
  function Points(ring: seq<Bucket>, lo: int, hi: int): seq<Counts>
    requires |ring| == WINDOW_S
    decreases hi - lo
  {
    if hi <= lo then [] else Points(ring, lo, hi - 1) + [AtSecond(ring, hi)]
  }

  function Total(points: seq<Counts>): Counts {
    if points == [] then ZERO else Plus(Total(points[..|points| - 1]), points[|points| - 1])
  }

  /** The series of points adds up to the window that the summary is made from. */
  lemma {:induction false} SeriesAddsUp(ring: seq<Bucket>, cur: int, lo: int, hi: int)
    requires Orderly(ring, cur)
    ensures Total(Points(ring, lo, hi)) == WindowFrom(ring, lo, hi, 0)
    decreases hi - lo
  {
    hide AtSecond, Orderly;
    OrderlyLength(ring, cur);
    if hi <= lo {
      WindowEmpty(ring, lo, hi, 0);
    } else {
      var before := Points(ring, lo, hi - 1);
      SeriesAddsUp(ring, cur, lo, hi - 1);
      WindowStep(ring, cur, lo, hi);
      assert (before + [AtSecond(ring, hi)])[..|before|] == before;
    }
  }

  /** After any run, the 60 points of a key's history add up to its one-minute totals. */
  lemma HistoryAddsUp(run: seq<Event>, from: real, now: real, k: Key)
    requires var w := World(map[], []); CanRun(w, run, true) && Timed(run, from)
    requires EndOf(run, from) <= now
    requires k in After(World(map[], []), run, true).keys
    ensures var ring := After(World(map[], []), run, true).keys[k].ring;
            |ring| == WINDOW_S && Total(Points(ring, Sec(now) - WINDOW_S, Sec(now))) == Window(ring, now, WINDOW_S)
  {
    var w := World(map[], []);
    EmptyRecorded(from);
    RunRecorded(w, run, [], from);
    hide Sec, Total, Points, LogOf, Apply;
    var keys, log := After(w, run, true).keys, [] + LogOf(w, run);
    TimePasses(keys, log, EndOf(run, from), now);
    assert KeyRecorded(keys, log, k, now);
    OrderlyLength(keys[k].ring, Sec(now));
    SeriesAddsUp(keys[k].ring, Sec(now), Sec(now) - WINDOW_S, Sec(now));
  }

  // ------------------------------------------------------------------ retargets

  lemma LogWindowGrows(log: seq<Entry>, e: Entry, k: Key, lo: int, hi: int)
    ensures LogWindow(log + [e], k, lo, hi)
            == Plus(LogWindow(log, k, lo, hi), if e.key == k && lo < e.sec <= hi then e.d else ZERO)
  {
    assert (log + [e])[..|log|] == log;
  }

  /**
    A retarget conserves the requests of the two keys' windows if and only if the old key's bucket
    for the current second holds a request to give up; otherwise the request is counted twice.
   */
  lemma RetargetConserves(w: World, i: nat, key: Key, log: seq<Entry>, now: real, span: int)
    requires Exact(w) && Possible(w, Move(i, key)) && Recorded(w.keys, log, now) && Moves(w.keys, w.trackers[i], key)
    requires 1 <= span <= WINDOW_S
    ensures var left, taken := w.trackers[i].key, Resolve(w.keys, key);
            var w' := Apply(w, Move(i, key), now, true);
            && left in w.keys
            && (WindowOf(w'.keys, left, now, span).requests + WindowOf(w'.keys, taken, now, span).requests
                == WindowOf(w.keys, left, now, span).requests + WindowOf(w.keys, taken, now, span).requests
                <==> Current(w.keys[left].ring, Sec(now)).n.requests > 0)
  {
    var left, taken := w.trackers[i].key, Resolve(w.keys, key);
    var lo, hi := Sec(now) - span, Sec(now);
    OpenKeyPresent(w, i);
    MoveRecorded(w, i, key, log, now);
    MoveEntries(w, i, key, now);
    hide Recorded, Exact, Apply, Entries, Resolve, WindowOf, LogWindow, Sec, Current;
    var d := Withdrawn(w.keys[left].ring, hi);
    var e1, e2 := Entry(left, hi, d), Entry(taken, hi, Counts(1, 0, 0));
    assert log + [e1, e2] == (log + [e1]) + [e2];
    var w' := Apply(w, Move(i, key), now, true);
    RecordedWindow(w.keys, log, now, left, span);
    RecordedWindow(w.keys, log, now, taken, span);
    RecordedWindow(w'.keys, log + [e1, e2], now, left, span);
    RecordedWindow(w'.keys, log + [e1, e2], now, taken, span);
    LogWindowGrows(log, e1, left, lo, hi);
    LogWindowGrows(log, e1, taken, lo, hi);
    LogWindowGrows(log + [e1], e2, left, lo, hi);
    LogWindowGrows(log + [e1], e2, taken, lo, hi);
  }

  lemma MoveEntries(w: World, i: nat, key: Key, now: real)
    requires Exact(w) && Possible(w, Move(i, key)) && Moves(w.keys, w.trackers[i], key)
    ensures w.trackers[i].key in w.keys
    ensures Entries(w, Move(i, key), now)
            == [Entry(w.trackers[i].key, Sec(now), Withdrawn(w.keys[w.trackers[i].key].ring, Sec(now))),
                Entry(Resolve(w.keys, key), Sec(now), Counts(1, 0, 0))]
  {
    var t := w.trackers[i];
    OpenKeyPresent(w, i);
    EnterWhole(w.keys, t.key, now);
    hide AddTo, Sec, Withdrawn, Exact, Resolve;
    var mid := Withdraw(w.keys, t.key, now, true);
    assert mid.Keys == w.keys.Keys;
    ResolveStable(w.keys, mid, key, now);
    hide Withdraw, Target;
  }

  /** Such a double count: dispatched in one second, retargeted in the next. */
  lemma LateRetargetCountsTwice()
    ensures var a, b := Key("s", "openai", "a"), Key("s", "openai", "b");
            var run := [Event(Start(a), 0.0), Event(Move(0, b), 1.0)];
            var w := World(map[], []);
            && CanRun(w, run, true) && Timed(run, 0.0)
            && var keys := After(w, run, true).keys;
               WindowOf(keys, a, 1.0, WINDOW_S).requests + WindowOf(keys, b, 1.0, WINDOW_S).requests == 2
  {
    var a, b := Key("s", "openai", "a"), Key("s", "openai", "b");
    var w0 := World(map[], []);
    StartedOne(a, b);
    hide *;
    var w1 := Apply(w0, Start(a), 0.0, true);
    TwoSteps(w0, a, b);
    var run := [Event(Start(a), 0.0), Event(Move(0, b), 1.0)];
    RingRefinesLog(run, 0.0, 1.0, a, 60);
    RingRefinesLog(run, 0.0, 1.0, b, 60);
    WindowSeconds();
    TwoKeys(a, b, LogOf(w0, run));
  }

  lemma WindowSeconds()
    ensures Sec(1.0) == 1 && WINDOW_S == 60
  {
  }

  /** A dispatch into an empty store, ready to be retargeted with nothing in the current second. */
  lemma StartedOne(a: Key, b: Key)
    requires a.server == b.server && a != b
    ensures var w0 := World(map[], []);
            && Possible(w0, Start(a)) && Entries(w0, Start(a), 0.0) == [Entry(a, 0, Counts(1, 0, 0))]
            && var w1 := Apply(w0, Start(a), 0.0, true);
            && Possible(w1, Move(0, b))
            && Entries(w1, Move(0, b), 1.0) == [Entry(a, 1, ZERO), Entry(b, 1, Counts(1, 0, 0))]
  {
    var w0 := World(map[], []);
    EmptyDispatch(a);
    EmptyResolve(a);
    NothingToCount();
    StartExact(w0, a, 0.0);
    FirstRing(a);
    hide Dispatch, Resolve, Exact, Target, Withdrawn, Sec;
    var w1 := Apply(w0, Start(a), 0.0, true);
    OneKeyResolves(w1.keys, a, b);
    assert w1.trackers == [Tracker(a, 0.0, None, false, 0)];
    MoveEntries(w1, 0, b, 1.0);
    hide Entries;
    WindowSeconds();
  }

  lemma FirstRing(a: Key)
    ensures var keys := Dispatch(map[], a, 0.0);
            a in keys && |keys[a].ring| == WINDOW_S && Withdrawn(keys[a].ring, Sec(1.0)) == ZERO
    ensures Target(map[], a, 0.0) == a && Sec(0.0) == 0
  {
    EmptyResolve(a);
    assert EvictIdle(map[], 0.0) == map[];
    hide Resolve;
    assert Fresh(0.0).ring[1] == Bucket(-1, ZERO);
  }

  lemma TwoSteps(w0: World, a: Key, b: Key)
    requires Possible(w0, Start(a)) && Possible(Apply(w0, Start(a), 0.0, true), Move(0, b))
    ensures var run := [Event(Start(a), 0.0), Event(Move(0, b), 1.0)];
            && CanRun(w0, run, true) && Timed(run, 0.0) && EndOf(run, 0.0) == 1.0
            && LogOf(w0, run) == Entries(w0, Start(a), 0.0) + Entries(Apply(w0, Start(a), 0.0, true), Move(0, b), 1.0)
  {
    hide Apply, Possible, Entries;
    var w1 := Apply(w0, Start(a), 0.0, true);
    var rest := [Event(Move(0, b), 1.0)];
    var run := [Event(Start(a), 0.0), Event(Move(0, b), 1.0)];
    assert run[1..] == rest && rest[1..] == [];
    assert CanRun(w1, rest, true) && Timed(rest, 0.0);
    var es := Entries(w1, Move(0, b), 1.0);
    assert LogOf(w1, rest) == es + [] == es;
    assert LogOf(w0, run) == Entries(w0, Start(a), 0.0) + LogOf(w1, rest);
  }

  lemma TwoKeys(a: Key, b: Key, log: seq<Entry>)
    requires a != b && log == [Entry(a, 0, Counts(1, 0, 0))] + [Entry(a, 1, ZERO), Entry(b, 1, Counts(1, 0, 0))]
    ensures LogWindow(log, a, -59, 1).requests == 1 && LogWindow(log, b, -59, 1).requests == 1
  {
    var e1, e2, e3 := Entry(a, 0, Counts(1, 0, 0)), Entry(a, 1, ZERO), Entry(b, 1, Counts(1, 0, 0));
    assert log == [e1, e2, e3];
    ThreeRequests(log, e1, e2, e3, a);
    ThreeRequests(log, e1, e2, e3, b);
    hide LogWindow, Plus;
  }

  /** The requests of a three-entry log. */
  lemma ThreeRequests(log: seq<Entry>, e1: Entry, e2: Entry, e3: Entry, k: Key)
    requires log == [e1, e2, e3]
    ensures LogWindow(log, k, -59, 1).requests
            == RequestShare(e1, k) + RequestShare(e2, k) + RequestShare(e3, k)
  {
    hide LogWindow, Plus, RequestShare;
    var l0: seq<Entry>, l1, l2 := [], [e1], [e1, e2];
    assert l1 == l0 + [e1] && l2 == l1 + [e2] && log == l2 + [e3];
    NothingLogged(k, -59, 1);
    RequestsGrow(l0, e1, k);
    RequestsGrow(l1, e2, k);
    RequestsGrow(l2, e3, k);
  }

  function RequestShare(e: Entry, k: Key): int {
    if e.key == k && -59 < e.sec <= 1 then e.d.requests else 0
  }

  lemma NothingLogged(k: Key, lo: int, hi: int)
    ensures LogWindow([], k, lo, hi) == ZERO
  {
  }

  lemma RequestsGrow(log: seq<Entry>, e: Entry, k: Key)
    ensures LogWindow(log + [e], k, -59, 1).requests == LogWindow(log, k, -59, 1).requests + RequestShare(e, k)
  {
    LogWindowGrows(log, e, k, -59, 1);
    hide LogWindow;
  }
}
