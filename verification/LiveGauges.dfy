/** Any number of request trackers driving the live store, and what its gauges count. */
module LiveGauges {
  import opened Wrappers
  import opened LiveStore

  /** One dispatched request. */
  datatype Tracker = Tracker(key: Key, start: real, firstToken: Option<real>, finished: bool, inflight: nat)

  /** The store's key table and every tracker made so far. */
  datatype World = World(keys: Keys, trackers: seq<Tracker>)

  datatype Step =
    | Start(key: Key)                                // track_dispatch
    | Move(i: nat, key: Key)                         // retarget
    | First(i: nat)                                  // first_token
    | Bytes(i: nat, total: nat)                      // set_inflight_bytes
    | Done(i: nat, failed: bool, tokens: int)        // finish
    | Snapshot

  ghost predicate Possible(w: World, s: Step) {
    Whole(w.keys) && (!s.Start? && !s.Snapshot? ==> s.i < |w.trackers|)
  }

  // ------------------------------------------------------------------ tracker steps

  /** A retarget that moves the tracker to another key. */
  predicate Moves(keys: Keys, t: Tracker, key: Key) {
    !t.finished && t.firstToken == None && Resolve(keys, key) != t.key
  }

  function MoveTracker(keys: Keys, t: Tracker, key: Key, now: real, clamp: bool): (Keys, Tracker)
    requires Whole(keys)
  {
    if Moves(keys, t, key) then
      var k := Resolve(keys, key);
      (Retarget(keys, t.key, k, now, clamp), t.(key := k))
    else (keys, t)
  }

  function FirstTracker(keys: Keys, t: Tracker, now: real, clamp: bool): (Keys, Tracker)
    requires Whole(keys)
  {
    if t.finished || t.firstToken.Some? then (keys, t)
    else (FirstToken(keys, t.key, now, clamp), t.(firstToken := Some(now)))
  }

  function BytesTracker(keys: Keys, t: Tracker, total: nat, now: real, clamp: bool): (Keys, Tracker)
    requires Whole(keys)
  {
    if t.finished || total == t.inflight then (keys, t)
    else (AddInflight(keys, t.key, total - t.inflight, now, clamp), t.(inflight := total))
  }

  function DoneTracker(keys: Keys, t: Tracker, failed: bool, tokens: int, now: real, clamp: bool): (Keys, Tracker)
    requires Whole(keys)
  {
    if t.finished then (keys, t)
    else
      var closed := Finish(keys, t.key, t.firstToken.Some?, FinishCounts(failed, tokens), now, clamp);
      FinishWhole(keys, t.key, t.firstToken.Some?, FinishCounts(failed, tokens), now, clamp);
      (if t.inflight != 0 then AddInflight(closed, t.key, 0 - t.inflight, now, clamp) else closed,
       t.(finished := true, inflight := 0))
  }

  lemma FinishWhole(keys: Keys, key: Key, wasGenerating: bool, d: Counts, now: real, clamp: bool)
    requires Whole(keys)
    ensures Whole(Finish(keys, key, wasGenerating, d, now, clamp))
  {
    EnterWhole(keys, key, now);
  }

  function SetTracker(w: World, i: nat, r: (Keys, Tracker)): World
    requires i < |w.trackers|
  {
    World(r.0, w.trackers[i := r.1])
  }

  /** One step at time `now`; without `clamp`, the gauges are left to go negative. */
  ghost function Apply(w: World, s: Step, now: real, clamp: bool): World
    requires Possible(w, s)
  {
    match s
    case Start(key) =>
      var k := Resolve(w.keys, key);
      World(Dispatch(w.keys, k, now), w.trackers + [Tracker(k, now, None, false, 0)])
    case Move(i, key) => SetTracker(w, i, MoveTracker(w.keys, w.trackers[i], key, now, clamp))
    case First(i) => SetTracker(w, i, FirstTracker(w.keys, w.trackers[i], now, clamp))
    case Bytes(i, total) => SetTracker(w, i, BytesTracker(w.keys, w.trackers[i], total, now, clamp))
    case Done(i, failed, tokens) => SetTracker(w, i, DoneTracker(w.keys, w.trackers[i], failed, tokens, now, clamp))
    case Snapshot => World(EvictIdle(w.keys, now), w.trackers)
  }

  // ------------------------------------------------------------------ gauges

  datatype Gauge = Waiting | Generating | Inflight

  /** What the store shows. */
  function Shown(keys: Keys, k: Key, g: Gauge): int {
    if k !in keys then 0 else
    match g
    case Waiting => keys[k].waiting
    case Generating => keys[k].generating
    case Inflight => keys[k].inflight
  }

  /** What one tracker accounts for. */
  function Weight(t: Tracker, k: Key, g: Gauge): int {
    if t.key != k || t.finished then 0 else
    match g
    case Waiting => if t.firstToken == None then 1 else 0
    case Generating => if t.firstToken == None then 0 else 1
    case Inflight => t.inflight
  }

  /** What all open trackers account for. */
  function Sum(ts: seq<Tracker>, k: Key, g: Gauge): int {
    if ts == [] then 0 else Weight(ts[0], k, g) + Sum(ts[1..], k, g)
  }

  /** Every gauge of every key is the sum over the open trackers that hold the key. */
  ghost predicate Exact(w: World) {
    forall k, g :: Shown(w.keys, k, g) == Sum(w.trackers, k, g)
  }

  lemma {:induction false} SumSet(ts: seq<Tracker>, i: nat, t: Tracker, k: Key, g: Gauge)
    requires i < |ts|
    ensures Sum(ts[i := t], k, g) == Sum(ts, k, g) - Weight(ts[i], k, g) + Weight(t, k, g)
  {
    hide Weight;
    if i == 0 {
      assert ts[i := t][1..] == ts[1..];
    } else {
      assert ts[i := t][1..] == ts[1..][i - 1 := t];
      SumSet(ts[1..], i - 1, t, k, g);
    }
  }

  lemma {:induction false} SumAdd(ts: seq<Tracker>, t: Tracker, k: Key, g: Gauge)
    ensures Sum(ts + [t], k, g) == Sum(ts, k, g) + Weight(t, k, g)
  {
    hide Weight;
    if ts == [] {
      assert ts + [t] == [t];
      assert [t][1..] == [];
    } else {
      assert (ts + [t])[1..] == ts[1..] + [t];
      SumAdd(ts[1..], t, k, g);
    }
  }

  /** A tracker's weight is part of the sum. */
  lemma {:induction false} SumAtLeast(ts: seq<Tracker>, i: nat, k: Key, g: Gauge)
    requires i < |ts|
    ensures Weight(ts[i], k, g) <= Sum(ts, k, g)
  {
    SumNotNegative(ts[1..], k, g);
    if i > 0 { SumAtLeast(ts[1..], i - 1, k, g); }
  }

  lemma {:induction false} SumNotNegative(ts: seq<Tracker>, k: Key, g: Gauge)
    ensures Sum(ts, k, g) >= 0
  {
    if ts != [] { SumNotNegative(ts[1..], k, g); }
  }

  // ------------------------------------------------------------------ what writes do to the gauges

  /** Eviction, look-up and creation show the same gauges. */
  lemma EnterShows(keys: Keys, key: Key, now: real, k: Key, g: Gauge)
    ensures Shown(Enter(keys, key, now), k, g) == Shown(keys, k, g)
    ensures Shown(EvictIdle(keys, now), k, g) == Shown(keys, k, g)
  {
  }

  function Delta(k: Key, target: Key, d: int): int { if k == target then d else 0 }

  lemma DispatchShows(keys: Keys, key: Key, now: real, k: Key, g: Gauge)
    requires Whole(keys)
    ensures Shown(Dispatch(keys, key, now), k, g)
            == Shown(keys, k, g) + Delta(k, Target(keys, key, now), if g == Waiting then 1 else 0)
  {
    EnterShows(keys, key, now, k, g);
    EnterWhole(keys, key, now);
    hide Enter, Target, AddTo, Sec;
  }

  lemma WithdrawShows(keys: Keys, key: Key, now: real, k: Key, g: Gauge)
    requires Whole(keys) && key in keys
    ensures Shown(Withdraw(keys, key, now, false), k, g)
            == Shown(keys, k, g) - Delta(k, key, if g == Waiting then 1 else 0)
    ensures Withdraw(keys, key, now, false).Keys == keys.Keys
  {
    EnterShows(keys, key, now, k, g);
    EnterWhole(keys, key, now);
    hide AddTo, Sec, Withdrawn;
  }

  lemma FirstShows(keys: Keys, key: Key, now: real, k: Key, g: Gauge)
    requires Whole(keys) && key in keys
    ensures Shown(FirstToken(keys, key, now, false), k, g)
            == Shown(keys, k, g) + Delta(k, key, match g case Waiting => -1 case Generating => 1 case Inflight => 0)
  {
    EnterShows(keys, key, now, k, g);
  }

  lemma FinishShows(keys: Keys, key: Key, wasGenerating: bool, d: Counts, now: real, k: Key, g: Gauge)
    requires Whole(keys) && key in keys
    ensures Shown(Finish(keys, key, wasGenerating, d, now, false), k, g)
            == Shown(keys, k, g) - Delta(k, key, if g == (if wasGenerating then Generating else Waiting) then 1 else 0)
    ensures key in Finish(keys, key, wasGenerating, d, now, false)
  {
    EnterShows(keys, key, now, k, g);
    EnterWhole(keys, key, now);
    hide AddTo, Sec;
  }

  lemma InflightShows(keys: Keys, key: Key, delta: int, now: real, k: Key, g: Gauge)
    requires Whole(keys) && key in keys
    ensures Shown(AddInflight(keys, key, delta, now, false), k, g)
            == Shown(keys, k, g) + Delta(k, key, if g == Inflight then delta else 0)
  {
    EnterShows(keys, key, now, k, g);
  }

  lemma SmallerSet<T>(a: set<T>, b: set<T>)
    requires a <= b
    ensures |a| <= |b|
  {
    var rest := b - a;
    assert b == a + rest;
  }

  /** A resolved key is still its own resolution when the write that uses it looks it up. */
  lemma ResolveStable(keys: Keys, later: Keys, key: Key, now: real)
    requires later.Keys == keys.Keys
    ensures Target(later, Resolve(keys, key), now) == Resolve(keys, key)
  {
    var ev := EvictIdle(later, now);
    SmallerSet(KeysOf(ev, key.server), KeysOf(keys, key.server));
  }

  lemma MoveShows(keys: Keys, t: Tracker, key: Key, now: real, k: Key, g: Gauge)
    requires Whole(keys) && t.key in keys && Moves(keys, t, key)
    ensures Shown(MoveTracker(keys, t, key, now, false).0, k, g)
            == Shown(keys, k, g) - Delta(k, t.key, if g == Waiting then 1 else 0)
               + Delta(k, Resolve(keys, key), if g == Waiting then 1 else 0)
  {
    hide Withdraw, Dispatch, Target, Resolve;
    var mid := Withdraw(keys, t.key, now, false);
    WritesWhole(keys, t.key, now, false);
    WithdrawShows(keys, t.key, now, k, g);
    ResolveStable(keys, mid, key, now);
    DispatchShows(mid, Resolve(keys, key), now, k, g);
  }

  lemma DoneShows(keys: Keys, t: Tracker, failed: bool, tokens: int, now: real, k: Key, g: Gauge)
    requires Whole(keys) && t.key in keys && !t.finished
    ensures Shown(DoneTracker(keys, t, failed, tokens, now, false).0, k, g)
            == Shown(keys, k, g) - Weight(t, k, g)
  {
    hide Finish, AddInflight, FinishCounts;
    var d := FinishCounts(failed, tokens);
    FinishShows(keys, t.key, t.firstToken.Some?, d, now, k, g);
    FinishWhole(keys, t.key, t.firstToken.Some?, d, now, false);
    var closed := Finish(keys, t.key, t.firstToken.Some?, d, now, false);
    if t.inflight != 0 { InflightShows(closed, t.key, 0 - t.inflight, now, k, g); }
  }

  // ------------------------------------------------------------------ the invariant

  /** The key of an open tracker is in the table: the store never evicts it. */
  lemma OpenKeyPresent(w: World, i: nat)
    requires Exact(w) && i < |w.trackers| && !w.trackers[i].finished
    ensures w.trackers[i].key in w.keys
  {
    var t := w.trackers[i];
    SumAtLeast(w.trackers, i, t.key, Waiting);
    SumAtLeast(w.trackers, i, t.key, Generating);
    assert Shown(w.keys, t.key, Waiting) == Sum(w.trackers, t.key, Waiting);
    assert Shown(w.keys, t.key, Generating) == Sum(w.trackers, t.key, Generating);
  }

  /** A retarget must not move a tracker that has bytes in flight: `retarget` leaves them on the old key. */
  predicate Guard(w: World, s: Step)
    requires s.Move? ==> s.i < |w.trackers|
  {
    s.Move? && Moves(w.keys, w.trackers[s.i], s.key) ==> w.trackers[s.i].inflight == 0
  }

  lemma StartExact(w: World, key: Key, now: real)
    requires Exact(w) && Whole(w.keys)
    ensures Exact(Apply(w, Start(key), now, false))
  {
    var w' := Apply(w, Start(key), now, false);
    var r := Resolve(w.keys, key);
    forall k, g ensures Shown(w'.keys, k, g) == Sum(w'.trackers, k, g) {
      ResolveStable(w.keys, w.keys, key, now);
      DispatchShows(w.keys, r, now, k, g);
      SumAdd(w.trackers, Tracker(r, now, None, false, 0), k, g);
      hide Dispatch, Resolve, Target, Sum;
      assert Shown(w.keys, k, g) == Sum(w.trackers, k, g);
    }
  }

  /** A tracker step keeps the gauges exact when the store moves by what the tracker's weight moves. */
  lemma TrackerExact(w: World, i: nat, keys: Keys, t: Tracker)
    requires Exact(w) && i < |w.trackers|
    ensures Exact(World(keys, w.trackers[i := t]))
            <==> forall k, g :: Shown(keys, k, g) == Shown(w.keys, k, g) - Weight(w.trackers[i], k, g) + Weight(t, k, g)
  {
    hide Shown, Weight, Sum;
    forall k, g
      ensures Sum(w.trackers[i := t], k, g) == Shown(w.keys, k, g) - Weight(w.trackers[i], k, g) + Weight(t, k, g)
    {
      SumSet(w.trackers, i, t, k, g);
      assert Shown(w.keys, k, g) == Sum(w.trackers, k, g);
    }
  }

  lemma MoveExact(w: World, i: nat, key: Key, now: real)
    requires Exact(w) && Whole(w.keys) && i < |w.trackers|
    ensures Exact(Apply(w, Move(i, key), now, false)) <==> Guard(w, Move(i, key))
  {
    var t := w.trackers[i];
    var r := MoveTracker(w.keys, t, key, now, false);
    TrackerExact(w, i, r.0, r.1);
    if Moves(w.keys, t, key) {
      OpenKeyPresent(w, i);
      forall k, g ensures Shown(r.0, k, g) - Shown(w.keys, k, g)
                          == Delta(k, r.1.key, if g == Waiting then 1 else 0)
                             - Delta(k, t.key, if g == Waiting then 1 else 0)
      {
        MoveShows(w.keys, t, key, now, k, g);
      }
      hide Retarget, Resolve, Shown;
      assert Weight(t, t.key, Inflight) == t.inflight && Weight(r.1, t.key, Inflight) == 0;
    }
  }

  lemma OtherExact(w: World, s: Step, now: real)
    requires Exact(w) && Possible(w, s) && !s.Start? && !s.Move?
    ensures Exact(Apply(w, s, now, false))
  {
    if s.Snapshot? {
      forall k, g ensures Shown(EvictIdle(w.keys, now), k, g) == Sum(w.trackers, k, g) {
        EnterShows(w.keys, k, now, k, g);
        assert Shown(w.keys, k, g) == Sum(w.trackers, k, g);
      }
    } else {
      var t := w.trackers[s.i];
      var w' := Apply(w, s, now, false);
      TrackerExact(w, s.i, w'.keys, w'.trackers[s.i]);
      if !t.finished {
        OpenKeyPresent(w, s.i);
        forall k, g
          ensures Shown(w'.keys, k, g) == Shown(w.keys, k, g) - Weight(t, k, g) + Weight(w'.trackers[s.i], k, g)
        {
          match s
          case First(_) => FirstShows(w.keys, t.key, now, k, g);
          case Bytes(_, total) => InflightShows(w.keys, t.key, total - t.inflight, now, k, g);
          case Done(_, failed, tokens) => DoneShows(w.keys, t, failed, tokens, now, k, g);
        }
      }
    }
  }

  /** One step keeps every gauge exact if and only if it is not a retarget of a tracker with bytes in flight. */
  lemma StepExact(w: World, s: Step, now: real)
    requires Exact(w) && Possible(w, s)
    ensures Exact(Apply(w, s, now, false)) <==> Guard(w, s)
  {
    hide Exact, Apply;
    match s
    case Start(key) => StartExact(w, key, now);
    case Move(i, key) => MoveExact(w, i, key, now);
    case _ => OtherExact(w, s, now);
  }

  /** Where a gauge is not zero, its clamp does nothing. */
  lemma ClampsIdle(keys: Keys, key: Key, now: real, d: Counts)
    requires Whole(keys) && key in keys
    ensures keys[key].waiting >= 1 ==>
              Withdraw(keys, key, now, true) == Withdraw(keys, key, now, false)
              && FirstToken(keys, key, now, true) == FirstToken(keys, key, now, false)
              && Finish(keys, key, false, d, now, true) == Finish(keys, key, false, d, now, false)
    ensures keys[key].generating >= 1 ==>
              Finish(keys, key, true, d, now, true) == Finish(keys, key, true, d, now, false)
  {
    hide AddTo, Sec, Withdrawn;
  }

  lemma BytesUnclamped(keys: Keys, key: Key, delta: int, now: real)
    requires Whole(keys) && key in keys && keys[key].inflight + delta >= 0
    ensures AddInflight(keys, key, delta, now, true) == AddInflight(keys, key, delta, now, false)
  {
  }

  /** An open tracker has its share in the gauges of its key. */
  lemma OwnGauges(w: World, i: nat)
    requires Exact(w) && i < |w.trackers| && !w.trackers[i].finished
    ensures var t := w.trackers[i];
            && t.key in w.keys && w.keys[t.key].inflight >= t.inflight
            && (if t.firstToken == None then w.keys[t.key].waiting else w.keys[t.key].generating) >= 1
  {
    OpenKeyPresent(w, i);
    OwnShare(w, i, Waiting);
    OwnShare(w, i, Generating);
    OwnShare(w, i, Inflight);
    hide Exact;
  }

  /** With exact gauges no clamp fires: the step is the same with plain subtraction. */
  lemma ClampsNeverFire(w: World, s: Step, now: real)
    requires Exact(w) && Possible(w, s)
    ensures Apply(w, s, now, true) == Apply(w, s, now, false)
  {
    hide *;
    StepInRange(w, s);
    if !s.Start? && !s.Snapshot? && !w.trackers[s.i].finished {
      OwnGauges(w, s.i);
    }
    match s
    case Start(_) => FreeOfClamps(w, s, now);
    case Snapshot => FreeOfClamps(w, s, now);
    case Move(i, key) => MoveUnclamped(w, i, key, now);
    case First(i) => FirstUnclamped(w, i, now);
    case Bytes(i, total) => TotalUnclamped(w, i, total, now);
    case Done(i, failed, tokens) => EndUnclamped(w, i, failed, tokens, now);
  }

  lemma StepInRange(w: World, s: Step)
    requires Possible(w, s)
    ensures Whole(w.keys) && (!s.Start? && !s.Snapshot? ==> s.i < |w.trackers|)
  {
    hide Whole;
  }

  lemma FreeOfClamps(w: World, s: Step, now: real)
    requires Possible(w, s) && (s.Start? || s.Snapshot?)
    ensures Apply(w, s, now, true) == Apply(w, s, now, false)
  {
    hide Whole, Dispatch, EvictIdle, Resolve;
  }

  lemma MoveUnclamped(w: World, i: nat, key: Key, now: real)
    requires Whole(w.keys) && i < |w.trackers|
    requires var t := w.trackers[i];
             !t.finished && t.firstToken == None ==> t.key in w.keys && w.keys[t.key].waiting >= 1
    ensures Apply(w, Move(i, key), now, true) == Apply(w, Move(i, key), now, false)
  {
    if Moves(w.keys, w.trackers[i], key) {
      ClampsIdle(w.keys, w.trackers[i].key, now, ZERO);
    }
    hide Whole, Withdraw, Dispatch, Resolve;
  }

  lemma FirstUnclamped(w: World, i: nat, now: real)
    requires Whole(w.keys) && i < |w.trackers|
    requires var t := w.trackers[i];
             !t.finished && t.firstToken == None ==> t.key in w.keys && w.keys[t.key].waiting >= 1
    ensures Apply(w, First(i), now, true) == Apply(w, First(i), now, false)
  {
    if !w.trackers[i].finished && w.trackers[i].firstToken == None {
      ClampsIdle(w.keys, w.trackers[i].key, now, ZERO);
    }
    hide Whole, FirstToken;
  }

  lemma TotalUnclamped(w: World, i: nat, total: nat, now: real)
    requires Whole(w.keys) && i < |w.trackers|
    requires var t := w.trackers[i]; !t.finished ==> t.key in w.keys && w.keys[t.key].inflight >= t.inflight
    ensures Apply(w, Bytes(i, total), now, true) == Apply(w, Bytes(i, total), now, false)
  {
    if !w.trackers[i].finished {
      BytesUnclamped(w.keys, w.trackers[i].key, total - w.trackers[i].inflight, now);
    }
    hide Whole, AddInflight;
  }

  lemma EndUnclamped(w: World, i: nat, failed: bool, tokens: int, now: real)
    requires Whole(w.keys) && i < |w.trackers|
    requires var t := w.trackers[i];
             !t.finished ==>
               && t.key in w.keys && w.keys[t.key].inflight >= t.inflight
               && (if t.firstToken == None then w.keys[t.key].waiting else w.keys[t.key].generating) >= 1
    ensures Apply(w, Done(i, failed, tokens), now, true) == Apply(w, Done(i, failed, tokens), now, false)
  {
    if !w.trackers[i].finished {
      DoneUnclamped(w.keys, w.trackers[i], failed, tokens, now);
    }
    hide Whole, Finish, AddInflight;
  }

  /** An open tracker's own share is part of what the store shows for its key. */
  lemma OwnShare(w: World, i: nat, g: Gauge)
    requires Exact(w) && i < |w.trackers|
    ensures Shown(w.keys, w.trackers[i].key, g) >= Weight(w.trackers[i], w.trackers[i].key, g)
  {
    SumAtLeast(w.trackers, i, w.trackers[i].key, g);
    assert Shown(w.keys, w.trackers[i].key, g) == Sum(w.trackers, w.trackers[i].key, g);
  }

  lemma DoneUnclamped(keys: Keys, t: Tracker, failed: bool, tokens: int, now: real)
    requires Whole(keys) && t.key in keys && !t.finished && keys[t.key].inflight >= t.inflight
    requires (if t.firstToken == None then keys[t.key].waiting else keys[t.key].generating) >= 1
    ensures DoneTracker(keys, t, failed, tokens, now, true) == DoneTracker(keys, t, failed, tokens, now, false)
  {
    hide *;
    var d := FinishCounts(failed, tokens);
    FinishKeepsBytes(keys, t.key, t.firstToken.Some?, d, now);
    ClampsIdle(keys, t.key, now, d);
    DoneUnfolds(keys, t, failed, tokens, now);
    BytesUnclamped(Finish(keys, t.key, t.firstToken.Some?, d, now, false), t.key, 0 - t.inflight, now);
  }

  lemma FinishKeepsBytes(keys: Keys, key: Key, wasGenerating: bool, d: Counts, now: real)
    requires Whole(keys) && key in keys
    ensures var closed := Finish(keys, key, wasGenerating, d, now, false);
            Whole(closed) && key in closed && closed[key].inflight == keys[key].inflight
  {
    FinishWhole(keys, key, wasGenerating, d, now, false);
    FinishShows(keys, key, wasGenerating, d, now, key, Inflight);
    hide Finish, Whole;
  }

  lemma DoneUnfolds(keys: Keys, t: Tracker, failed: bool, tokens: int, now: real)
    requires Whole(keys) && !t.finished
    ensures forall clamp ::
              var closed := Finish(keys, t.key, t.firstToken.Some?, FinishCounts(failed, tokens), now, clamp);
              Whole(closed)
              && DoneTracker(keys, t, failed, tokens, now, clamp)
                 == (if t.inflight != 0 then AddInflight(closed, t.key, 0 - t.inflight, now, clamp) else closed,
                     t.(finished := true, inflight := 0))
  {
    forall clamp: bool
      ensures Whole(Finish(keys, t.key, t.firstToken.Some?, FinishCounts(failed, tokens), now, clamp))
    {
      FinishWhole(keys, t.key, t.firstToken.Some?, FinishCounts(failed, tokens), now, clamp);
    }
    hide Finish, AddInflight, FinishCounts, Whole;
  }

  // ------------------------------------------------------------------ runs

  datatype Event = Event(step: Step, now: real)

  ghost predicate CanRun(w: World, run: seq<Event>, clamp: bool)
    decreases |run|
  {
    run == [] || (Possible(w, run[0].step) && CanRun(Apply(w, run[0].step, run[0].now, clamp), run[1..], clamp))
  }

  ghost function After(w: World, run: seq<Event>, clamp: bool): World
    requires CanRun(w, run, clamp)
    decreases |run|
  {
    if run == [] then w else After(Apply(w, run[0].step, run[0].now, clamp), run[1..], clamp)
  }

  /** Every state of the run has exact gauges. */
  ghost predicate AlwaysExact(w: World, run: seq<Event>)
    requires CanRun(w, run, true)
    decreases |run|
  {
    Exact(w) && (run != [] ==> AlwaysExact(Apply(w, run[0].step, run[0].now, true), run[1..]))
  }

  /** No retarget of the run moves a tracker that has bytes in flight. */
  ghost predicate AllGuarded(w: World, run: seq<Event>)
    requires CanRun(w, run, true)
    decreases |run|
  {
    run != [] ==> Guard(w, run[0].step) && AllGuarded(Apply(w, run[0].step, run[0].now, true), run[1..])
  }

  /**
    In any run over any number of trackers, every gauge equals the sum over the open trackers that
    hold its key, in every state, if and only if no retarget moves a tracker with bytes in flight.
    The run then goes exactly as it would without any clamp.
   */
  lemma {:induction false} GaugesExact(w: World, run: seq<Event>)
    requires CanRun(w, run, true) && Exact(w)
    ensures AlwaysExact(w, run) <==> AllGuarded(w, run)
    ensures AllGuarded(w, run) ==> CanRun(w, run, false) && After(w, run, true) == After(w, run, false)
    decreases |run|
  {
    hide Exact, Apply, Guard, Possible;
    if run != [] {
      var s, now := run[0].step, run[0].now;
      var w' := Apply(w, s, now, true);
      ClampsNeverFire(w, s, now);
      StepExact(w, s, now);
      if Exact(w') {
        GaugesExact(w', run[1..]);
      }
    }
  }

  lemma {:induction false} EndsExact(w: World, run: seq<Event>)
    requires CanRun(w, run, true) && AlwaysExact(w, run)
    ensures Exact(After(w, run, true))
    decreases |run|
  {
    hide Exact, Apply, Possible;
    if run != [] {
      EndsExact(Apply(w, run[0].step, run[0].now, true), run[1..]);
    }
  }

  /** Bytes in flight of an open request are reported only once its first token is in, as the streaming wrapper does. */
  ghost predicate BytesAfterFirst(w: World, run: seq<Event>)
    requires CanRun(w, run, true)
    decreases |run|
  {
    run != [] ==>
      var s := run[0].step;
      && (s.Bytes? ==> w.trackers[s.i].finished || w.trackers[s.i].firstToken.Some? || s.total == 0)
      && BytesAfterFirst(Apply(w, s, run[0].now, true), run[1..])
  }

  /** That order keeps every retarget harmless, so every run of the gateway has exact gauges. */
  lemma {:induction false} StreamingIsGuarded(w: World, run: seq<Event>)
    requires CanRun(w, run, true) && BytesAfterFirst(w, run)
    requires forall i :: 0 <= i < |w.trackers| && w.trackers[i].inflight > 0 ==> w.trackers[i].firstToken.Some?
    ensures AllGuarded(w, run)
    decreases |run|
  {
    if run != [] {
      var s, now := run[0].step, run[0].now;
      hide Retarget, FirstToken, Finish, AddInflight, Dispatch, Resolve;
      StreamingIsGuarded(Apply(w, s, now, true), run[1..]);
    }
  }

  /** A retarget that breaks the guard strands the bytes: the old key shows them with no tracker to remove them. */
  lemma BytesAreStranded(w: World, i: nat, key: Key, now: real)
    requires Exact(w) && Whole(w.keys) && i < |w.trackers| && !Guard(w, Move(i, key))
    ensures var w', left := Apply(w, Move(i, key), now, true), w.trackers[i].key;
            Shown(w'.keys, left, Inflight) == Sum(w'.trackers, left, Inflight) + w.trackers[i].inflight
  {
    var t := w.trackers[i];
    ClampsNeverFire(w, Move(i, key), now);
    OpenKeyPresent(w, i);
    MoveShows(w.keys, t, key, now, t.key, Inflight);
    SumSet(w.trackers, i, t.(key := Resolve(w.keys, key)), t.key, Inflight);
    hide Retarget, Sum;
    assert Shown(w.keys, t.key, Inflight) == Sum(w.trackers, t.key, Inflight);
  }

  /** Such a run: dispatch, report ten bytes, retarget before the first token. */
  lemma EarlyBytesBreakGauges()
    ensures var a, b := Key("s", "openai", "a"), Key("s", "openai", "b");
            var run := [Event(Start(a), 0.0), Event(Bytes(0, 10), 0.0), Event(Move(0, b), 0.0)];
            var w := World(map[], []);
            Exact(w) && CanRun(w, run, true) && !AlwaysExact(w, run)
  {
    var a, b := Key("s", "openai", "a"), Key("s", "openai", "b");
    var w0 := World(map[], []);
    var w1 := Apply(w0, Start(a), 0.0, true);
    var w2 := Apply(w1, Bytes(0, 10), 0.0, true);
    var rest := [Event(Bytes(0, 10), 0.0), Event(Move(0, b), 0.0)];
    var run := [Event(Start(a), 0.0)] + rest;
    assert run == [Event(Start(a), 0.0), Event(Bytes(0, 10), 0.0), Event(Move(0, b), 0.0)];
    FirstSteps(a, b);
    assert rest[1..] == [Event(Move(0, b), 0.0)] && run[1..] == rest && rest[1..][1..] == [];
    hide Apply, Exact, Guard;
    assert CanRun(w2, rest[1..], true);
    assert CanRun(w1, rest, true);
    GaugesExact(w0, run);
    assert !AllGuarded(w2, rest[1..]);
    assert !AllGuarded(w1, rest);
  }

  lemma FirstSteps(a: Key, b: Key)
    requires a.server == b.server && a != b
    ensures var w0 := World(map[], []);
            && Exact(w0) && Possible(w0, Start(a))
            && var w1 := Apply(w0, Start(a), 0.0, true);
            && Possible(w1, Bytes(0, 10))
            && var w2 := Apply(w1, Bytes(0, 10), 0.0, true);
            && Possible(w2, Move(0, b)) && !Guard(w2, Move(0, b))
            && Possible(Apply(w2, Move(0, b), 0.0, true), Snapshot)
  {
    var w0 := World(map[], []);
    EmptyDispatch(a);
    NothingToCount();
    hide Dispatch, AddTo, Sec, Withdrawn;
    var w1 := Apply(w0, Start(a), 0.0, true);
    assert Resolve(w0.keys, a) == a by { EmptyResolve(a); }
    assert w1.keys.Keys == {a} && w1.trackers == [Tracker(a, 0.0, None, false, 0)];
    AddInflightKeys(w1.keys, a, 10, 0.0);
    hide AddInflight;
    var w2 := Apply(w1, Bytes(0, 10), 0.0, true);
    assert w2.keys.Keys == {a} && w2.trackers == [Tracker(a, 0.0, None, false, 10)];
    WritesWhole(w2.keys, a, 0.0, true);
    hide Retarget;
    OneKeyResolves(w2.keys, a, b);
    hide Resolve;
    assert Moves(w2.keys, w2.trackers[0], b);
    MoveWhole(w2.keys, w2.trackers[0], b, 0.0);
  }

  lemma EmptyDispatch(a: Key)
    ensures Dispatch(map[], a, 0.0).Keys == {a} && Whole(Dispatch(map[], a, 0.0))
  {
    EmptyResolve(a);
    WritesWhole(map[], a, 0.0, true);
    hide AddTo, Sec, Resolve;
    assert EvictIdle(map[], 0.0) == map[];
  }

  lemma EmptyResolve(a: Key)
    ensures Resolve(map[], a) == a
  {
    assert KeysOf(map[], a.server) == {};
  }

  lemma NothingToCount()
    ensures Exact(World(map[], []))
  {
  }

  lemma AddInflightKeys(keys: Keys, key: Key, delta: int, now: real)
    requires Whole(keys) && key in keys
    ensures AddInflight(keys, key, delta, now, true).Keys == keys.Keys
            && Whole(AddInflight(keys, key, delta, now, true))
  {
  }

  lemma OneKeyResolves(keys: Keys, a: Key, b: Key)
    requires keys.Keys == {a}
    ensures Resolve(keys, b) == b
  {
    SmallerSet(KeysOf(keys, b.server), {a});
  }

  lemma MoveWhole(keys: Keys, t: Tracker, key: Key, now: real)
    requires Whole(keys)
    ensures Whole(MoveTracker(keys, t, key, now, true).0)
  {
    hide Dispatch, Withdraw;
    WritesWhole(keys, t.key, now, true);
    WritesWhole(Withdraw(keys, t.key, now, true), Resolve(keys, key), now, true);
  }

  /** Finishing a tracker again changes nothing, nor does any later step on it. */
  lemma FinishIsFinal(w: World, s: Step, now: real)
    requires Possible(w, s) && !s.Start? && !s.Snapshot? && w.trackers[s.i].finished
    ensures Apply(w, s, now, true) == w
  {
    assert w.trackers[s.i := w.trackers[s.i]] == w.trackers;
  }

  // ------------------------------------------------------------------ the bound on keys

  /** A server's keys whose model is not the overflow model. */
  function Named(keys: Keys, server: string): set<Key> {
    set k | k in keys && k.server == server && k.model != "other"
  }

  ghost predicate Bounded(keys: Keys) {
    forall server :: |Named(keys, server)| <= MAX_MODELS_PER_SERVER
  }

  lemma EvictBounded(keys: Keys, now: real)
    requires Bounded(keys)
    ensures Bounded(EvictIdle(keys, now))
  {
    forall server ensures |Named(EvictIdle(keys, now), server)| <= MAX_MODELS_PER_SERVER {
      SmallerSet(Named(EvictIdle(keys, now), server), Named(keys, server));
    }
  }

  /** Making the state of a resolved key adds a named key only to a server with fewer than 200 keys. */
  lemma MakeBounded(keys: Keys, key: Key, st: KeyState, server: string)
    requires Bounded(keys)
    ensures |Named(keys[Resolve(keys, key) := st], server)| <= MAX_MODELS_PER_SERVER
  {
    var k := Resolve(keys, key);
    if k in keys || k.model == OVERFLOW_MODEL || k.server != server {
      assert Named(keys[k := st], server) == Named(keys, server);
    } else {
      SmallerSet(Named(keys, server), KeysOf(keys, server));
      assert Named(keys[k := st], server) == Named(keys, server) + {k};
    }
  }

  /** No write makes a server's 201st named key. */
  lemma EnterBounded(keys: Keys, key: Key, now: real)
    requires Bounded(keys)
    ensures Bounded(Enter(keys, key, now)) && Bounded(EvictIdle(keys, now))
  {
    EvictBounded(keys, now);
    var ev, entered := EvictIdle(keys, now), Enter(keys, key, now);
    if key in keys {
      SameKeysBounded(keys, entered);
    } else {
      var k := Resolve(ev, key);
      forall server ensures |Named(entered, server)| <= MAX_MODELS_PER_SERVER {
        MakeBounded(ev, key, entered[k], server);
        hide Resolve, Named;
        assert entered == ev[k := entered[k]];
      }
    }
  }

  lemma SameKeysBounded(keys: Keys, others: Keys)
    requires Bounded(keys) && others.Keys == keys.Keys
    ensures Bounded(others)
  {
    forall server ensures |Named(others, server)| <= MAX_MODELS_PER_SERVER {
      assert Named(others, server) == Named(keys, server);
    }
  }

  lemma DispatchBounded(keys: Keys, key: Key, now: real)
    requires Whole(keys) && Bounded(keys)
    ensures Bounded(Dispatch(keys, key, now)) && Whole(Dispatch(keys, key, now))
  {
    WritesWhole(keys, key, now, true);
    EnterBounded(keys, key, now);
    hide Bounded, Enter, AddTo, Sec;
    SameKeysBounded(Enter(keys, key, now), Dispatch(keys, key, now));
  }

  lemma WithdrawBounded(keys: Keys, key: Key, now: real)
    requires Whole(keys) && Bounded(keys)
    ensures Bounded(Withdraw(keys, key, now, true)) && Whole(Withdraw(keys, key, now, true))
  {
    WritesWhole(keys, key, now, true);
    EnterBounded(keys, key, now);
    hide Bounded, Enter, AddTo, Sec, Withdrawn;
    SameKeysBounded(Enter(keys, key, now), Withdraw(keys, key, now, true));
  }

  lemma SimpleBounded(keys: Keys, key: Key, wasGenerating: bool, d: Counts, delta: int, now: real)
    requires Whole(keys) && Bounded(keys)
    ensures Bounded(FirstToken(keys, key, now, true)) && Whole(FirstToken(keys, key, now, true))
    ensures Bounded(Finish(keys, key, wasGenerating, d, now, true))
            && Whole(Finish(keys, key, wasGenerating, d, now, true))
    ensures Bounded(AddInflight(keys, key, delta, now, true)) && Whole(AddInflight(keys, key, delta, now, true))
  {
    EnterWhole(keys, key, now);
    EnterBounded(keys, key, now);
    hide Bounded, Enter, AddTo, Sec;
    SameKeysBounded(Enter(keys, key, now), FirstToken(keys, key, now, true));
    SameKeysBounded(Enter(keys, key, now), Finish(keys, key, wasGenerating, d, now, true));
    SameKeysBounded(Enter(keys, key, now), AddInflight(keys, key, delta, now, true));
  }

  lemma StepBounded(w: World, s: Step, now: real)
    requires Possible(w, s) && Bounded(w.keys)
    ensures Bounded(Apply(w, s, now, true).keys) && Whole(Apply(w, s, now, true).keys)
  {
    hide Bounded, Whole, Dispatch, Withdraw, FirstToken, Finish, AddInflight, Resolve;
    match s
    case Start(key) => DispatchBounded(w.keys, Resolve(w.keys, key), now);
    case Move(i, key) =>
      var t := w.trackers[i];
      WithdrawBounded(w.keys, t.key, now);
      DispatchBounded(Withdraw(w.keys, t.key, now, true), Resolve(w.keys, key), now);
    case First(i) => SimpleBounded(w.keys, w.trackers[i].key, true, ZERO, 0, now);
    case Bytes(i, total) => SimpleBounded(w.keys, w.trackers[i].key, true, ZERO, total - w.trackers[i].inflight, now);
    case Done(i, failed, tokens) =>
      var t, d := w.trackers[i], FinishCounts(failed, tokens);
      SimpleBounded(w.keys, t.key, t.firstToken.Some?, d, 0, now);
      SimpleBounded(Finish(w.keys, t.key, t.firstToken.Some?, d, now, true), t.key, true, ZERO, 0 - t.inflight, now);
    case Snapshot =>
      EnterWhole(w.keys, Key("", "", ""), now);
      EnterBounded(w.keys, Key("", "", ""), now);
  }

  lemma {:induction false} StaysBounded(w: World, run: seq<Event>)
    requires CanRun(w, run, true) && Bounded(w.keys)
    ensures Bounded(After(w, run, true).keys)
    decreases |run|
  {
    hide Bounded, Apply;
    if run != [] {
      StepBounded(w, run[0].step, run[0].now);
      StaysBounded(Apply(w, run[0].step, run[0].now, true), run[1..]);
    }
  }

  /** In every run from an empty store, each server keeps at most 200 keys with a model of their own. */
  lemma KeysBounded(run: seq<Event>, server: string)
    requires CanRun(World(map[], []), run, true)
    ensures |Named(After(World(map[], []), run, true).keys, server)| <= 200
  {
    hide Named, After, CanRun, Apply;
    EmptyBounded();
    StaysBounded(World(map[], []), run);
  }

  /** A request is accounted under its own key until its server has 200, then under the one named "other". */
  lemma ResolveMeans(keys: Keys, key: Key, others: set<Key>)
    requires forall k :: k in others <==> k in keys && k.server == key.server
    ensures Resolve(keys, key)
            == if key in keys || |others| < 200 then key else Key(key.server, key.kind, "other")
  {
    assert others == KeysOf(keys, key.server);
  }

  /** A key is evicted just when it has been left alone for more than 120 s and shows nothing open. */
  lemma EvictMeans(keys: Keys, k: Key, now: real)
    ensures var kept := EvictIdle(keys, now);
            && (k in kept <==> k in keys && (now <= keys[k].lastActive + 120.0 || keys[k].waiting != 0
                                             || keys[k].generating != 0 || keys[k].inflight != 0))
            && (k in kept ==> kept[k] == keys[k])
  {
  }

  /** Seconds are counted by truncating the clock toward zero. */
  lemma SecMeans(now: real)
    ensures now >= 0.0 ==> Sec(now) as real <= now < Sec(now) as real + 1.0
    ensures now < 0.0 ==> Sec(now) as real - 1.0 < now <= Sec(now) as real
  {
  }

  lemma EmptyBounded()
    ensures Bounded(map[])
  {
    forall server ensures |Named(map[], server)| <= MAX_MODELS_PER_SERVER {
      assert Named(map[], server) == {};
    }
  }
}
