/** The waiting and generating gauges count the open requests in every run, whatever happens to the bytes. */
module OpenGauges {
  import opened Wrappers
  import opened LiveStore
  import opened LiveGauges

  /** The number of open requests on a key that have, or have not, had their first token. */
  function OpenCount(ts: seq<Tracker>, k: Key, begun: bool): nat {
    if ts == [] then 0
    else (if ts[0].key == k && !ts[0].finished && ts[0].firstToken.Some? == begun then 1 else 0)
         + OpenCount(ts[1..], k, begun)
  }

  /** The bytes in flight of the open requests on a key. */
  function BytesOn(ts: seq<Tracker>, k: Key): nat {
    if ts == [] then 0
    else (if ts[0].key == k && !ts[0].finished then ts[0].inflight else 0) + BytesOn(ts[1..], k)
  }

  lemma {:induction false} SumsCount(ts: seq<Tracker>, k: Key)
    ensures Sum(ts, k, Waiting) == OpenCount(ts, k, false) && Sum(ts, k, Generating) == OpenCount(ts, k, true)
    ensures Sum(ts, k, Inflight) == BytesOn(ts, k)
  {
    if ts != [] {
      SumsCount(ts[1..], k);
    }
  }

  /** The waiting and generating gauges of every key are exact. */
  ghost predicate Counted(w: World) {
    forall k, g :: g != Inflight ==> Shown(w.keys, k, g) == Sum(w.trackers, k, g)
  }

  lemma CountedAt(w: World, k: Key, g: Gauge)
    requires Counted(w) && g != Inflight
    ensures Shown(w.keys, k, g) == Sum(w.trackers, k, g)
  {
    hide Shown, Sum;
  }

  /** So the key of an open request is in the table, and its gauge is not zero. */
  lemma OpenIsThere(w: World, i: nat)
    requires Counted(w) && i < |w.trackers| && !w.trackers[i].finished
    ensures var t := w.trackers[i];
            t.key in w.keys && (if t.firstToken == None then w.keys[t.key].waiting else w.keys[t.key].generating) >= 1
  {
    var t := w.trackers[i];
    var g := if t.firstToken == None then Waiting else Generating;
    SumAtLeast(w.trackers, i, t.key, g);
    CountedAt(w, t.key, g);
    hide Sum;
  }

  lemma TrackerCounted(w: World, i: nat, keys: Keys, t: Tracker)
    requires Counted(w) && i < |w.trackers|
    requires forall k, g :: g != Inflight ==>
               Shown(keys, k, g) == Shown(w.keys, k, g) - Weight(w.trackers[i], k, g) + Weight(t, k, g)
    ensures Counted(World(keys, w.trackers[i := t]))
  {
    hide Shown, Weight, Sum;
    forall k, g | g != Inflight ensures Shown(keys, k, g) == Sum(w.trackers[i := t], k, g) {
      SumSet(w.trackers, i, t, k, g);
      CountedAt(w, k, g);
    }
  }

  /** Bytes never touch the other gauges. */
  lemma BytesApart(keys: Keys, key: Key, delta: int, now: real, k: Key, g: Gauge)
    requires Whole(keys) && key in keys && g != Inflight
    ensures Shown(AddInflight(keys, key, delta, now, true), k, g) == Shown(keys, k, g)
  {
    EnterShows(keys, key, now, k, g);
  }

  lemma StartCounted(w: World, key: Key, now: real)
    requires Counted(w) && Whole(w.keys)
    ensures Counted(Apply(w, Start(key), now, true))
  {
    var w' := Apply(w, Start(key), now, true);
    var r := Resolve(w.keys, key);
    forall k, g | g != Inflight ensures Shown(w'.keys, k, g) == Sum(w'.trackers, k, g) {
      ResolveStable(w.keys, w.keys, key, now);
      DispatchShows(w.keys, r, now, k, g);
      SumAdd(w.trackers, Tracker(r, now, None, false, 0), k, g);
      CountedAt(w, k, g);
      hide Dispatch, Resolve, Target, Sum;
    }
  }

  lemma MoveCounted(w: World, i: nat, key: Key, now: real)
    requires Counted(w) && Whole(w.keys) && i < |w.trackers| && Moves(w.keys, w.trackers[i], key)
    ensures Counted(Apply(w, Move(i, key), now, true))
  {
    var t := w.trackers[i];
    OpenIsThere(w, i);
    ClampsIdle(w.keys, t.key, now, ZERO);
    hide Counted, Whole, Withdraw, Dispatch, Resolve, Shown, Sum, Weight;
    var r := MoveTracker(w.keys, t, key, now, false);
    assert MoveTracker(w.keys, t, key, now, true) == r;
    forall k, g | g != Inflight
      ensures Shown(r.0, k, g) == Shown(w.keys, k, g) - Weight(t, k, g) + Weight(r.1, k, g)
    {
      MoveShows(w.keys, t, key, now, k, g);
      MoveWeighs(t, r.1, k, g);
    }
    TrackerCounted(w, i, r.0, r.1);
  }

  lemma MoveWeighs(t: Tracker, moved: Tracker, k: Key, g: Gauge)
    requires !t.finished && t.firstToken == None && moved == t.(key := moved.key) && g != Inflight
    ensures Weight(t, k, g) == Delta(k, t.key, if g == Waiting then 1 else 0)
    ensures Weight(moved, k, g) == Delta(k, moved.key, if g == Waiting then 1 else 0)
  {
  }

  lemma FirstCounted(w: World, i: nat, now: real)
    requires Counted(w) && Whole(w.keys) && i < |w.trackers|
    requires !w.trackers[i].finished && w.trackers[i].firstToken == None
    ensures Counted(Apply(w, First(i), now, true))
  {
    var t := w.trackers[i];
    var t' := t.(firstToken := Some(now));
    OpenIsThere(w, i);
    ClampsIdle(w.keys, t.key, now, ZERO);
    hide Counted, Whole, FirstToken, Shown, Sum;
    var keys := FirstToken(w.keys, t.key, now, true);
    forall k, g | g != Inflight
      ensures Shown(keys, k, g) == Shown(w.keys, k, g) - Weight(t, k, g) + Weight(t', k, g)
    {
      FirstShows(w.keys, t.key, now, k, g);
    }
    TrackerCounted(w, i, keys, t');
  }

  lemma BytesCounted(w: World, i: nat, total: nat, now: real)
    requires Counted(w) && Whole(w.keys) && i < |w.trackers| && !w.trackers[i].finished
    ensures Counted(Apply(w, Bytes(i, total), now, true))
  {
    var t := w.trackers[i];
    OpenIsThere(w, i);
    hide Counted, Whole, AddInflight, Shown, Sum;
    if total != t.inflight {
      var keys, t' := AddInflight(w.keys, t.key, total - t.inflight, now, true), t.(inflight := total);
      forall k, g | g != Inflight
        ensures Shown(keys, k, g) == Shown(w.keys, k, g) - Weight(t, k, g) + Weight(t', k, g)
      {
        BytesApart(w.keys, t.key, total - t.inflight, now, k, g);
      }
      TrackerCounted(w, i, keys, t');
    } else {
      assert w.trackers[i := t] == w.trackers;
    }
  }

  lemma DoneCounted(w: World, i: nat, failed: bool, tokens: int, now: real)
    requires Counted(w) && Whole(w.keys) && i < |w.trackers| && !w.trackers[i].finished
    ensures Counted(Apply(w, Done(i, failed, tokens), now, true))
  {
    var t, d := w.trackers[i], FinishCounts(failed, tokens);
    OpenIsThere(w, i);
    ClampsIdle(w.keys, t.key, now, d);
    FinishWhole(w.keys, t.key, t.firstToken.Some?, d, now, true);
    hide Counted, Whole, AddInflight, Finish, FinishCounts, Shown, Sum;
    var closed := Finish(w.keys, t.key, t.firstToken.Some?, d, now, true);
    var r := DoneTracker(w.keys, t, failed, tokens, now, true);
    forall k, g | g != Inflight
      ensures Shown(r.0, k, g) == Shown(w.keys, k, g) - Weight(t, k, g) + Weight(r.1, k, g)
    {
      FinishShows(w.keys, t.key, t.firstToken.Some?, d, now, k, g);
      if t.inflight != 0 {
        BytesApart(closed, t.key, 0 - t.inflight, now, k, g);
      }
    }
    TrackerCounted(w, i, r.0, r.1);
  }

  lemma SnapshotCounted(w: World, now: real)
    requires Counted(w)
    ensures Counted(World(EvictIdle(w.keys, now), w.trackers))
  {
    forall k, g | g != Inflight ensures Shown(EvictIdle(w.keys, now), k, g) == Sum(w.trackers, k, g) {
      EnterShows(w.keys, k, now, k, g);
      CountedAt(w, k, g);
    }
  }

  lemma StepCounted(w: World, s: Step, now: real)
    requires Counted(w) && Possible(w, s)
    ensures Counted(Apply(w, s, now, true))
  {
    match s
    case Start(key) => StartCounted(w, key, now);
    case Snapshot => SnapshotCounted(w, now);
    case Move(i, key) =>
      hide Counted, Resolve, Retarget;
      if Moves(w.keys, w.trackers[i], key) { MoveCounted(w, i, key, now); } else { SameTracker(w, i); }
    case First(i) =>
      hide Counted, FirstToken;
      if w.trackers[i].finished || w.trackers[i].firstToken.Some? {
        SameTracker(w, i);
      } else {
        FirstCounted(w, i, now);
      }
    case Bytes(i, total) =>
      hide Counted, AddInflight;
      if w.trackers[i].finished { SameTracker(w, i); } else { BytesCounted(w, i, total, now); }
    case Done(i, failed, tokens) =>
      hide Counted, Finish, AddInflight;
      if w.trackers[i].finished { SameTracker(w, i); } else { DoneCounted(w, i, failed, tokens, now); }
  }

  lemma SameTracker(w: World, i: nat)
    requires i < |w.trackers|
    ensures SetTracker(w, i, (w.keys, w.trackers[i])) == w
  {
    assert w.trackers[i := w.trackers[i]] == w.trackers;
  }

  /** In every state of every run from an empty store. */
  lemma {:induction false} RunCounted(w: World, run: seq<Event>)
    requires CanRun(w, run, true) && Counted(w)
    ensures Counted(After(w, run, true))
    decreases |run|
  {
    hide Counted, Apply, Possible;
    if run != [] {
      StepCounted(w, run[0].step, run[0].now);
      RunCounted(Apply(w, run[0].step, run[0].now, true), run[1..]);
    }
  }

  /**
    After any run from an empty store, guarded or not, every key shows as waiting the number of its
    open requests without a first token, and as generating the number of those with one; and the key
    of an open request is in the table.
   */
  lemma GaugesCountOpen(run: seq<Event>, k: Key)
    requires CanRun(World(map[], []), run, true)
    ensures var w := After(World(map[], []), run, true);
            && (k in w.keys ==> w.keys[k].waiting == OpenCount(w.trackers, k, false)
                                && w.keys[k].generating == OpenCount(w.trackers, k, true))
            && (k !in w.keys ==> OpenCount(w.trackers, k, false) == 0 == OpenCount(w.trackers, k, true))
  {
    hide After, Apply;
    var w := After(World(map[], []), run, true);
    NothingToCount();
    RunCounted(World(map[], []), run);
    CountedAt(w, k, Waiting);
    CountedAt(w, k, Generating);
    SumsCount(w.trackers, k);
    hide Sum, OpenCount;
  }

  /** In guarded runs the bytes are those of the open requests too. */
  lemma BytesCountOpen(run: seq<Event>, k: Key)
    requires CanRun(World(map[], []), run, true) && AllGuarded(World(map[], []), run)
    ensures var w := After(World(map[], []), run, true);
            k in w.keys ==> w.keys[k].inflight == BytesOn(w.trackers, k)
  {
    hide After, Apply, AllGuarded, AlwaysExact;
    var w := After(World(map[], []), run, true);
    NothingToCount();
    GaugesExact(World(map[], []), run);
    EndsExact(World(map[], []), run);
    assert Shown(w.keys, k, Inflight) == Sum(w.trackers, k, Inflight);
    SumsCount(w.trackers, k);
    hide Sum, BytesOn;
  }
}
