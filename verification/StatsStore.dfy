/** The live statistics store as an object that its writes update in place. */
module StatsStore {
  import opened Wrappers
  import opened LiveStore
  import opened MinuteRollups
  import LiveRing

  /** The minute bucket of a live key. */
  function MinuteOf(minute: int, key: Key): MinuteKey { MinuteKey(minute, key.server, key.model) }

  /** What a retarget does to the minute buckets. */
  function Moved(t: Table, left: MinuteKey, taken: MinuteKey): Table {
    Credit(Credit(t, left, GivenUp(t, left)), taken, ONE_REQUEST)
  }

  /** What a finish adds to the current second. */
  function CountsOf(f: Figures): Counts { FinishCounts(!f.success && !f.cancelled, f.outputTokens) }

  /** One row of a snapshot, before any rounding. */
  datatype Row = Row(requests10: int, last60: Counts, waiting: int, generating: int, inflight: int)

  function RowOf(st: KeyState, now: real): Row {
    Row(LiveRing.Window(st.ring, now, 10).requests, LiveRing.Window(st.ring, now, WINDOW_S),
        st.waiting, st.generating, st.inflight)
  }

  /** A row is left out when nothing was dispatched in the last minute and nothing is open. */
  predicate Listed(r: Row) {
    r.last60.requests != 0 || r.waiting != 0 || r.generating != 0 || r.inflight != 0
  }

  class LiveStats {
    var keys: Keys
    var minutes: Table

    constructor ()
      ensures Valid() && keys == map[] && minutes == map[]
    {
      keys, minutes := map[], map[];
    }

    ghost predicate Valid()
      reads this
    {
      Whole(keys)
    }

    // ---------------------------------------------------------------- helpers

    /** The key itself, or the server's overflow key once the server has 200 keys. */
    method Resolve(key: Key) returns (k: Key)
      ensures k == LiveStore.Resolve(keys, key)
    {
      if key in keys {
        return key;
      }
      var n, todo := 0, keys.Keys;
      ghost var counted: set<Key> := {};
      while todo != {}
        invariant todo <= keys.Keys
        invariant counted == (set o | o in keys && o !in todo && o.server == key.server)
        invariant n == |counted|
      {
        var o :| o in todo;
        todo := todo - {o};
        if o.server == key.server {
          n := n + 1;
          counted := counted + {o};
        }
      }
      assert counted == KeysOf(keys, key.server);
      k := if n >= MAX_MODELS_PER_SERVER then key.(model := OVERFLOW_MODEL) else key;
    }

    /** Delete every key that is idle. */
    method DropIdle(now: real)
      requires Valid()
      modifies `keys
      ensures Valid() && keys == EvictIdle(old(keys), now)
    {
      var todo := keys.Keys;
      while todo != {}
        invariant todo <= old(keys).Keys
        invariant keys == map k | k in old(keys) && (k in todo || !Idle(old(keys)[k], now)) :: old(keys)[k]
      {
        var k :| k in todo;
        todo := todo - {k};
        if Idle(keys[k], now) {
          keys := keys - {k};
        }
      }
    }

    /** Find or make the state a write touches. */
    method StateOf(key: Key, now: real) returns (k: Key)
      requires Valid()
      modifies `keys
      ensures Valid() && k == Target(old(keys), key, now) && keys == Enter(old(keys), key, now)
      ensures k in keys
    {
      hide Idle, LiveStore.Resolve;
      k := key;
      if key !in keys {
        DropIdle(now);
        k := Resolve(key);
        if k !in keys {
          keys := keys[k := Fresh(now)];
        }
      }
      keys := keys[k := keys[k].(lastActive := now)];
    }

    /** Add to the bucket of the current second, resetting it first if its slot holds another second. */
    method Count(k: Key, now: real, d: Counts)
      requires Valid() && k in keys
      modifies `keys
      ensures Valid() && keys == old(keys)[k := old(keys)[k].(ring := AddTo(old(keys)[k].ring, Sec(now), d))]
    {
      hide Sec, Plus;
      var sec := Sec(now);
      var b := keys[k].ring[sec % WINDOW_S];
      if b.sec != sec {
        b := Bucket(sec, ZERO);
      }
      keys := keys[k := keys[k].(ring := keys[k].ring[sec % WINDOW_S := b.(n := Plus(b.n, d))])];
    }

    // ---------------------------------------------------------------- writes

    method Dispatch(key: Key, now: real, minute: int)
      requires Valid()
      modifies this
      ensures Valid() && keys == LiveStore.Dispatch(old(keys), key, now)
      ensures minutes == Credit(old(minutes), MinuteOf(minute, key), ONE_REQUEST)
    {
      hide Enter, Target, AddTo, Sec, Add;
      var k := StateOf(key, now);
      keys := keys[k := keys[k].(waiting := keys[k].waiting + 1)];
      Count(k, now, Counts(1, 0, 0));
      minutes := Credit(minutes, MinuteOf(minute, key), ONE_REQUEST);
    }

    /** Move a waiting request from one key to another. */
    method Retarget(left: Key, taken: Key, now: real, minute: int)
      requires Valid()
      modifies this
      ensures Valid() && keys == LiveStore.Retarget(old(keys), left, taken, now, true)
      ensures minutes == if left == taken then old(minutes)
                         else Moved(old(minutes), MinuteOf(minute, left), MinuteOf(minute, taken))
    {
      hide Enter, Target, AddTo, Sec, Add, LiveStore.Dispatch, Withdrawn, Current;
      if left == taken {
        return;
      }
      var k := StateOf(left, now);
      keys := keys[k := keys[k].(waiting := Floor0(true, keys[k].waiting - 1))];
      Count(k, now, Withdrawn(keys[k].ring, Sec(now)));
      assert keys == Withdraw(old(keys), left, now, true);
      hide Withdraw;
      minutes := Credit(minutes, MinuteOf(minute, left), GivenUp(minutes, MinuteOf(minute, left)));
      Dispatch(taken, now, minute);
    }

    method FirstToken(key: Key, now: real)
      requires Valid()
      modifies `keys
      ensures Valid() && keys == LiveStore.FirstToken(old(keys), key, now, true)
    {
      hide Enter, Target;
      var k := StateOf(key, now);
      if keys[k].waiting > 0 {
        keys := keys[k := keys[k].(waiting := keys[k].waiting - 1)];
      }
      keys := keys[k := keys[k].(generating := keys[k].generating + 1)];
    }

    method Finish(key: Key, wasGenerating: bool, f: Figures, now: real, minute: int)
      requires Valid()
      modifies this
      ensures Valid() && keys == LiveStore.Finish(old(keys), key, wasGenerating, CountsOf(f), now, true)
      ensures minutes == Credit(old(minutes), MinuteOf(minute, key), Share(f))
    {
      hide Enter, Target, AddTo, Sec, Add, Share, CountsOf;
      var k := StateOf(key, now);
      if wasGenerating {
        keys := keys[k := keys[k].(generating := Floor0(true, keys[k].generating - 1))];
      } else {
        keys := keys[k := keys[k].(waiting := Floor0(true, keys[k].waiting - 1))];
      }
      Count(k, now, CountsOf(f));
      minutes := Credit(minutes, MinuteOf(minute, key), Share(f));
    }

    method AddInflightBytes(key: Key, delta: int, now: real)
      requires Valid()
      modifies `keys
      ensures Valid() && keys == AddInflight(old(keys), key, delta, now, true)
    {
      hide Enter, Target;
      var k := StateOf(key, now);
      keys := keys[k := keys[k].(inflight := Floor0(true, keys[k].inflight + delta))];
    }

    method DrainMinuteRollups() returns (rows: Table)
      modifies `minutes
      ensures rows == old(minutes) && minutes == map[]
    {
      rows := minutes;
      minutes := map[];
    }
  }

  // ------------------------------------------------------------------ reads

  /** Add up the buckets whose second falls in the last `span` seconds. */
  method WindowSum(ring: seq<Bucket>, now: real, span: int) returns (sum: Counts)
    ensures sum == LiveRing.Window(ring, now, span)
  {
    hide Plus, Sec;
    var cur := Sec(now);
    var cutoff := cur - span;
    sum := ZERO;
    LiveRing.PlusLaws(LiveRing.WindowFrom(ring, cutoff, cur, 0), ZERO, ZERO);
    for i := 0 to |ring|
      invariant Plus(sum, LiveRing.WindowFrom(ring, cutoff, cur, i)) == LiveRing.Window(ring, now, span)
    {
      ghost var rest := LiveRing.WindowFrom(ring, cutoff, cur, i + 1);
      LiveRing.PlusLaws(sum, ring[i].n, rest);
      LiveRing.PlusLaws(rest, ZERO, ZERO);
      if cutoff < ring[i].sec <= cur {
        sum := Plus(sum, ring[i].n);
      }
    }
    LiveRing.PlusLaws(sum, ZERO, ZERO);
  }

  /** The 60 points of a key's history and the totals of its summary: in an orderly ring, they add up. */
  method History(ring: seq<Bucket>, now: real) returns (points: seq<Counts>, totals: Counts)
    requires |ring| == WINDOW_S
    ensures points == LiveRing.Points(ring, Sec(now) - WINDOW_S, Sec(now)) && |points| == WINDOW_S
    ensures totals == LiveRing.Window(ring, now, WINDOW_S)
    ensures LiveRing.Orderly(ring, Sec(now)) ==> LiveRing.Total(points) == totals
  {
    hide LiveRing.Orderly, LiveRing.Total, Plus, Sec;
    var cur := Sec(now);
    totals := WindowSum(ring, now, WINDOW_S);
    points := [];
    for s := cur - 59 to cur + 1
      invariant |points| == s - (cur - 59)
      invariant points == LiveRing.Points(ring, cur - WINDOW_S, s - 1)
    {
      var b := ring[s % WINDOW_S];
      points := points + [if b.sec == s then b.n else ZERO];
    }
    if LiveRing.Orderly(ring, cur) {
      LiveRing.SeriesAddsUp(ring, cur, cur - WINDOW_S, cur);
    }
  }

  /** Drop idle keys, then list the others that were dispatched to lately or have anything open. */
  method Snapshot(live: LiveStats, now: real) returns (rows: map<Key, Row>)
    requires live.Valid()
    modifies live`keys
    ensures live.Valid() && live.keys == EvictIdle(old(live.keys), now)
    ensures rows == map k | k in live.keys && Listed(RowOf(live.keys[k], now)) :: RowOf(live.keys[k], now)
  {
    hide EvictIdle, Idle, LiveRing.Window;
    live.DropIdle(now);
    var keys := live.keys;
    rows := map[];
    var todo := keys.Keys;
    while todo != {}
      invariant todo <= keys.Keys && live.keys == keys
      invariant rows == map k | k in keys && k !in todo && Listed(RowOf(keys[k], now)) :: RowOf(keys[k], now)
    {
      var k :| k in todo;
      todo := todo - {k};
      var short := WindowSum(keys[k].ring, now, 10);
      var long := WindowSum(keys[k].ring, now, WINDOW_S);
      var row := Row(short.requests, long, keys[k].waiting, keys[k].generating, keys[k].inflight);
      if Listed(row) {
        rows := rows[k := row];
      }
    }
  }

  /** Drain the minute buckets and add them into the table: a flush that fails has drained them all the same. */
  method FlushTelemetryRollups(live: LiveStats, table: Table, failAt: nat) returns (after: Table, count: Option<nat>)
    modifies live`minutes
    ensures live.minutes == map[]
    ensures var rows := old(live.minutes);
            if rows == map[] || failAt > |rows.Keys| then after == AddAll(table, rows) && count == Some(|rows.Keys|)
            else after == table && count == None
  {
    hide AddAll;
    var rows := live.DrainMinuteRollups();
    after, count := FlushRows(rows, table, failAt);
  }

  /** A listed row is of a key that eviction would keep anyway: being listed never depends on it. */
  lemma ListedIsKept(keys: Keys, log: seq<LiveRing.Entry>, now: real, k: Key)
    requires LiveRing.Recorded(keys, log, now) && k in keys && Listed(RowOf(keys[k], now))
    ensures k in EvictIdle(keys, now)
  {
    hide LiveRing.Window, LiveRing.Recorded;
    LiveRing.EvictionInvisible(keys, log, now, k, WINDOW_S);
  }
}
