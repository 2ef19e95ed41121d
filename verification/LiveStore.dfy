/** The live statistics of one process, per (server, server type, model): what each write does. */
module LiveStore {

  const WINDOW_S := 60
  const IDLE_EVICT_S := 120.0
  const MAX_MODELS_PER_SERVER := 200
  const OVERFLOW_MODEL := "other"

  datatype Key = Key(server: string, kind: string, model: string)

  /** What a one-second bucket counts. */
  datatype Counts = Counts(requests: int, errors: int, tokens: int)

  const ZERO := Counts(0, 0, 0)

  function Plus(a: Counts, b: Counts): Counts {
    Counts(a.requests + b.requests, a.errors + b.errors, a.tokens + b.tokens)
  }

  datatype Bucket = Bucket(sec: int, n: Counts)

  datatype KeyState = KeyState(ring: seq<Bucket>, waiting: int, generating: int, inflight: int, lastActive: real)

  type Keys = map<Key, KeyState>

  /** `int(now)`: truncation toward zero. */
  function Sec(now: real): int {
    if now >= 0.0 then now.Floor else -((-now).Floor)
  }

  function Fresh(now: real): KeyState {
    KeyState(seq(WINDOW_S, _ => Bucket(-1, ZERO)), 0, 0, 0, now)
  }

  // ------------------------------------------------------------------ keys

  function KeysOf(keys: Keys, server: string): set<Key> {
    set k | k in keys && k.server == server
  }

  function Overflow(key: Key): Key { key.(model := OVERFLOW_MODEL) }

  /** The key a request is accounted under. */
  function Resolve(keys: Keys, key: Key): Key {
    if key in keys then key
    else if |KeysOf(keys, key.server)| >= MAX_MODELS_PER_SERVER then Overflow(key)
    else key
  }

  predicate Idle(st: KeyState, now: real) {
    now - st.lastActive > IDLE_EVICT_S && st.waiting == 0 && st.generating == 0 && st.inflight == 0
  }

  function EvictIdle(keys: Keys, now: real): Keys {
    map k | k in keys && !Idle(keys[k], now) :: keys[k]
  }

  /** The key whose state a write touches. */
  function Target(keys: Keys, key: Key, now: real): Key {
    if key in keys then key else Resolve(EvictIdle(keys, now), key)
  }

  /** The table once that state is found or made, and marked active. */
  function Enter(keys: Keys, key: Key, now: real): (r: Keys)
    ensures Target(keys, key, now) in r
  {
    if key in keys then keys[key := keys[key].(lastActive := now)]
    else
      var ev := EvictIdle(keys, now);
      var k := Resolve(ev, key);
      if k in ev then ev[k := ev[k].(lastActive := now)] else ev[k := Fresh(now)]
  }

  // ------------------------------------------------------------------ the ring

  /** The bucket of second `sec`, reset if its slot still holds an earlier second. */
  function Current(ring: seq<Bucket>, sec: int): Bucket
    requires |ring| == WINDOW_S
  {
    var b := ring[sec % WINDOW_S];
    if b.sec == sec then b else Bucket(sec, ZERO)
  }

  function AddTo(ring: seq<Bucket>, sec: int, d: Counts): (r: seq<Bucket>)
    requires |ring| == WINDOW_S
    ensures |r| == WINDOW_S
  {
    ring[sec % WINDOW_S := Bucket(sec, Plus(Current(ring, sec).n, d))]
  }

  predicate Whole(keys: Keys) {
    forall k :: k in keys ==> |keys[k].ring| == WINDOW_S
  }

  lemma EnterWhole(keys: Keys, key: Key, now: real)
    requires Whole(keys)
    ensures Whole(Enter(keys, key, now)) && Whole(EvictIdle(keys, now))
  {
  }

  // ------------------------------------------------------------------ writes

  /** `max(0, x)`, where the clamp can be left out to see whether it matters. */
  function Floor0(clamp: bool, x: int): int { if clamp && x < 0 then 0 else x }

  function Dispatch(keys: Keys, key: Key, now: real): Keys
    requires Whole(keys)
  {
    EnterWhole(keys, key, now);
    var k, entered := Target(keys, key, now), Enter(keys, key, now);
    var st := entered[k];
    entered[k := st.(waiting := st.waiting + 1, ring := AddTo(st.ring, Sec(now), Counts(1, 0, 0)))]
  }

  /** What a retarget subtracts from the old key's current bucket: one request, unless it holds none. */
  function Withdrawn(ring: seq<Bucket>, sec: int): Counts
    requires |ring| == WINDOW_S
  {
    var r := Current(ring, sec).n.requests;
    Counts(Floor0(true, r - 1) - r, 0, 0)
  }

  /** The first half of a retarget: the old key gives up a waiting request. */
  function Withdraw(keys: Keys, key: Key, now: real, clamp: bool): Keys
    requires Whole(keys)
  {
    EnterWhole(keys, key, now);
    var k, entered := Target(keys, key, now), Enter(keys, key, now);
    var st := entered[k];
    entered[k := st.(waiting := Floor0(clamp, st.waiting - 1),
                     ring := AddTo(st.ring, Sec(now), Withdrawn(st.ring, Sec(now))))]
  }

  lemma WritesWhole(keys: Keys, key: Key, now: real, clamp: bool)
    requires Whole(keys)
    ensures Whole(Dispatch(keys, key, now)) && Whole(Withdraw(keys, key, now, clamp))
  {
    EnterWhole(keys, key, now);
  }

  function Retarget(keys: Keys, left: Key, taken: Key, now: real, clamp: bool): Keys
    requires Whole(keys)
  {
    if left == taken then keys
    else
      WritesWhole(keys, left, now, clamp);
      Dispatch(Withdraw(keys, left, now, clamp), taken, now)
  }

  function FirstToken(keys: Keys, key: Key, now: real, clamp: bool): Keys
    requires Whole(keys)
  {
    var k, entered := Target(keys, key, now), Enter(keys, key, now);
    var st := entered[k];
    entered[k := st.(waiting := if clamp && st.waiting <= 0 then st.waiting else st.waiting - 1,
                     generating := st.generating + 1)]
  }

  /** What a finish adds to the current bucket. */
  function FinishCounts(failed: bool, tokens: int): Counts {
    Counts(0, if failed then 1 else 0, if tokens > 0 then tokens else 0)
  }

  function Finish(keys: Keys, key: Key, wasGenerating: bool, d: Counts, now: real, clamp: bool): Keys
    requires Whole(keys)
  {
    EnterWhole(keys, key, now);
    var k, entered := Target(keys, key, now), Enter(keys, key, now);
    var st := entered[k];
    var ring := AddTo(st.ring, Sec(now), d);
    entered[k := if wasGenerating then st.(generating := Floor0(clamp, st.generating - 1), ring := ring)
                 else st.(waiting := Floor0(clamp, st.waiting - 1), ring := ring)]
  }

  function AddInflight(keys: Keys, key: Key, delta: int, now: real, clamp: bool): Keys
    requires Whole(keys)
  {
    var k, entered := Target(keys, key, now), Enter(keys, key, now);
    var st := entered[k];
    entered[k := st.(inflight := Floor0(clamp, st.inflight + delta))]
  }
}
