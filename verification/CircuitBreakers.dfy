/** The per-URL circuit breaker. */
module CircuitBreakers {

  const FAILURE_THRESHOLD := 5
  const RECOVERY_TIMEOUT := 30.0

  datatype Mode = Closed | Open | HalfOpen

  datatype Circuit = Circuit(failures: int, mode: Mode, lastFailure: real)

  /** A call on the breaker; `Succeed` reads no clock. */
  datatype Call = Ask(url: string, now: real) | Succeed(url: string) | Fail(url: string, now: real)

  type Circuits = map<string, Circuit>

  function Get(circuits: Circuits, url: string): Circuit {
    if url in circuits then circuits[url] else Circuit(0, Closed, 0.0)
  }

  /** The circuit asked about after `is_open`, which may turn an old open circuit half-open. */
  function Asked(c: Circuit, now: real): Circuit {
    if c.mode == Open && now - c.lastFailure > RECOVERY_TIMEOUT then c.(mode := HalfOpen) else c
  }

  function Failed(c: Circuit, now: real): Circuit {
    Circuit(c.failures + 1,
            if c.failures + 1 >= FAILURE_THRESHOLD && c.mode != Open then Open else c.mode,
            now)
  }

  function Step(circuits: Circuits, call: Call): Circuits {
    var c := Get(circuits, call.url);
    match call
    case Ask(url, now) => circuits[url := Asked(c, now)]
    case Succeed(url) => circuits[url := c.(failures := 0, mode := Closed)]
    case Fail(url, now) => circuits[url := Failed(c, now)]
  }

  /** The breaker after a history of calls. */
  function After(history: seq<Call>): Circuits {
    if history == [] then map[] else Step(After(history[..|history| - 1]), history[|history| - 1])
  }

  // ------------------------------------------------------------------ the history read directly

  /** Failures of `url` since its last success. */
  function Trailing(history: seq<Call>, url: string): nat {
    if history == [] then 0 else
    var last, before := history[|history| - 1], history[..|history| - 1];
    if last.url != url || last.Ask? then Trailing(before, url)
    else if last.Fail? then Trailing(before, url) + 1
    else 0
  }

  /** When `url` last failed; zero if it never did. */
  function LastFailure(history: seq<Call>, url: string): real {
    if history == [] then 0.0 else
    var last := history[|history| - 1];
    if last.url == url && last.Fail? then last.now else LastFailure(history[..|history| - 1], url)
  }

  /** The latest clock reading of a history, and `from` before there is any. */
  function Clock(history: seq<Call>, from: real): real {
    if history == [] then from else
    var last := history[|history| - 1];
    if last.Succeed? then Clock(history[..|history| - 1], from) else last.now
  }

  /** Clock readings never go back. */
  ghost predicate Timed(history: seq<Call>, from: real) {
    history == [] ||
    var last, before := history[|history| - 1], history[..|history| - 1];
    Timed(before, from) && (last.Succeed? || Clock(before, from) <= last.now)
  }

  /** At least five failures since the last success, the latest at most 30 s old. */
  predicate Tripped(history: seq<Call>, url: string, now: real) {
    Trailing(history, url) >= FAILURE_THRESHOLD && now - LastFailure(history, url) <= RECOVERY_TIMEOUT
  }

  /** What the circuit of `url` records of a history that ends at time `now`. */
  ghost predicate Records(c: Circuit, history: seq<Call>, url: string, now: real) {
    && c.failures == Trailing(history, url)
    && c.lastFailure == LastFailure(history, url)
    && (c.mode == Closed <==> Trailing(history, url) < FAILURE_THRESHOLD)
    && (c.mode == HalfOpen ==> now - c.lastFailure > RECOVERY_TIMEOUT)
  }

  /**
    The breaker is a function of history: after any calls, `failures` is the number of failures
    since the last success, the circuit is closed exactly when that is below five, and half-open
    only when the last failure is more than 30 s old.
   */
  lemma {:induction false} BreakerIsHistory(history: seq<Call>, url: string, from: real)
    requires Timed(history, from)
    ensures Records(Get(After(history), url), history, url, Clock(history, from))
  {
    if history != [] {
      BreakerIsHistory(history[..|history| - 1], url, from);
    }
  }

  /** `is_open` answers true exactly when the history has tripped the circuit. */
  lemma OpenIsTripped(history: seq<Call>, url: string, from: real, now: real)
    requires Timed(history, from) && Clock(history, from) <= now
    ensures Asked(Get(After(history), url), now).mode == Open <==> Tripped(history, url, now)
  {
    BreakerIsHistory(history, url, from);
  }

  /** A circuit that five failures or more have opened stays so for just 30 s after the last of them. */
  lemma OpenForThirtySeconds(history: seq<Call>, url: string, at: real, now: real)
    requires at <= now
    ensures Tripped(history + [Fail(url, at)], url, now) <==> Trailing(history, url) >= 4 && now <= at + 30.0
  {
    assert (history + [Fail(url, at)])[..|history|] == history;
  }

  lemma AfterGrows(history: seq<Call>, call: Call, from: real)
    ensures After(history + [call]) == Step(After(history), call)
    ensures Clock(history + [call], from) == if call.Succeed? then Clock(history, from) else call.now
    ensures Timed(history + [call], from)
            <==> Timed(history, from) && (call.Succeed? || Clock(history, from) <= call.now)
  {
    assert (history + [call])[..|history|] == history;
  }

  lemma ReachedLater(cb: CircuitBreaker, now: real, later: real)
    requires cb.Reached(now) && now <= later
    ensures cb.Reached(later)
  {
  }

  // ------------------------------------------------------------------ the breaker object

  class CircuitBreaker {
    var circuits: Circuits
    ghost var history: seq<Call>
    ghost const from: real

    ghost predicate Valid()
      reads this
    {
      circuits == After(history) && Timed(history, from)
    }

    /** The clock has reached `now`. */
    ghost predicate Reached(now: real)
      reads this
    {
      Clock(history, from) <= now
    }

    constructor (ghost now: real)
      ensures Valid() && history == [] && from == now
    {
      circuits, history, from := map[], [], now;
    }

    method IsOpen(url: string, now: real) returns (open: bool)
      requires Valid() && Reached(now)
      modifies this
      ensures Valid() && history == old(history) + [Ask(url, now)] && Reached(now)
      ensures open <==> Tripped(old(history), url, now)
    {
      OpenIsTripped(history, url, from, now);
      var c := Get(circuits, url);
      if c.mode == Open {
        if now - c.lastFailure > RECOVERY_TIMEOUT {
          c := c.(mode := HalfOpen);
          open := false;
        } else {
          open := true;
        }
      } else {
        open := false;
      }
      AfterGrows(history, Ask(url, now), from);
      circuits := circuits[url := c];
      history := history + [Ask(url, now)];
    }

    method RecordSuccess(url: string)
      requires Valid()
      modifies this
      ensures Valid() && history == old(history) + [Succeed(url)]
      ensures forall now :: old(Reached(now)) ==> Reached(now)
    {
      AfterGrows(history, Succeed(url), from);
      circuits := circuits[url := Get(circuits, url).(failures := 0, mode := Closed)];
      history := history + [Succeed(url)];
    }

    method RecordFailure(url: string, now: real)
      requires Valid() && Reached(now)
      modifies this
      ensures Valid() && history == old(history) + [Fail(url, now)] && Reached(now)
    {
      hide Trailing, LastFailure, Tripped;
      var c := Get(circuits, url);
      c := c.(failures := c.failures + 1, lastFailure := now);
      if c.failures >= FAILURE_THRESHOLD && c.mode != Open {
        c := c.(mode := Open);
      }
      assert c == Failed(Get(circuits, url), now);
      AfterGrows(history, Fail(url, now), from);
      circuits := circuits[url := c];
      history := history + [Fail(url, now)];
    }
  }
}
