/** The Redis concurrency counter as a protocol of atomic INCR, DECR and DELETE steps. */
module RedisConcurrency {

  /** Where a worker stands between its Redis commands. */
  datatype Phase =
    | Idle
    | Rejected  // its INCR went over the limit; the compensating DECR is still to come
    | Holding   // it holds a slot
    | Emptied   // its releasing DECR found the count at or below zero; the DELETE is still to come

  datatype State = State(counter: int, workers: seq<Phase>)

  datatype Step = Incr(w: nat) | Compensate(w: nat) | Release(w: nat) | Delete(w: nat)

  ghost predicate Enabled(st: State, s: Step) {
    s.w < |st.workers| &&
    match s
    case Incr(w) => st.workers[w] == Idle
    case Compensate(w) => st.workers[w] == Rejected
    case Release(w) => st.workers[w] == Holding
    case Delete(w) => st.workers[w] == Emptied
  }

  function Move(st: State, w: nat, counter: int, phase: Phase): State
    requires w < |st.workers|
  {
    State(counter, st.workers[w := phase])
  }

  ghost function Apply(st: State, s: Step, max: int): State
    requires Enabled(st, s)
  {
    match s
    case Incr(w) =>
      var val := st.counter + 1;
      Move(st, w, val, if val > max then Rejected else Holding)
    case Compensate(w) => Move(st, w, st.counter - 1, Idle)
    case Release(w) =>
      var val := st.counter - 1;
      Move(st, w, val, if val <= 0 then Emptied else Idle)
    case Delete(w) => Move(st, w, 0, Idle)
  }

  function Count(workers: seq<Phase>, p: Phase): nat {
    if workers == [] then 0 else (if workers[0] == p then 1 else 0) + Count(workers[1..], p)
  }

  lemma {:induction false} CountMove(workers: seq<Phase>, w: nat, to: Phase, p: Phase)
    requires w < |workers|
    ensures Count(workers[w := to], p)
            == Count(workers, p) - (if workers[w] == p then 1 else 0) + (if to == p then 1 else 0)
  {
    if w > 0 {
      CountMove(workers[1..], w - 1, to, p);
      assert workers[w := to][1..] == workers[1..][w - 1 := to];
    } else {
      assert workers[w := to][1..] == workers[1..];
    }
  }

  /** The counter is the holders plus the failures not yet compensated. */
  ghost predicate Exact(st: State) {
    st.counter == Count(st.workers, Holding) + Count(st.workers, Rejected)
  }

  ghost predicate WithinLimit(st: State, max: int) {
    Count(st.workers, Holding) <= max
  }

  /** Every step but DELETE keeps the counter exact; DELETE keeps it so just when the counter is zero. */
  lemma StepExact(st: State, s: Step, max: int)
    requires Enabled(st, s) && Exact(st) && WithinLimit(st, max)
    ensures Exact(Apply(st, s, max)) <==> (s.Delete? ==> st.counter == 0)
    ensures WithinLimit(Apply(st, s, max), max)
  {
    var to := Apply(st, s, max).workers[s.w];
    CountMove(st.workers, s.w, to, Holding);
    CountMove(st.workers, s.w, to, Rejected);
  }

  // ------------------------------------------------------------------ runs

  ghost predicate IsRun(st: State, run: seq<Step>, max: int)
    decreases |run|
  {
    run == [] || (Enabled(st, run[0]) && IsRun(Apply(st, run[0], max), run[1..], max))
  }

  ghost function At(st: State, run: seq<Step>, max: int, i: nat): State
    requires IsRun(st, run, max) && i <= |run|
    decreases i
  {
    if i == 0 then st else At(Apply(st, run[0], max), run[1..], max, i - 1)
  }

  ghost predicate AlwaysExact(st: State, run: seq<Step>, max: int)
    requires IsRun(st, run, max)
  {
    forall i :: 0 <= i <= |run| ==> Exact(At(st, run, max, i))
  }

  /** No DELETE is carried out after another worker's INCR came in between. */
  ghost predicate DeletesFindZero(st: State, run: seq<Step>, max: int)
    requires IsRun(st, run, max)
  {
    forall i :: 0 <= i < |run| && run[i].Delete? ==> At(st, run, max, i).counter == 0
  }

  lemma ExactUnfolds(st: State, run: seq<Step>, max: int)
    requires IsRun(st, run, max) && run != []
    ensures var st1 := Apply(st, run[0], max);
            && (AlwaysExact(st, run, max) <==> Exact(st) && AlwaysExact(st1, run[1..], max))
            && (DeletesFindZero(st, run, max)
                <==> (run[0].Delete? ==> st.counter == 0) && DeletesFindZero(st1, run[1..], max))
  {
    hide Enabled, Exact, Apply;
    var st1, rest := Apply(st, run[0], max), run[1..];
    assert At(st, run, max, 0) == st;
    forall i | 0 <= i <= |rest| ensures At(st1, rest, max, i) == At(st, run, max, i + 1) {
    }
    if AlwaysExact(st, run, max) {
      forall i | 0 <= i <= |rest| ensures Exact(At(st1, rest, max, i)) {
        assert Exact(At(st, run, max, i + 1));
      }
    }
    if Exact(st) && AlwaysExact(st1, rest, max) {
      forall i | 0 <= i <= |run| ensures Exact(At(st, run, max, i)) {
        assert i > 0 ==> Exact(At(st1, rest, max, i - 1));
      }
    }
    if DeletesFindZero(st, run, max) {
      forall i | 0 <= i < |rest| && rest[i].Delete? ensures At(st1, rest, max, i).counter == 0 {
        assert run[i + 1].Delete?;
      }
    }
    if (run[0].Delete? ==> st.counter == 0) && DeletesFindZero(st1, rest, max) {
      forall i | 0 <= i < |run| && run[i].Delete? ensures At(st, run, max, i).counter == 0 {
        assert i > 0 ==> rest[i - 1].Delete?;
      }
    }
  }

  /**
    For any number of workers and any interleaving of single commands: the counter equals the
    holders plus the uncompensated failures in every state of the run if and only if every DELETE
    finds the counter at zero, and then the holders never exceed the limit.
   */
  lemma {:induction false} ProtocolExact(st: State, run: seq<Step>, max: int)
    requires IsRun(st, run, max) && Exact(st) && WithinLimit(st, max)
    ensures AlwaysExact(st, run, max) <==> DeletesFindZero(st, run, max)
    ensures DeletesFindZero(st, run, max) ==>
              forall i :: 0 <= i <= |run| ==> WithinLimit(At(st, run, max, i), max)
    decreases |run|
  {
    hide Exact, Enabled, Apply;
    if run != [] {
      var st1 := Apply(st, run[0], max);
      StepExact(st, run[0], max);
      ExactUnfolds(st, run, max);
      if Exact(st1) {
        ProtocolExact(st1, run[1..], max);
      } else {
        assert At(st1, run[1..], max, 0) == st1;
      }
    } else {
      assert At(st, run, max, 0) == st;
    }
  }

  /** A releasing worker's DELETE, when there is one, directly follows its DECR. */
  ghost predicate ReleasesAtomic(run: seq<Step>) {
    forall i :: 0 <= i < |run| && run[i].Delete? ==> i > 0 && run[i - 1] == Release(run[i].w)
  }

  /** With release as one step, the counter is always exact and the limit always kept. */
  lemma {:induction false} AtomicReleaseSafe(st: State, run: seq<Step>, max: int)
    requires IsRun(st, run, max) && Exact(st) && WithinLimit(st, max) && ReleasesAtomic(run)
    ensures AlwaysExact(st, run, max)
    ensures forall i :: 0 <= i <= |run| ==> WithinLimit(At(st, run, max, i), max)
  {
    AtomicDeletesFindZero(st, run, max);
    ProtocolExact(st, run, max);
  }

  lemma {:induction false} AtomicDeletesFindZero(st: State, run: seq<Step>, max: int)
    requires IsRun(st, run, max) && Exact(st) && WithinLimit(st, max)
    requires forall i :: 0 < i < |run| && run[i].Delete? ==> run[i - 1] == Release(run[i].w)
    requires run != [] && run[0].Delete? ==> st.counter == 0
    ensures DeletesFindZero(st, run, max)
    decreases |run|
  {
    hide Exact;
    if run != [] {
      var st1, rest := Apply(st, run[0], max), run[1..];
      StepExact(st, run[0], max);
      if rest != [] && rest[0].Delete? {
        assert run[1].Delete? && run[0] == Release(run[1].w);
        CounterNotNegative(st1);
      }
      AtomicDeletesFindZero(st1, rest, max);
      ExactUnfolds(st, run, max);
    }
  }

  lemma CounterNotNegative(st: State)
    requires Exact(st)
    ensures st.counter >= 0
  {
  }

  /**
    The source's release is two commands. With a limit of one, an INCR between the DECR and the
    DELETE is wiped out, and two workers hold the one slot.
   */
  lemma ReleaseRaceBreaksLimit()
    ensures var st := State(0, [Idle, Idle]);
            var run := [Incr(0), Release(0), Incr(1), Delete(0), Incr(0)];
            && IsRun(st, run, 1) && Exact(st) && WithinLimit(st, 1)
            && !WithinLimit(At(st, run, 1, 5), 1)
  {
    var st0, st1, st2 := State(0, [Idle, Idle]), State(1, [Holding, Idle]), State(0, [Emptied, Idle]);
    var st3, st4, st5 := State(1, [Emptied, Holding]), State(0, [Idle, Holding]), State(1, [Holding, Holding]);
    RaceSteps();
    RaceCounts();
    hide Enabled, Apply, IsRun, At, Count;
    EmptyRun(st5);
    FirstStep(st4, Incr(0), [], st5);
    assert [Incr(0)] + [] == [Incr(0)];
    FirstStep(st3, Delete(0), [Incr(0)], st4);
    assert [Delete(0)] + [Incr(0)] == [Delete(0), Incr(0)];
    FirstStep(st2, Incr(1), [Delete(0), Incr(0)], st3);
    assert [Incr(1)] + [Delete(0), Incr(0)] == [Incr(1), Delete(0), Incr(0)];
    FirstStep(st1, Release(0), [Incr(1), Delete(0), Incr(0)], st2);
    assert [Release(0)] + [Incr(1), Delete(0), Incr(0)] == [Release(0), Incr(1), Delete(0), Incr(0)];
    FirstStep(st0, Incr(0), [Release(0), Incr(1), Delete(0), Incr(0)], st1);
    assert [Incr(0)] + [Release(0), Incr(1), Delete(0), Incr(0)] == [Incr(0), Release(0), Incr(1), Delete(0), Incr(0)];
  }

  lemma RaceSteps()
    ensures var st0, st1, st2 := State(0, [Idle, Idle]), State(1, [Holding, Idle]), State(0, [Emptied, Idle]);
            var st3, st4, st5 := State(1, [Emptied, Holding]), State(0, [Idle, Holding]), State(1, [Holding, Holding]);
            && Enabled(st0, Incr(0)) && Apply(st0, Incr(0), 1) == st1
            && Enabled(st1, Release(0)) && Apply(st1, Release(0), 1) == st2
            && Enabled(st2, Incr(1)) && Apply(st2, Incr(1), 1) == st3
            && Enabled(st3, Delete(0)) && Apply(st3, Delete(0), 1) == st4
            && Enabled(st4, Incr(0)) && Apply(st4, Incr(0), 1) == st5
  {
  }

  lemma RaceCounts()
    ensures Count([Idle, Idle], Holding) == 0 && Count([Idle, Idle], Rejected) == 0
    ensures Count([Holding, Holding], Holding) == 2
  {
    assert [Idle, Idle][1..] == [Idle] && [Holding, Holding][1..] == [Holding];
  }

  lemma EmptyRun(st: State)
    ensures IsRun(st, [], 1) && At(st, [], 1, 0) == st
  {
  }

  /** A run is its first step and the rest; it ends where the rest ends. */
  lemma FirstStep(st: State, s: Step, rest: seq<Step>, next: State)
    requires Enabled(st, s) && Apply(st, s, 1) == next && IsRun(next, rest, 1)
    ensures IsRun(st, [s] + rest, 1) && At(st, [s] + rest, 1, |rest| + 1) == At(next, rest, 1, |rest|)
  {
    hide Enabled, Apply;
    assert ([s] + rest)[1..] == rest;
  }

  // ------------------------------------------------------------------ one uninterrupted worker

  /** The counter keys of a healthy Redis server. */
  class RedisRateLimiter {
    var counters: map<string, int>

    function Value(key: string): int
      reads this
    {
      if key in counters then counters[key] else 0
    }

    /** INCR; over the limit, DECR again. */
    method AcquireConcurrency(key: string, maxConcurrent: int) returns (acquired: bool, count: int)
      modifies this
      ensures acquired <==> maxConcurrent <= 0 || old(Value(key)) < maxConcurrent
      ensures Value(key) == old(Value(key)) + (if acquired && maxConcurrent > 0 then 1 else 0)
      ensures count == if maxConcurrent <= 0 then 0 else Value(key)
      ensures forall k :: k != key ==> Value(k) == old(Value(k))
    {
      if maxConcurrent <= 0 {
        return true, 0;
      }
      var val := Value(key) + 1;
      counters := counters[key := val];
      if val > maxConcurrent {
        counters := counters[key := Value(key) - 1];
        return false, val - 1;
      }
      return true, val;
    }

    /** DECR; at or below zero, DELETE. */
    method ReleaseConcurrency(key: string)
      modifies this
      ensures Value(key) == if old(Value(key)) > 1 then old(Value(key)) - 1 else 0
      ensures Value(key) == 0 ==> key !in counters
      ensures forall k :: k != key ==> Value(k) == old(Value(k))
    {
      var val := Value(key) - 1;
      counters := counters[key := val];
      if val <= 0 {
        counters := counters - {key};
      }
    }
  }
}
