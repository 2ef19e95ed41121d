/** Timed quarantine of (backend, model) pairs, and the fallback chain that respects it. */
module ChainFallback {
  import opened Wrappers

  const QUARANTINE_FORBIDDEN := 3600.0
  const QUARANTINE_RATE_LIMIT := 300.0
  const QUARANTINE_OVERLOADED := 60.0
  const QUARANTINE_SERVER_ERR := 30.0

  const BAD_STATUSES: set<int> := {429, 500, 502, 503, 504}

  datatype Pair = Pair(backend: string, model: string)

  /** A quarantine set until `expiry`, a look-up at `now`, or a manual clearing. */
  datatype Call = Put(pair: Pair, expiry: real, now: real) | Look(pair: Pair, now: real) | Clear(pair: Pair)

  /** The expiry last set for `p` and not cleared since. */
  function LastPut(history: seq<Call>, p: Pair): Option<real> {
    if history == [] then None else
    var last := history[|history| - 1];
    if last.Put? && last.pair == p then Some(last.expiry)
    else if last.Clear? && last.pair == p then None
    else LastPut(history[..|history| - 1], p)
  }

  function Clock(history: seq<Call>): real {
    if history == [] then 0.0 else
    var last := history[|history| - 1];
    if last.Clear? then Clock(history[..|history| - 1]) else last.now
  }

  /** `p` was last quarantined until after `now`. */
  predicate InForce(history: seq<Call>, p: Pair, now: real) {
    var e := LastPut(history, p);
    e.Some? && e.value > now
  }

  lemma HistoryGrows(history: seq<Call>, call: Call, p: Pair)
    ensures Clock(history + [call]) == if call.Clear? then Clock(history) else call.now
    ensures LastPut(history + [call], p)
            == if call.Put? && call.pair == p then Some(call.expiry)
               else if call.Clear? && call.pair == p then None
               else LastPut(history, p)
  {
    assert (history + [call])[..|history|] == history;
  }

  /** What the entry table must know of `p`: the last expiry set, or nothing once it has passed. */
  ghost predicate Agrees(entries: map<Pair, real>, history: seq<Call>, p: Pair) {
    if p in entries then LastPut(history, p) == Some(entries[p])
    else !InForce(history, p, Clock(history))
  }

  class ModelQuarantine {
    var entries: map<Pair, real>
    ghost var history: seq<Call>

    ghost predicate Valid()
      reads this
    {
      forall p :: Agrees(entries, history, p)
    }

    /** The clock, which never goes back and counts from zero, has reached `now`. */
    ghost predicate Reached(now: real)
      reads this
    {
      0.0 <= now && Clock(history) <= now
    }

    constructor ()
      ensures Valid() && history == []
    {
      entries, history := map[], [];
    }

    method QuarantineModel(backend: string, model: string, duration: real, now: real)
      requires Valid() && Reached(now)
      modifies this
      ensures Valid() && Reached(now)
      ensures history == old(history) + PutCalls(backend, model, duration, now)
    {
      if backend == "" || model == "" {
        return;
      }
      var p := Pair(backend, model);
      PutAgrees(entries, history, p, now + duration, now, entries[p := now + duration]);
      HistoryGrows(history, Put(p, now + duration, now), p);
      entries := entries[p := now + duration];
      history := history + [Put(p, now + duration, now)];
    }

    method IsModelQuarantined(backend: string, model: string, now: real) returns (quarantined: bool)
      requires Valid() && Reached(now)
      modifies this
      ensures Valid() && Reached(now)
      ensures history == old(history) + LookCalls(backend, model, now)
      ensures quarantined <==> Held(old(history), backend, model, now)
    {
      if backend == "" || model == "" {
        return false;
      }
      var p := Pair(backend, model);
      var expiry := if p in entries then entries[p] else 0.0;
      quarantined := expiry > now;
      LookAgrees(entries, history, p, now);
      HistoryGrows(history, Look(p, now), p);
      if !quarantined && p in entries {
        entries := entries - {p};
      }
      history := history + [Look(p, now)];
    }

    method ClearModelQuarantine(backend: string, model: string)
      requires Valid()
      modifies this
      ensures Valid() && history == old(history) + [Clear(Pair(backend, model))]
      ensures forall now :: !InForce(history, Pair(backend, model), now)
      ensures forall now :: old(Reached(now)) ==> Reached(now)
    {
      var p := Pair(backend, model);
      ClearAgrees(entries, history, p);
      HistoryGrows(history, Clear(p), p);
      entries := entries - {p};
      history := history + [Clear(p)];
    }
  }

  lemma PutAgrees(entries: map<Pair, real>, history: seq<Call>, p: Pair, expiry: real, now: real, after: map<Pair,
                  real>)
    requires (forall o :: Agrees(entries, history, o)) && Clock(history) <= now
    requires after == entries[p := expiry]
    ensures forall o :: Agrees(after, history + [Put(p, expiry, now)], o)
  {
    hide LastPut, Clock;
    forall o ensures Agrees(after, history + [Put(p, expiry, now)], o) {
      HistoryGrows(history, Put(p, expiry, now), o);
      assert Agrees(entries, history, o);
    }
  }

  lemma LookAgrees(entries: map<Pair, real>, history: seq<Call>, p: Pair, now: real)
    requires (forall o :: Agrees(entries, history, o)) && Clock(history) <= now
    ensures forall o :: Agrees(entries, history + [Look(p, now)], o)
    ensures p in entries && entries[p] <= now ==> forall o :: Agrees(entries - {p}, history + [Look(p, now)], o)
    ensures InForce(history, p, now) <==> p in entries && entries[p] > now
  {
    hide LastPut, Clock;
    assert Agrees(entries, history, p);
    forall o ensures Agrees(entries, history + [Look(p, now)], o)
      ensures p in entries && entries[p] <= now ==> Agrees(entries - {p}, history + [Look(p, now)], o)
    {
      HistoryGrows(history, Look(p, now), o);
      assert Agrees(entries, history, o);
    }
  }

  lemma ClearAgrees(entries: map<Pair, real>, history: seq<Call>, p: Pair)
    requires forall o :: Agrees(entries, history, o)
    ensures forall o :: Agrees(entries - {p}, history + [Clear(p)], o)
  {
    hide LastPut, Clock;
    forall o ensures Agrees(entries - {p}, history + [Clear(p)], o) {
      HistoryGrows(history, Clear(p), o);
      assert Agrees(entries, history, o);
    }
  }

  function PutCalls(backend: string, model: string, duration: real, now: real): seq<Call> {
    if backend == "" || model == "" then [] else [Put(Pair(backend, model), now + duration, now)]
  }

  function LookCalls(backend: string, model: string, now: real): seq<Call> {
    if backend == "" || model == "" then [] else [Look(Pair(backend, model), now)]
  }

  /** The pair is named and its quarantine is unexpired. */
  predicate Held(history: seq<Call>, backend: string, model: string, now: real) {
    backend != "" && model != "" && InForce(history, Pair(backend, model), now)
  }

  // ------------------------------------------------------------------ the chain

  /** A chain target; the model may be absent (empty). */
  datatype Target = Target(backend: string, model: string)

  /**
    The turn of a target, the primary backend's being the first: what other requests do to the
    quarantines since the turn before (nothing, before the first), the clock when the target is
    looked up and contacted, what others do during the contact, its end, and the status answered, or
    none for an exception.
   */
  datatype Contact = Contact(before: seq<Call>, start: real, during: seq<Call>, end: real, answer: Option<int>)

  type World = nat -> Contact

  ghost predicate Monotone(world: World) {
    forall n: nat ::
      && 0.0 <= world(n).start && InTime(world(n).during, world(n).start, world(n).end)
      && InTime(world(n + 1).before, world(n).end, world(n + 1).start)
  }

  /** Calls with named pairs, made in the order of the clock between two readings of it. */
  ghost predicate InTime(calls: seq<Call>, from: real, to: real) {
    && from <= to
    && (forall i :: 0 <= i < |calls| ==> Proper(calls[i]) && (!calls[i].Clear? ==> from <= calls[i].now <= to))
    && forall i, j :: 0 <= i < j < |calls| && !calls[i].Clear? && !calls[j].Clear? ==> calls[i].now <= calls[j].now
  }

  predicate Proper(c: Call) { c.pair.backend != "" && c.pair.model != "" }

  lemma TurnIsInTime(world: World, n: nat)
    requires Monotone(world)
    ensures 0.0 <= world(n).start <= world(n).end <= world(n + 1).start
    ensures InTime(world(n).during, world(n).start, world(n).end)
    ensures InTime(world(n + 1).before, world(n).end, world(n + 1).start)
  {
  }

  predicate Good(answer: Option<int>) {
    answer.Some? && answer.value !in BAD_STATUSES
  }

  function Duration(answer: Option<int>): (d: real)
    ensures d >= 30.0
  {
    if answer == Some(429) then QUARANTINE_RATE_LIMIT
    else if answer == Some(503) then QUARANTINE_OVERLOADED
    else if answer == Some(401) || answer == Some(403) then QUARANTINE_FORBIDDEN
    else QUARANTINE_SERVER_ERR
  }

  function OrAny(model: string): (m: string)
    ensures m != ""
  {
    if model == "" then "*" else model
  }

  /** What became of a target: unknown backend, skipped as quarantined, or contacted in turn `n`. */
  datatype Visit = Unknown | Skipped(at: real) | Contacted(n: nat)

  /** The quarantine calls of one visit, other requests' calls among them. */
  function VisitCalls(t: Target, v: Visit, c: Contact): seq<Call> {
    c.before
    + match v
      case Unknown => []
      case Skipped(at) => LookCalls(t.backend, t.model, at)
      case Contacted(_) => LookCalls(t.backend, t.model, c.start) + c.during + FailureCalls(t, c)
  }

  /** A failed contact quarantines its target. */
  function FailureCalls(t: Target, c: Contact): seq<Call> {
    if Good(c.answer) then [] else PutCalls(t.backend, OrAny(t.model), Duration(c.answer), c.end)
  }

  /** The calls of the visits of targets whose turns begin with number `n`. */
  function ChainCalls(targets: seq<Target>, visits: seq<Visit>, n: nat, world: World): seq<Call>
    requires |visits| <= |targets|
  {
    if visits == [] then []
    else
      var k := |visits| - 1;
      ChainCalls(targets, visits[..k], n, world) + VisitCalls(targets[k], visits[k], world(n + k))
  }

  /** A target is skipped exactly when it is unknown or its quarantine is unexpired when reached. */
  ghost predicate RightVisit(t: Target, v: Visit, known: set<string>, before: seq<Call>, turn: nat, world: World) {
    var now := world(turn).start;
    v == if t.backend !in known then Unknown
         else if Held(before + world(turn).before, t.backend, t.model, now) then Skipped(now)
         else Contacted(turn)
  }

  ghost predicate RightVisits(targets: seq<Target>, visits: seq<Visit>, known: set<string>, start: seq<Call>, n: nat,
                              world: World)
    requires |visits| <= |targets|
  {
    forall k :: 0 <= k < |visits| ==>
      RightVisit(targets[k], visits[k], known, start + ChainCalls(targets, visits[..k], n, world), n + k, world)
  }

  predicate Acceptable(v: Visit, world: World) {
    v.Contacted? && Good(world(v.n).answer)
  }

  datatype ChainResult =
    | Served(index: nat, code: int)
    | LastException(index: nat)   // the exception of that target, the last one met, is raised
    | AllFailed                   // HTTP 502

  /** The result is the first acceptable visit's, or a failure when there is none. */
  ghost predicate FirstAcceptable(result: ChainResult, targets: seq<Target>, visits: seq<Visit>, world: World) {
    match result
    case Served(i, code) =>
      && |visits| == i + 1 <= |targets| && (forall k :: 0 <= k < i ==> !Acceptable(visits[k], world))
      && Acceptable(visits[i], world) && world(visits[i].n).answer == Some(code)
    case _ =>
      && |visits| == |targets| && (forall k :: 0 <= k < |visits| ==> !Acceptable(visits[k], world))
      && Raises(result, visits, world)
  }

  predicate Excepted(v: Visit, world: World) {
    v.Contacted? && world(v.n).answer == None
  }

  /** The exception that is raised, if any, is that of the last contact that raised one. */
  ghost predicate Raises(result: ChainResult, visits: seq<Visit>, world: World) {
    match result
    case Served(_, _) => false
    case LastException(i) =>
      i < |visits| && Excepted(visits[i], world) && forall k :: i < k < |visits| ==> !Excepted(visits[k], world)
    case AllFailed => forall k :: 0 <= k < |visits| ==> !Excepted(visits[k], world)
  }

  /** While this request waits, others use the quarantines. */
  method LetOthers(q: ModelQuarantine, calls: seq<Call>, from: real, to: real)
    requires q.Valid() && q.Reached(from) && InTime(calls, from, to)
    modifies q
    ensures q.Valid() && q.Reached(to) && q.history == old(q.history) + calls
  {
    hide LastPut, Clock, InForce, Agrees, ModelQuarantine.Valid, ModelQuarantine.Reached;
    var i := 0;
    ghost var now := from;
    assert q.history + calls[..0] == q.history;
    while i < |calls|
      invariant 0 <= i <= |calls| && q.Valid() && q.Reached(now) && now <= to
      invariant q.history == old(q.history) + calls[..i]
      invariant forall j :: i <= j < |calls| && !calls[j].Clear? ==> now <= calls[j].now
    {
      ghost var was := q.history;
      var p := calls[i].pair;
      assert Proper(calls[i]);
      match calls[i] {
        case Put(_, expiry, at) =>
          ReachedLater(q, now, at);
          now := at;
          q.QuarantineModel(p.backend, p.model, expiry - at, at);
        case Look(_, at) =>
          ReachedLater(q, now, at);
          now := at;
          var _ := q.IsModelQuarantined(p.backend, p.model, at);
        case Clear(_) => q.ClearModelQuarantine(p.backend, p.model);
      }
      assert q.history == was + [calls[i]];
      assert was + [calls[i]] == old(q.history) + calls[..i + 1];
      i := i + 1;
    }
    assert calls[..i] == calls;
    ReachedLater(q, now, to);
  }

  lemma ReachedLater(q: ModelQuarantine, now: real, later: real)
    requires q.Reached(now) && now <= later
    ensures q.Reached(later)
  {
  }

  /** Visit one target. */
  method VisitTarget(q: ModelQuarantine, t: Target, known: set<string>, world: World, n: nat)
    returns (answer: Option<Option<int>>, ghost v: Visit)
    requires q.Valid() && Monotone(world) && n > 0 && q.Reached(world(n - 1).end)
    modifies q
    ensures q.Valid() && q.Reached(world(n).end)
    ensures q.history == old(q.history) + VisitCalls(t, v, world(n))
    ensures RightVisit(t, v, known, old(q.history), n, world)
    ensures v.Contacted? ==> v.n == n
    ensures answer == if v.Contacted? then Some(world(n).answer) else None
  {
    hide LastPut, Clock, InForce, ModelQuarantine.Valid, ModelQuarantine.Reached, Monotone, InTime, Good, Duration,
         OrAny;
    var c := world(n);
    TurnIsInTime(world, n - 1);
    TurnIsInTime(world, n);
    LetOthers(q, c.before, world(n - 1).end, c.start);
    ghost var here := q.history;
    if t.backend !in known {
      ReachedLater(q, c.start, c.end);
      assert here + [] == here;
      return None, Unknown;
    }
    if t.model != "" {
      var held := q.IsModelQuarantined(t.backend, t.model, c.start);
      if held {
        ReachedLater(q, c.start, c.end);
        return None, Skipped(c.start);
      }
    }
    assert here + [] == here;
    answer, v := Some(c.answer), Contacted(n);
    LetOthers(q, c.during, c.start, c.end);
    if !Good(c.answer) {
      q.QuarantineModel(t.backend, OrAny(t.model), Duration(c.answer), c.end);
    }
    assert q.history == here + LookCalls(t.backend, t.model, c.start) + c.during + FailureCalls(t, c);
    assert q.history == old(q.history) + VisitCalls(t, v, c);
  }

  /** Walk the chain until a target answers acceptably. */
  method TryChain(q: ModelQuarantine, targets: seq<Target>, known: set<string>, world: World, n: nat)
    returns (result: ChainResult, ghost visits: seq<Visit>)
    requires q.Valid() && Monotone(world) && n > 0 && q.Reached(world(n - 1).end)
    modifies q
    ensures q.Valid() && |visits| <= |targets|
    ensures q.history == old(q.history) + ChainCalls(targets, visits, n, world)
    ensures RightVisits(targets, visits, known, old(q.history), n, world)
    ensures FirstAcceptable(result, targets, visits, world)
  {
    hide ModelQuarantine.Valid, ModelQuarantine.Reached, RightVisit, RightVisits, ChainCalls, VisitCalls, Good;
    result := AllFailed;
    visits := [];
    var i := 0;
    NoVisits(targets, known, q.history, n, world);
    while i < |targets|
      invariant 0 <= i == |visits| <= |targets|
      invariant q.Valid() && q.Reached(world(n + i - 1).end)
      invariant q.history == old(q.history) + ChainCalls(targets, visits, n, world)
      invariant RightVisits(targets, visits, known, old(q.history), n, world)
      invariant forall k :: 0 <= k < i ==> !Acceptable(visits[k], world)
      invariant Raises(result, visits, world)
    {
      ghost var was := visits;
      var answer, v := VisitTarget(q, targets[i], known, world, n + i);
      visits := was + [v];
      AddVisit(targets, was, v, known, old(q.history), n, world);
      AddRaise(result, was, v, world);
      assert visits[i] == v;
      if answer.Some? {
        if Good(answer.value) {
          GoodAnswers(answer.value);
          return Served(i, answer.value.value), visits;
        }
        if answer.value == None {
          result := LastException(i);
        }
      }
      i := i + 1;
    }
  }

  lemma GoodAnswers(answer: Option<int>)
    requires Good(answer)
    ensures answer.Some?
  {
  }

  lemma NoVisits(targets: seq<Target>, known: set<string>, start: seq<Call>, n: nat, world: World)
    ensures start == start + ChainCalls(targets, [], n, world)
    ensures RightVisits(targets, [], known, start, n, world) && Raises(AllFailed, [], world)
  {
  }

  lemma TakeOfAppend(visits: seq<Visit>, v: Visit, k: nat)
    requires k <= |visits|
    ensures (visits + [v])[..k] == visits[..k] && (k == |visits| ==> visits[..k] == visits)
  {
  }

  lemma ChainGrows(targets: seq<Target>, visits: seq<Visit>, v: Visit, n: nat, world: World)
    requires |visits| < |targets|
    ensures ChainCalls(targets, visits + [v], n, world)
            == ChainCalls(targets, visits, n, world) + VisitCalls(targets[|visits|], v, world(n + |visits|))
  {
    hide VisitCalls;
    TakeOfAppend(visits, v, |visits|);
  }

  lemma AddVisit(targets: seq<Target>, visits: seq<Visit>, v: Visit, known: set<string>, start: seq<Call>, n: nat,
                 world: World)
    requires |visits| < |targets| && RightVisits(targets, visits, known, start, n, world)
    requires RightVisit(targets[|visits|], v, known, start + ChainCalls(targets, visits, n, world),
                        n + |visits|, world)
    ensures start + ChainCalls(targets, visits + [v], n, world)
            == start + ChainCalls(targets, visits, n, world) + VisitCalls(targets[|visits|], v, world(n + |visits|))
    ensures RightVisits(targets, visits + [v], known, start, n, world)
  {
    hide RightVisit, VisitCalls, ChainCalls;
    ChainGrows(targets, visits, v, n, world);
    var a, b := ChainCalls(targets, visits, n, world), VisitCalls(targets[|visits|], v, world(n + |visits|));
    assert start + (a + b) == start + a + b;
    var all := visits + [v];
    forall k | 0 <= k < |all|
      ensures RightVisit(targets[k], all[k], known, start + ChainCalls(targets, all[..k], n, world), n + k,
                         world)
    {
      TakeOfAppend(visits, v, k);
      assert k < |visits| ==> all[k] == visits[k];
    }
  }

  lemma AddRaise(result: ChainResult, visits: seq<Visit>, v: Visit, world: World)
    requires Raises(result, visits, world)
    ensures Raises(if Excepted(v, world) then LastException(|visits|) else result, visits + [v], world)
  {
    hide Excepted;
  }

  // ------------------------------------------------------------------ the primary and the chain

  datatype FinalResult = PrimaryServed(code: int) | PrimaryRaised | FromChain(result: ChainResult)

  /**
    Try the primary backend, unless it is quarantined and there is a chain; then walk the chain.
    A request without a model counts as one for "*". `contacted` tells whether the primary was contacted.
   */
  method TryWithCrossProviderFallback(q: ModelQuarantine, primary: string, model: string, hasChain: bool,
                                      targets: seq<Target>, known: set<string>, world: World)
    returns (final: FinalResult, contacted: bool, ghost visits: seq<Visit>)
    requires q.Valid() && Monotone(world) && q.Reached(world(0).start)
    modifies q
    ensures q.Valid() && |visits| <= |targets|
    ensures contacted <==> !(hasChain && Held(old(q.history), primary, OrAny(model), world(0).start))
    ensures var answer := world(0).answer;
            && (final.PrimaryServed? <==>
                contacted && answer.Some? && (answer.value !in {429, 500, 502, 503, 504} || !hasChain))
            && (final.PrimaryServed? ==> answer == Some(final.code))
            && (final == PrimaryRaised <==> contacted && answer == None && !hasChain)
    ensures q.history == old(q.history) + PrimaryCalls(primary, OrAny(model), hasChain, contacted, world(0))
                         + ChainCalls(targets, visits, 1, world)
    ensures final.FromChain? ==>
              && RightVisits(targets, visits, known,
                             old(q.history) + PrimaryCalls(primary, OrAny(model), hasChain, contacted, world(0)),
                             1, world)
              && FirstAcceptable(final.result, targets, visits, world)
    ensures !final.FromChain? ==> visits == []
  {
    var reqModel := OrAny(model);
    hide LastPut, Clock, InForce, ModelQuarantine.Valid, ModelQuarantine.Reached, RightVisits, ChainCalls,
         FirstAcceptable, Monotone, InTime, Good, Duration, OrAny, BAD_STATUSES;
    visits := [];
    var c := world(0);
    TurnIsInTime(world, 0);
    NoVisits(targets, known, q.history, 1, world);
    ghost var start := q.history;
    contacted := true;
    if hasChain {
      var held := q.IsModelQuarantined(primary, reqModel, c.start);
      contacted := !held;
    }
    ghost var looked := q.history;
    assert looked == start + if hasChain then LookCalls(primary, reqModel, c.start) else [];
    GoodMeans(c.answer);
    if contacted {
      LetOthers(q, c.during, c.start, c.end);
      if c.answer.Some? && (Good(c.answer) || !hasChain) {
        return PrimaryServed(c.answer.value), true, [];
      }
      q.QuarantineModel(primary, reqModel, Duration(c.answer), c.end);
      if !hasChain {
        return PrimaryRaised, true, [];
      }
    } else {
      ReachedLater(q, c.start, c.end);
    }
    assert q.history == start + PrimaryCalls(primary, reqModel, hasChain, contacted, c);
    var result, vs := TryChain(q, targets, known, world, 1);
    final, visits := FromChain(result), vs;
  }

  function PrimaryCalls(primary: string, reqModel: string, hasChain: bool, contacted: bool, c: Contact): seq<Call> {
    (if hasChain then LookCalls(primary, reqModel, c.start) else [])
    + if contacted then c.during + PrimaryFailure(primary, reqModel, hasChain, c) else []
  }

  function PrimaryFailure(primary: string, reqModel: string, hasChain: bool, c: Contact): seq<Call> {
    if c.answer.Some? && (Good(c.answer) || !hasChain) then []
    else PutCalls(primary, reqModel, Duration(c.answer), c.end)
  }

  // ------------------------------------------------------------------ what the codes mean

  /** For how long a target rests that answered so, or not at all. */
  function Rest(answer: Option<int>): real {
    match answer
    case None => 30.0
    case Some(code) =>
      if code == 429 then 300.0 else if code == 503 then 60.0 else if code in {500, 502, 504} then 30.0 else 0.0
  }

  lemma GoodMeans(answer: Option<int>)
    ensures Good(answer) <==> answer.Some? && answer.value !in {429, 500, 502, 503, 504}
  {
  }

  /**
    A contact quarantines its target, under "*" when it names no model, for 300 s after a 429, for 60 s
    after a 503, and for 30 s after a 500, 502, 504 or an exception. No other answer quarantines it:
    not even a 401 or 403, for which the code has an hour that it never comes to use.
   */
  lemma RestsByCode(t: Target, c: Contact)
    requires t.backend != ""
    ensures FailureCalls(t, c)
            == if Rest(c.answer) == 0.0 then []
               else [Put(Pair(t.backend, if t.model == "" then "*" else t.model), c.end + Rest(c.answer), c.end)]
    ensures c.answer == Some(401) || c.answer == Some(403) ==> FailureCalls(t, c) == []
  {
    GoodMeans(c.answer);
    hide Good;
  }

  /** The same of the primary backend, which without a chain is quarantined only by an exception. */
  lemma PrimaryRestsByCode(primary: string, model: string, hasChain: bool, c: Contact)
    requires primary != ""
    ensures PrimaryFailure(primary, OrAny(model), hasChain, c)
            == if Rest(c.answer) == 0.0 || (c.answer.Some? && !hasChain) then []
               else [Put(Pair(primary, if model == "" then "*" else model), c.end + Rest(c.answer), c.end)]
  {
    GoodMeans(c.answer);
    hide Good;
  }

  /**
    The chain's result by the codes: a contacted target that answers anything but 429, 500, 502, 503
    or 504 is the last one visited and serves its answer; any other contact leads on, to the next
    target or to the end of the chain, and there to the last exception, if any, or a 502.
   */
  lemma ChainByCodes(result: ChainResult, targets: seq<Target>, visits: seq<Visit>, known: set<string>,
                     start: seq<Call>, n: nat, world: World, k: nat)
    requires |visits| <= |targets| && k < |visits| && visits[k].Contacted?
    requires RightVisits(targets, visits, known, start, n, world) && FirstAcceptable(result, targets, visits, world)
    ensures var answer := world(n + k).answer;
            if answer.Some? && answer.value !in {429, 500, 502, 503, 504}
            then result == Served(k, answer.value) && k + 1 == |visits|
            else (result.Served? ==> k < result.index)
                 && (k + 1 == |visits| ==> k + 1 == |targets| && !result.Served?)
                 && (answer == None && result.LastException? ==> k <= result.index)
                 && (answer == None ==> result != AllFailed)
  {
    hide *;
    VisitIsDue(targets, visits, known, start, n, world, k);
    GoodMeans(world(n + k).answer);
    ResultAt(result, targets, visits, world, k);
    AcceptableIs(visits[k], world);
  }

  lemma AcceptableIs(v: Visit, world: World)
    requires v.Contacted?
    ensures Acceptable(v, world) <==> Good(world(v.n).answer)
    ensures Excepted(v, world) <==> world(v.n).answer == None
  {
    hide Good;
  }

  lemma ResultAt(result: ChainResult, targets: seq<Target>, visits: seq<Visit>, world: World, k: nat)
    requires FirstAcceptable(result, targets, visits, world) && k < |visits| && visits[k].Contacted?
    ensures if Acceptable(visits[k], world)
            then result.Served? && result.index == k && world(visits[k].n).answer == Some(result.code)
                && k + 1 == |visits|
            else (result.Served? ==> k < result.index)
                 && (k + 1 == |visits| ==> k + 1 == |targets| && !result.Served?)
                 && (Excepted(visits[k], world) && result.LastException? ==> k <= result.index)
                 && (Excepted(visits[k], world) ==> result != AllFailed)
  {
    hide Acceptable, Excepted;
  }

  // ------------------------------------------------------------------ what the visits mean

  /** `p` is quarantined until `bound` at least. */
  predicate LastsTo(history: seq<Call>, p: Pair, bound: real) {
    var e := LastPut(history, p);
    e.Some? && e.value >= bound
  }

  /** Calls that neither clear `p` nor quarantine it until before `bound`. */
  predicate Spare(calls: seq<Call>, p: Pair, bound: real) {
    forall i :: 0 <= i < |calls| && calls[i].pair == p
        ==> !calls[i].Clear? && (calls[i].Put? ==> calls[i].expiry >= bound)
  }

  /** Such calls keep a quarantine. */
  lemma {:induction false} SpareKeeps(history: seq<Call>, calls: seq<Call>, p: Pair, bound: real)
    requires LastsTo(history, p, bound) && Spare(calls, p, bound)
    ensures LastsTo(history + calls, p, bound)
    decreases |calls|
  {
    hide LastPut;
    if calls == [] {
      assert history + calls == history;
    } else {
      var n := |calls| - 1;
      SpareKeeps(history, calls[..n], p, bound);
      HistoryGrows(history + calls[..n], calls[n], p);
      assert history + calls == history + calls[..n] + [calls[n]];
    }
  }

  /** In this turn others spare `p`, and it ends late enough. */
  predicate SpareTurn(v: Visit, c: Contact, p: Pair, bound: real) {
    Spare(c.before, p, bound) && (v.Contacted? ==> Spare(c.during, p, bound) && bound <= c.end + 30.0)
  }

  /** Then the visit spares it. */
  lemma VisitSpares(t: Target, v: Visit, c: Contact, p: Pair, bound: real)
    requires SpareTurn(v, c, p, bound)
    ensures Spare(VisitCalls(t, v, c), p, bound)
  {
    hide Good, OrAny;
    var own := if v.Unknown? then [] else LookCalls(t.backend, t.model, if v.Skipped? then v.at else c.start);
    SpareBoth(c.before, own, p, bound);
    if v.Contacted? {
      SpareBoth(own, c.during, p, bound);
      SpareBoth(own + c.during, FailureCalls(t, c), p, bound);
      SpareBoth(c.before, own + c.during + FailureCalls(t, c), p, bound);
    }
  }

  lemma SpareBoth(a: seq<Call>, b: seq<Call>, p: Pair, bound: real)
    requires Spare(a, p, bound) && Spare(b, p, bound)
    ensures Spare(a + b, p, bound)
  {
  }

  /** A failed contact quarantines its target from its end on. */
  lemma VisitFails(t: Target, v: Visit, before: seq<Call>, c: Contact)
    requires v.Contacted? && !Good(c.answer) && t.backend != ""
    ensures LastsTo(before + VisitCalls(t, v, c), Pair(t.backend, OrAny(t.model)), c.end + 30.0)
  {
    hide LastPut, Good, OrAny, LookCalls;
    var p := Pair(t.backend, OrAny(t.model));
    var put := Put(p, c.end + Duration(c.answer), c.end);
    var all := before + (c.before + (LookCalls(t.backend, t.model, c.start) + c.during));
    HistoryGrows(all, put, p);
    assert before + VisitCalls(t, v, c) == all + [put];
  }

  /** Later visits never bring a quarantine below a bound that they and the other requests respect. */
  lemma {:induction false} VisitsKeep(targets: seq<Target>, visits: seq<Visit>, start: seq<Call>, n: nat, world: World,
                                      p: Pair, bound: real, j: nat, k: nat)
    requires j <= k <= |visits| <= |targets|
    requires LastsTo(start + ChainCalls(targets, visits[..j], n, world), p, bound)
    requires forall i :: j <= i < k ==> SpareTurn(visits[i], world(n + i), p, bound)
    ensures LastsTo(start + ChainCalls(targets, visits[..k], n, world), p, bound)
    decreases k
  {
    if j < k {
      hide LastsTo, Spare, SpareTurn, ChainCalls, VisitCalls;
      VisitsKeep(targets, visits, start, n, world, p, bound, j, k - 1);
      var before, calls := start + ChainCalls(targets, visits[..k - 1], n, world),
          VisitCalls(targets[k - 1], visits[k - 1], world(n + k - 1));
      VisitSpares(targets[k - 1], visits[k - 1], world(n + k - 1), p, bound);
      SpareKeeps(before, calls, p, bound);
      CallsUnfold(targets, visits, start, n, world, k);
    }
  }

  lemma CallsUnfold(targets: seq<Target>, visits: seq<Visit>, start: seq<Call>, n: nat, world: World, k: nat)
    requires 0 < k <= |visits| <= |targets|
    ensures start + ChainCalls(targets, visits[..k], n, world)
            == start + ChainCalls(targets, visits[..k - 1], n, world)
               + VisitCalls(targets[k - 1], visits[k - 1], world(n + k - 1))
  {
    hide VisitCalls;
    assert visits[..k][..k - 1] == visits[..k - 1];
  }

  lemma {:induction false} EndsLater(world: World, a: nat, b: nat)
    requires Monotone(world) && a <= b
    ensures world(a).end <= world(b).end
    decreases b
  {
    hide Monotone;
    if a < b {
      EndsLater(world, a, b - 1);
      TurnIsInTime(world, b - 1);
      TurnIsInTime(world, b);
    }
  }

  /**
    Other requests never clear `p`, and never quarantine it for less than 30 s: the shortest time in
    the code, which nowhere clears a quarantine.
   */
  ghost predicate Respected(world: World, p: Pair) {
    forall n: nat :: Lasting(world(n).before, p) && Lasting(world(n).during, p)
  }

  predicate Lasting(calls: seq<Call>, p: Pair) {
    forall i :: 0 <= i < |calls| && calls[i].pair == p ==>
      !calls[i].Clear? && (calls[i].Put? ==> calls[i].expiry >= calls[i].now + 30.0)
  }

  /** So in turns after `q` they spare a quarantine that ends 30 s after it. */
  lemma LaterSpares(world: World, p: Pair, q: nat, n: nat)
    requires Monotone(world) && Respected(world, p) && q < n
    ensures Spare(world(n).before, p, world(q).end + 30.0) && Spare(world(n).during, p, world(q).end + 30.0)
  {
    hide Monotone;
    EndsLater(world, q, n - 1);
    TurnIsInTime(world, n - 1);
    TurnIsInTime(world, n);
  }

  /** A pair that is quarantined until 30 s after turn `q` is skipped when its own turn comes before that. */
  lemma QuarantineHolds(targets: seq<Target>, visits: seq<Visit>, known: set<string>, start: seq<Call>, n: nat,
                        world: World, q: nat, j: nat, k: nat)
    requires Monotone(world) && j <= k < |visits| <= |targets|
    requires RightVisits(targets, visits, known, start, n, world) && q < n + j
    requires targets[k].backend != "" && targets[k].model != ""
    requires Respected(world, Pair(targets[k].backend, targets[k].model))
    requires LastsTo(start + ChainCalls(targets, visits[..j], n, world), Pair(targets[k].backend, targets[k].model),
                     world(q).end + 30.0)
    requires world(n + k).start < world(q).end + 30.0
    ensures !visits[k].Contacted?
  {
    hide LastPut, ChainCalls, Monotone, RightVisits, Respected, Spare;
    var p, bound := Pair(targets[k].backend, targets[k].model), world(q).end + 30.0;
    LaterSpares(world, p, q, n + k);
    forall i | j <= i < k ensures SpareTurn(visits[i], world(n + i), p, bound) {
      LaterSpares(world, p, q, n + i);
      EndsLater(world, q, n + i);
    }
    VisitsKeep(targets, visits, start, n, world, p, bound, j, k);
    SpareKeeps(start + ChainCalls(targets, visits[..k], n, world), world(n + k).before, p, bound);
    NextVisit(targets, visits, known, start, n, world, k);
  }

  /** A contact is numbered by its turn. */
  lemma VisitIsDue(targets: seq<Target>, visits: seq<Visit>, known: set<string>, start: seq<Call>, n: nat,
                   world: World, i: nat)
    requires i < |visits| <= |targets| && RightVisits(targets, visits, known, start, n, world)
    ensures visits[i].Contacted? ==> visits[i].n == n + i
  {
    hide Held;
  }

  /**
    A target that was contacted and failed is not contacted again, wherever the chain names it once
    more, before 30 s have passed since its failure: whatever other targets do in between, and
    whatever other requests do that respect the quarantine.
   */
  lemma FailedTargetRests(targets: seq<Target>, visits: seq<Visit>, known: set<string>, start: seq<Call>, n: nat,
                          world: World, j: nat, k: nat)
    requires Monotone(world) && j < k < |visits| <= |targets|
    requires RightVisits(targets, visits, known, start, n, world)
    requires visits[j].Contacted? && !Good(world(visits[j].n).answer)
    requires targets[k] == targets[j] && targets[j].backend != "" && targets[j].model != ""
    requires Respected(world, Pair(targets[j].backend, targets[j].model))
    requires world(n + k).start < world(n + j).end + 30.0
    ensures visits[k].Skipped?
  {
    hide LastsTo, ChainCalls, Monotone, RightVisits, Good, VisitCalls, Respected, Held;
    VisitIsDue(targets, visits, known, start, n, world, j);
    VisitFails(targets[j], visits[j], start + ChainCalls(targets, visits[..j], n, world), world(n + j));
    CallsUnfold(targets, visits, start, n, world, j + 1);
    QuarantineHolds(targets, visits, known, start, n, world, n + j, j + 1, k);
    NextVisit(targets, visits, known, start, n, world, j);
    NextVisit(targets, visits, known, start, n, world, k);
  }

  /** The same for the primary backend, when the chain names its pair: the chain starts after its failure. */
  lemma FailedPrimaryRests(primary: string, model: string, before: seq<Call>, targets: seq<Target>, visits: seq<Visit>,
                           known: set<string>, world: World, k: nat)
    requires Monotone(world) && k < |visits| <= |targets| && !Good(world(0).answer)
    requires RightVisits(targets, visits, known, before + PrimaryCalls(primary, OrAny(model), true, true, world(0)),
             1, world)
    requires targets[k] == Target(primary, OrAny(model)) && primary != ""
    requires Respected(world, Pair(primary, OrAny(model)))
    requires world(k + 1).start < world(0).end + 30.0
    ensures !visits[k].Contacted?
  {
    hide LastPut, Monotone, RightVisits, Good, Respected, LookCalls;
    var m, c := OrAny(model), world(0);
    var put := Put(Pair(primary, m), c.end + Duration(c.answer), c.end);
    var looked := before + (LookCalls(primary, m, c.start) + c.during);
    var start := before + PrimaryCalls(primary, m, true, true, c);
    assert start == looked + [put];
    HistoryGrows(looked, put, Pair(primary, m));
    assert visits[..0] == [] && start + [] == start;
    QuarantineHolds(targets, visits, known, start, 1, world, 0, 0, k);
  }

  /** For given targets, backends, quarantine history and upstream, the visits are determined... */
  lemma {:induction false} VisitsUnique(targets: seq<Target>, v1: seq<Visit>, v2: seq<Visit>, known: set<string>,
                                        start: seq<Call>, n: nat, world: World, k: nat)
    requires k <= |v1| <= |targets| && k <= |v2| <= |targets|
    requires RightVisits(targets, v1, known, start, n, world) && RightVisits(targets, v2, known, start, n, world)
    ensures v1[..k] == v2[..k]
    decreases k
  {
    hide *;
    if k > 0 {
      VisitsUnique(targets, v1, v2, known, start, n, world, k - 1);
      NextVisit(targets, v1, known, start, n, world, k - 1);
      NextVisit(targets, v2, known, start, n, world, k - 1);
      var before := start + ChainCalls(targets, v1[..k - 1], n, world);
      RightVisitUnique(targets[k - 1], v1[k - 1], v2[k - 1], known, before, n + k - 1, world);
      assert v1[..k] == v1[..k - 1] + [v1[k - 1]] && v2[..k] == v2[..k - 1] + [v2[k - 1]];
    }
  }

  lemma NextVisit(targets: seq<Target>, visits: seq<Visit>, known: set<string>, start: seq<Call>, n: nat,
                  world: World, k: nat)
    requires k < |visits| <= |targets| && RightVisits(targets, visits, known, start, n, world)
    ensures RightVisit(targets[k], visits[k], known, start + ChainCalls(targets, visits[..k], n, world), n + k, world)
  {
  }

  lemma RightVisitUnique(t: Target, v1: Visit, v2: Visit, known: set<string>, before: seq<Call>, turn: nat,
                         world: World)
    requires RightVisit(t, v1, known, before, turn, world) && RightVisit(t, v2, known, before, turn, world)
    ensures v1 == v2
  {
    hide Held;
  }

  /** ... and so is the result. */
  lemma ResultUnique(r1: ChainResult, v1: seq<Visit>, r2: ChainResult, v2: seq<Visit>, targets: seq<Target>,
                     known: set<string>, start: seq<Call>, n: nat, world: World)
    requires |v1| <= |targets| && |v2| <= |targets|
    requires RightVisits(targets, v1, known, start, n, world) && RightVisits(targets, v2, known, start, n, world)
    requires FirstAcceptable(r1, targets, v1, world) && FirstAcceptable(r2, targets, v2, world)
    ensures r1 == r2 && v1 == v2
  {
    var k := if |v1| <= |v2| then |v1| else |v2|;
    VisitsUnique(targets, v1, v2, known, start, n, world, k);
    hide RightVisits, Acceptable, Good;
    forall i | 0 <= i < k ensures v1[i] == v2[i] {
      assert v1[i] == v1[..k][i] && v2[i] == v2[..k][i];
    }
    assert |v1| == |v2|;
    assert v1 == v1[..k] && v2 == v2[..k];
  }
}
