/** Trying a backend's URLs in order, with retries, behind the circuit breaker. */
module UrlFallback {
  import opened CircuitBreakers

  /** How one request to a URL ends: a status, a connection error, or some other exception. */
  datatype Outcome = Status(code: int) | Unreachable | Broken

  /**
    The surroundings as an oracle: when the wait for a request starts and ends, what other requests
    do to the breaker meanwhile, and the outcome. Each turn has three numbers of its own, as many as
    it may need, and its circuit is looked up when the first of them starts.
   */
  datatype Exchange = Exchange(start: real, end: real, others: seq<Call>, outcome: Outcome)

  type World = nat -> Exchange

  ghost predicate Monotone(world: World) {
    forall n: nat :: Orderly(world(n)) && world(n).end <= world(n + 1).start
  }

  /** The clock goes forward. */
  ghost predicate Orderly(e: Exchange) {
    e.start <= e.end && Timed(e.others, e.start) && Clock(e.others, e.start) <= e.end
  }

  /** What the loop returns, or why it raises. */
  datatype Reply =
    | Response(url: string, code: int)
    | ConnectionFailed   // the last connection error is raised
    | NothingTried       // every circuit was open, so there is no error to raise
    | Raised             // another exception escapes

  function MaxAttempts(retry: bool): nat { if retry then 3 else 1 }

  const SLOTS := 3

  /** The first number of the i-th turn from `n` on. */
  function FirstOf(i: nat, n: nat): nat { n + SLOTS * i }

  /** One URL's turn: its circuit found open or not, and `sent` requests numbered on from `first`. */
  datatype Turn = Turn(url: string, open: bool, first: nat, sent: nat)

  /** The attempt ends in another attempt, when one is left. */
  predicate Retriable(o: Outcome, retry: bool) {
    o.Unreachable? || (o.Status? && retry && o.code >= 500)
  }

  /** The outcome of the k-th attempt (from 0) of a turn whose first request is `first`. */
  function Attempt(first: nat, k: int, world: World): Outcome {
    if first + k >= 0 then world(first + k).outcome else Broken
  }

  predicate RetriedBefore(first: nat, last: int, world: World, retry: bool) {
    forall k :: 0 <= k < last ==> Retriable(Attempt(first, k, world), retry)
  }

  /** The URL was skipped, or every attempt at it failed and the last could not connect. */
  predicate GaveUp(t: Turn, world: World, retry: bool) {
    if t.open then t.sent == 0
    else t.sent == MaxAttempts(retry) && RetriedBefore(t.first, t.sent - 1, world, retry)
         && Attempt(t.first, t.sent - 1, world) == Unreachable
  }

  /** The last attempt at the URL settled the matter with outcome `o`. */
  predicate Settled(t: Turn, world: World, retry: bool, o: Outcome) {
    && !t.open && 1 <= t.sent <= MaxAttempts(retry) && RetriedBefore(t.first, t.sent - 1, world, retry)
    && Attempt(t.first, t.sent - 1, world) == o
    && (o.Broken? || (o.Status? && (Retriable(o, retry) ==> t.sent == MaxAttempts(retry))))
  }

  /** The breaker calls up to the end of the k-th attempt (from 0) at `url`, other requests' calls first. */
  function AttemptCalls(url: string, e: Exchange, k: nat, retry: bool): seq<Call> {
    e.others + OwnCalls(url, e, k, retry)
  }

  function OwnCalls(url: string, e: Exchange, k: nat, retry: bool): seq<Call> {
    (if Retriable(e.outcome, retry) then [Fail(url, e.end)] else [])
    + (if e.outcome.Status? && (!Retriable(e.outcome, retry) || k + 1 == MaxAttempts(retry))
       then [Succeed(url)] else [])
  }

  function SendCalls(url: string, first: nat, sent: nat, world: World, retry: bool): seq<Call> {
    if sent == 0 then []
    else SendCalls(url, first, sent - 1, world, retry) + AttemptCalls(url, world(first + sent - 1), sent - 1, retry)
  }

  /** The breaker calls of one turn. */
  function TurnCalls(t: Turn, world: World, retry: bool): seq<Call> {
    [Ask(t.url, world(t.first).start)] + SendCalls(t.url, t.first, t.sent, world, retry)
  }

  function AllCalls(turns: seq<Turn>, world: World, retry: bool): seq<Call> {
    if turns == [] then []
    else AllCalls(turns[..|turns| - 1], world, retry) + TurnCalls(turns[|turns| - 1], world, retry)
  }

  /** Turns follow the URL list. */
  ghost predicate InOrder(turns: seq<Turn>, urls: seq<string>, n: nat) {
    && |turns| <= |urls|
    && (forall i :: 0 <= i < |turns| ==> turns[i].url == urls[i])
    && (forall i :: 0 <= i < |turns| ==> turns[i].first == FirstOf(i, n))
  }

  /** A URL is skipped exactly when its history had tripped the breaker at the time it was reached. */
  ghost predicate SkipsTripped(turns: seq<Turn>, start: seq<Call>, world: World, retry: bool) {
    forall i :: 0 <= i < |turns| ==>
      (turns[i].open <==>
       Tripped(start + AllCalls(turns[..i], world, retry), turns[i].url, world(turns[i].first).start))
  }

  /** How the turns explain the reply: all but a settling last one gave up. */
  ghost predicate Explains(reply: Reply, turns: seq<Turn>, urls: seq<string>, world: World, retry: bool) {
    match reply
    case Response(url, code) =>
      && turns != [] && (forall i :: 0 <= i < |turns| - 1 ==> GaveUp(turns[i], world, retry))
      && var t := turns[|turns| - 1]; t.url == url && Settled(t, world, retry, Status(code))
    case Raised =>
      && turns != [] && (forall i :: 0 <= i < |turns| - 1 ==> GaveUp(turns[i], world, retry))
      && Settled(turns[|turns| - 1], world, retry, Broken)
    case ConnectionFailed =>
      |turns| == |urls| && AllGaveUp(turns, world, retry) && !AllOpen(turns)
    case NothingTried =>
      |turns| == |urls| && AllGaveUp(turns, world, retry) && AllOpen(turns)
  }

  /** The settled reply of a turn. */
  predicate Settles(t: Turn, reply: Reply, world: World, retry: bool) {
    match reply
    case Response(u, code) => u == t.url && Settled(t, world, retry, Status(code))
    case Raised => Settled(t, world, retry, Broken)
    case _ => false
  }

  /** While this request waits, others use the breaker. */
  method LetOthers(cb: CircuitBreaker, calls: seq<Call>, start: real)
    requires cb.Valid() && cb.Reached(start) && Timed(calls, start)
    modifies cb
    ensures cb.Valid() && cb.Reached(Clock(calls, start)) && cb.history == old(cb.history) + calls
  {
    hide After, Timed, Clock, Tripped, CircuitBreaker.Valid, CircuitBreaker.Reached;
    var i := 0;
    NoCallsYet(cb.history, start);
    assert calls[..0] == [];
    while i < |calls|
      invariant 0 <= i <= |calls|
      invariant cb.Valid() && cb.Reached(Clock(calls[..i], start)) && cb.history == old(cb.history) + calls[..i]
    {
      ghost var was := cb.history;
      NextCall(calls, i, start);
      match calls[i] {
        case Ask(url, now) =>
          ReachedLater(cb, Clock(calls[..i], start), now);
          var _ := cb.IsOpen(url, now);
        case Succeed(url) => cb.RecordSuccess(url);
        case Fail(url, now) =>
          ReachedLater(cb, Clock(calls[..i], start), now);
          cb.RecordFailure(url, now);
      }
      assert was + [calls[i]] == old(cb.history) + calls[..i + 1];
      i := i + 1;
    }
    assert calls[..i] == calls;
  }

  lemma NoCallsYet(history: seq<Call>, start: real)
    ensures Clock([], start) == start && history + [] == history
  {
  }

  lemma NextCall(calls: seq<Call>, i: nat, start: real)
    requires i < |calls| && Timed(calls, start)
    ensures calls[..i + 1] == calls[..i] + [calls[i]]
    ensures !calls[i].Succeed? ==>
              Clock(calls[..i], start) <= calls[i].now && Clock(calls[..i + 1], start) == calls[i].now
    ensures calls[i].Succeed? ==> Clock(calls[..i + 1], start) == Clock(calls[..i], start)
  {
    TimedPrefix(calls, i + 1, start);
    assert calls[..i + 1][..i] == calls[..i];
  }

  lemma {:induction false} TimedPrefix(calls: seq<Call>, i: nat, start: real)
    requires i <= |calls| && Timed(calls, start)
    ensures Timed(calls[..i], start)
    decreases |calls| - i
  {
    if i == |calls| {
      assert calls[..i] == calls;
    } else {
      TimedPrefix(calls, i + 1, start);
      assert calls[..i + 1][..i] == calls[..i];
    }
  }

  /** The breaker calls made for the k-th attempt, and whether it settles the turn. */
  method RecordAttempt(cb: CircuitBreaker, url: string, world: World, n: nat, k: nat, retry: bool)
    returns (settled: bool)
    requires cb.Valid() && Monotone(world) && cb.Reached(world(n).start) && k < MaxAttempts(retry)
    modifies cb
    ensures cb.Valid() && cb.Reached(world(n + 1).start)
    ensures cb.history == old(cb.history) + AttemptCalls(url, world(n), k, retry)
    ensures settled <==> world(n).outcome.Broken?
                         || (world(n).outcome.Status?
                             && (Retriable(world(n).outcome, retry) ==> k + 1 == MaxAttempts(retry)))
  {
    hide After, Timed, Clock, Tripped, CircuitBreaker.Valid, CircuitBreaker.Reached;
    hide Orderly;
    var e := world(n);
    ghost var before := cb.history;
    OrderlyIs(world, n);
    LetOthers(cb, e.others, e.start);
    ReachedLater(cb, Clock(e.others, e.start), e.end);
    ghost var start := cb.history;
    if Retriable(e.outcome, retry) {
      cb.RecordFailure(url, e.end);
    } else {
      assert start + [] == start;
    }
    settled := e.outcome.Broken?;
    if e.outcome.Status? && !(retry && e.outcome.code >= 500 && k + 1 < MaxAttempts(retry)) {
      cb.RecordSuccess(url);
      settled := true;
    }
    assert cb.history == start + OwnCalls(url, e, k, retry);
    assert before + e.others + OwnCalls(url, e, k, retry) == before + (e.others + OwnCalls(url, e, k, retry));
    ReachedLater(cb, e.end, world(n + 1).start);
  }

  lemma OrderlyIs(world: World, n: nat)
    requires Monotone(world)
    ensures var e := world(n);
            && Timed(e.others, e.start) && Clock(e.others, e.start) <= e.end
            && e.start <= e.end <= world(n + 1).start
  {
  }

  /** The attempts at one URL whose circuit is not open; `reply` is the settled one, if any. */
  method AttemptUrl(cb: CircuitBreaker, url: string, retry: bool, world: World, n: nat)
    returns (settled: bool, reply: Reply, sent: nat)
    requires cb.Valid() && Monotone(world) && cb.Reached(world(n).start)
    modifies cb
    ensures cb.Valid() && cb.Reached(world(n + sent).start)
    ensures cb.history == old(cb.history) + SendCalls(url, n, sent, world, retry) && sent <= MaxAttempts(retry)
    ensures var t := Turn(url, false, n, sent);
            if settled then Settles(t, reply, world, retry) else GaveUp(t, world, retry)
  {
    hide After, Timed, Clock, Tripped, AttemptCalls, SendCalls, CircuitBreaker.Valid, CircuitBreaker.Reached, Monotone;
    var maxAttempts := MaxAttempts(retry);
    sent, reply, settled := 0, ConnectionFailed, false;
    NoSends(cb.history, url, n, world, retry);
    while sent < maxAttempts
      invariant 0 <= sent <= maxAttempts && !settled
      invariant cb.Valid() && cb.Reached(world(n + sent).start)
      invariant cb.history == old(cb.history) + SendCalls(url, n, sent, world, retry)
      invariant RetriedBefore(n, sent, world, retry)
      invariant sent == maxAttempts ==> world(n + sent - 1).outcome == Unreachable
    {
      var o := world(n + sent).outcome;
      assert Attempt(n, sent, world) == o;
      settled := RecordAttempt(cb, url, world, n + sent, sent, retry);
      SendCallsGrow(old(cb.history), url, n, sent, world, retry);
      sent := sent + 1;
      if settled {
        reply := if o.Broken? then Raised else Response(url, o.code);
        return;
      }
    }
  }

  lemma NoSends(start: seq<Call>, url: string, n: nat, world: World, retry: bool)
    ensures start == start + SendCalls(url, n, 0, world, retry)
  {
  }

  lemma SendCallsGrow(start: seq<Call>, url: string, n: nat, sent: nat, world: World, retry: bool)
    ensures start + SendCalls(url, n, sent + 1, world, retry)
            == start + SendCalls(url, n, sent, world, retry) + AttemptCalls(url, world(n + sent), sent, retry)
  {
    hide AttemptCalls;
  }

  /** After at most three requests the clock has not gone past the next turn's start. */
  lemma TurnPasses(cb: CircuitBreaker, world: World, n: nat, sent: nat)
    requires Monotone(world) && sent <= SLOTS && cb.Reached(world(n + sent).start)
    ensures cb.Reached(world(n + SLOTS).start)
  {
    hide CircuitBreaker.Reached, Monotone;
    OrderlyIs(world, n);
    OrderlyIs(world, n + 1);
    OrderlyIs(world, n + 2);
    ReachedLater(cb, world(n + sent).start, world(n + SLOTS).start);
  }

  /** One URL's turn: ask the breaker, and attempt the URL unless its circuit is open. */
  method TakeTurn(cb: CircuitBreaker, url: string, retry: bool, world: World, n: nat)
    returns (settled: bool, reply: Reply, ghost t: Turn, open: bool, sent: nat)
    requires cb.Valid() && Monotone(world) && cb.Reached(world(n).start)
    modifies cb
    ensures cb.Valid() && cb.Reached(world(n + SLOTS).start)
    ensures t == Turn(url, open, n, sent)
    ensures t.open <==> Tripped(old(cb.history), url, world(n).start)
    ensures cb.history == old(cb.history) + TurnCalls(t, world, retry)
    ensures if settled then Settles(t, reply, world, retry) else GaveUp(t, world, retry)
  {
    hide After, Timed, Clock, Tripped, Settles, Settled, RetriedBefore, Attempt, Monotone, CircuitBreaker.Valid,
         CircuitBreaker.Reached;
    open := cb.IsOpen(url, world(n).start);
    settled, reply, sent := false, ConnectionFailed, 0;
    if !open {
      settled, reply, sent := AttemptUrl(cb, url, retry, world, n);
    }
    TurnPasses(cb, world, n, sent);
    t := Turn(url, open, n, sent);
  }

  /** Try the primary URL, then each fallback URL. */
  method TryBackendWithFallback(cb: CircuitBreaker, urls: seq<string>, retry: bool, world: World, n: nat)
    returns (reply: Reply, ghost turns: seq<Turn>)
    requires cb.Valid() && Monotone(world) && cb.Reached(world(n).start)
    modifies cb
    ensures cb.Valid() && cb.history == old(cb.history) + AllCalls(turns, world, retry)
    ensures InOrder(turns, urls, n) && SkipsTripped(turns, old(cb.history), world, retry)
    ensures Explains(reply, turns, urls, world, retry)
    ensures forall i :: 0 <= i < |turns| ==> turns[i].sent <= MaxAttempts(retry)
  {
    hide After, Timed, Clock, Tripped, AllCalls, TurnCalls, GaveUp, Settled, SkipsTripped, InOrder,
         CircuitBreaker.Valid, CircuitBreaker.Reached;
    reply := NothingTried;
    turns := [];
    var idx := 0;
    NoTurns(cb.history, urls, world, n, retry);
    while idx < |urls|
      invariant 0 <= idx == |turns| <= |urls|
      invariant cb.Valid() && cb.Reached(world(FirstOf(idx, n)).start)
      invariant cb.history == old(cb.history) + AllCalls(turns, world, retry)
      invariant InOrder(turns, urls, n) && SkipsTripped(turns, old(cb.history), world, retry)
      invariant AllGaveUp(turns, world, retry)
      invariant reply == if AllOpen(turns) then NothingTried else ConnectionFailed
    {
      ghost var was, history := turns, cb.history;
      var settled, r, t, open, _ := TakeTurn(cb, urls[idx], retry, world, FirstOf(idx, n));
      turns := was + [t];
      AddTurn(was, t, old(cb.history), world, retry);
      AddInOrder(was, t, urls, n);
      if settled {
        SettledExplains(r, was, t, urls, world, retry);
        SentAtMost(turns, world, retry);
        return r, turns;
      }
      if !open {
        reply := ConnectionFailed;
      }
      AllOpenGrows(was, t);
      idx := idx + 1;
    }
    SentAtMost(turns, world, retry);
  }

  ghost predicate AllGaveUp(turns: seq<Turn>, world: World, retry: bool) {
    forall i :: 0 <= i < |turns| ==> GaveUp(turns[i], world, retry)
  }

  ghost predicate AllOpen(turns: seq<Turn>) {
    forall i :: 0 <= i < |turns| ==> turns[i].open
  }

  lemma AllOpenGrows(turns: seq<Turn>, t: Turn)
    ensures (turns + [t])[|turns|] == t
    ensures AllOpen(turns + [t]) <==> AllOpen(turns) && t.open
  {
    forall i | 0 <= i < |turns| ensures (turns + [t])[i] == turns[i] {
    }
    assert AllOpen(turns + [t]) ==> forall i :: 0 <= i < |turns| ==> (turns + [t])[i].open;
  }

  lemma AddInOrder(turns: seq<Turn>, t: Turn, urls: seq<string>, n: nat)
    requires InOrder(turns, urls, n) && |turns| < |urls|
    requires t.url == urls[|turns|] && t.first == FirstOf(|turns|, n)
    ensures InOrder(turns + [t], urls, n)
  {
    hide FirstOf;
    forall i | 0 <= i < |turns| + 1 ensures (turns + [t])[i].first == FirstOf(i, n) {
      TakeOfAppend(turns, t, i);
    }
  }

  lemma TakeOfAppend(turns: seq<Turn>, t: Turn, i: nat)
    requires i <= |turns|
    ensures (turns + [t])[..i] == turns[..i]
    ensures i == |turns| ==> turns[..i] == turns
  {
  }

  lemma SettledExplains(reply: Reply, turns: seq<Turn>, t: Turn, urls: seq<string>, world: World, retry: bool)
    requires AllGaveUp(turns, world, retry) && Settles(t, reply, world, retry)
    ensures Explains(reply, turns + [t], urls, world, retry)
  {
    hide GaveUp, Settled;
  }

  lemma SentAtMost(turns: seq<Turn>, world: World, retry: bool)
    requires forall i :: 0 <= i < |turns| - 1 ==> GaveUp(turns[i], world, retry)
    requires turns != [] ==> var t := turns[|turns| - 1];
               GaveUp(t, world, retry) || exists o :: Settled(t, world, retry, o)
    ensures forall i :: 0 <= i < |turns| ==> turns[i].sent <= MaxAttempts(retry)
  {
  }

  lemma NoTurns(start: seq<Call>, urls: seq<string>, world: World, n: nat, retry: bool)
    ensures start == start + AllCalls([], world, retry)
    ensures SkipsTripped([], start, world, retry) && InOrder([], urls, n)
  {
  }

  /** The history grows by a turn's calls, and the earlier turns are judged as before. */
  lemma AddTurn(turns: seq<Turn>, t: Turn, start: seq<Call>, world: World, retry: bool)
    requires SkipsTripped(turns, start, world, retry)
    requires t.open <==> Tripped(start + AllCalls(turns, world, retry), t.url, world(t.first).start)
    ensures start + AllCalls(turns + [t], world, retry)
            == start + AllCalls(turns, world, retry) + TurnCalls(t, world, retry)
    ensures SkipsTripped(turns + [t], start, world, retry)
  {
    hide TurnCalls, Tripped, AllCalls;
    AllCallsGrow(turns, t, world, retry);
    var grown := turns + [t];
    forall i | 0 <= i < |grown|
      ensures grown[i].open <==> Tripped(start + AllCalls(grown[..i], world, retry), grown[i].url,
              world(grown[i].first).start)
    {
      TakeOfAppend(turns, t, i);
      if i < |turns| {
        assert grown[i] == turns[i];
      }
    }
    var a, b := AllCalls(turns, world, retry), TurnCalls(t, world, retry);
    assert start + (a + b) == start + a + b;
  }

  lemma AllCallsGrow(turns: seq<Turn>, t: Turn, world: World, retry: bool)
    ensures AllCalls(turns + [t], world, retry) == AllCalls(turns, world, retry) + TurnCalls(t, world, retry)
  {
    hide TurnCalls;
    TakeOfAppend(turns, t, |turns|);
  }

  // ------------------------------------------------------------------ consequences

  /** Everything `TryBackendWithFallback` promises about its turns and reply. */
  ghost predicate Account(reply: Reply, turns: seq<Turn>, urls: seq<string>, start: seq<Call>, world: World, n: nat,
                          retry: bool) {
    && InOrder(turns, urls, n) && SkipsTripped(turns, start, world, retry)
    && Explains(reply, turns, urls, world, retry)
  }

  /** A turn is determined by where it starts and whether it was skipped. */
  lemma TurnUnique(t1: Turn, t2: Turn, world: World, retry: bool)
    requires t1.url == t2.url && t1.open == t2.open && t1.first == t2.first
    requires GaveUp(t1, world, retry) || exists o :: Settled(t1, world, retry, o)
    requires GaveUp(t2, world, retry) || exists o :: Settled(t2, world, retry, o)
    ensures t1 == t2
    ensures GaveUp(t1, world, retry) ==> forall o :: !Settled(t2, world, retry, o)
  {
    assert t1.sent < t2.sent ==> !t1.open ==> Retriable(Attempt(t2.first, t1.sent - 1, world), retry);
    assert t2.sent < t1.sent ==> !t1.open ==> Retriable(Attempt(t1.first, t2.sent - 1, world), retry);
  }

  /** The turns two accounts share are the same, up to the shorter's end. */
  lemma {:induction false} TurnsUnique(r1: Reply, t1: seq<Turn>, r2: Reply, t2: seq<Turn>, urls: seq<string>,
                                       start: seq<Call>, world: World, n: nat, retry: bool, i: nat)
    requires Account(r1, t1, urls, start, world, n, retry) && Account(r2, t2, urls, start, world, n, retry)
    requires i <= |t1| && i <= |t2|
    ensures t1[..i] == t2[..i]
    decreases i
  {
    hide *;
    if i > 0 {
      TurnsUnique(r1, t1, r2, t2, urls, start, world, n, retry, i - 1);
      NextTurn(r1, t1, urls, start, world, n, retry, i - 1);
      NextTurn(r2, t2, urls, start, world, n, retry, i - 1);
      TurnUnique(t1[i - 1], t2[i - 1], world, retry);
      assert t1[..i] == t1[..i - 1] + [t1[i - 1]] && t2[..i] == t2[..i - 1] + [t2[i - 1]];
    }
  }

  /** What an account says of one turn, given those before it. */
  lemma NextTurn(reply: Reply, turns: seq<Turn>, urls: seq<string>, start: seq<Call>, world: World, n: nat,
                 retry: bool, i: nat)
    requires Account(reply, turns, urls, start, world, n, retry) && i < |turns|
    ensures i < |urls| && turns[i].url == urls[i] && turns[i].first == FirstOf(i, n)
    ensures turns[i].open <==> Tripped(start + AllCalls(turns[..i], world, retry), urls[i],
                                       world(FirstOf(i, n)).start)
    ensures GaveUp(turns[i], world, retry) || exists o :: Settled(turns[i], world, retry, o)
  {
    hide Tripped, AllCalls, GaveUp, Settled, FirstOf;
  }

  /** The contract determines the reply: for given URLs, history and upstream there is only one. */
  lemma ReplyUnique(r1: Reply, t1: seq<Turn>, r2: Reply, t2: seq<Turn>, urls: seq<string>,
                    start: seq<Call>, world: World, n: nat, retry: bool)
    requires Account(r1, t1, urls, start, world, n, retry) && Account(r2, t2, urls, start, world, n, retry)
    ensures r1 == r2 && t1 == t2
  {
    hide *;
    var m := if |t1| <= |t2| then |t1| else |t2|;
    TurnsUnique(r1, t1, r2, t2, urls, start, world, n, retry, m);
    assert t1[..m] == t2[..m];
    if m > 0 {
      assert t1[m - 1] == t1[..m][m - 1] == t2[..m][m - 1] == t2[m - 1];
      NextTurn(r1, t1, urls, start, world, n, retry, m - 1);
      NextTurn(r2, t2, urls, start, world, n, retry, m - 1);
      TurnUnique(t1[m - 1], t2[m - 1], world, retry);
      OutcomeUnique(t1[m - 1], world, retry);
    }
    ExplainsWhich(r1, t1, urls, world, retry, start, n);
    ExplainsWhich(r2, t2, urls, world, retry, start, n);
    assert t1 == t1[..|t1|] && t2 == t2[..|t2|];
  }

  /** What an account says of its last turn: settled by the reply, or, with the list used up, given up. */
  lemma ExplainsWhich(r: Reply, turns: seq<Turn>, urls: seq<string>, world: World, retry: bool, start: seq<Call>,
                      n: nat)
    requires Account(r, turns, urls, start, world, n, retry)
    ensures |turns| <= |urls|
    ensures r.Response? || r.Raised? ==>
              turns != [] && var t := turns[|turns| - 1];
              && Settled(t, world, retry, if r.Response? then Status(r.code) else Broken)
              && (r.Response? ==> r.url == t.url)
    ensures r.ConnectionFailed? || r.NothingTried? ==>
              && |turns| == |urls| && (turns != [] ==> GaveUp(turns[|turns| - 1], world, retry))
              && (r.NothingTried? <==> AllOpen(turns))
    ensures forall i :: 0 <= i < |turns| - 1 ==> GaveUp(turns[i], world, retry)
  {
    hide GaveUp, Settled, AllOpen, SkipsTripped;
  }

  lemma OutcomeUnique(t: Turn, world: World, retry: bool)
    ensures forall o1, o2 :: Settled(t, world, retry, o1) && Settled(t, world, retry, o2) ==> o1 == o2
    ensures forall o :: Settled(t, world, retry, o) ==> !GaveUp(t, world, retry)
  {
  }

  /**
    A turn settled by a status, whatever the status, ends with the breaker reset: a server that
    exhausts the retries with 5xx replies leaves its circuit closed.
   */
  lemma AnyStatusResets(t: Turn, code: int, history: seq<Call>, world: World, retry: bool)
    requires Settled(t, world, retry, Status(code))
    ensures Trailing(history + TurnCalls(t, world, retry), t.url) == 0
    ensures forall now :: !Tripped(history + TurnCalls(t, world, retry), t.url, now)
  {
    var e := world(t.first + t.sent - 1);
    var calls := AttemptCalls(t.url, e, t.sent - 1, retry);
    assert calls[|calls| - 1] == Succeed(t.url);
    var all := history + TurnCalls(t, world, retry);
    assert all[|all| - 1] == Succeed(t.url);
  }

  // ---- what the codes mean

  /**
    What an attempt comes to, by its outcome alone. A connection error is a failure and leaves the
    URL only when no attempt is left; a status of 500 or more, with retries, is a failure each time
    and ends the turn only at the third attempt, with a success recorded too; any other status ends it
    at once with one success; and any other exception ends it and records nothing.
   */
  predicate ByOutcome(url: string, e: Exchange, k: nat, last: bool, retry: bool, calls: seq<Call>) {
    var attempts := if retry then 3 else 1;
    && k < attempts
    && match e.outcome
       case Unreachable => calls == [Fail(url, e.end)] && (last <==> k + 1 == attempts)
       case Broken => calls == [] && last
       case Status(code) =>
         if retry && code >= 500 then
           calls == [Fail(url, e.end)] + (if k == 2 then [Succeed(url)] else []) && (last <==> k == 2)
         else calls == [Succeed(url)] && last
  }

  /** That is so of every attempt of an account, and the last one gives the reply or leads to the next URL. */
  lemma AttemptsByOutcome(reply: Reply, turns: seq<Turn>, urls: seq<string>, start: seq<Call>, world: World, n: nat,
                          retry: bool, i: nat, k: nat)
    requires Account(reply, turns, urls, start, world, n, retry) && i < |turns| && k < turns[i].sent
    ensures var t := turns[i];
            var e := world(t.first + k);
            && ByOutcome(t.url, e, k, k + 1 == t.sent, retry, OwnCalls(t.url, e, k, retry)) && !t.open
            && (k + 1 == t.sent ==>
                  match e.outcome
                  case Status(code) => i + 1 == |turns| && reply == Response(t.url, code)
                  case Broken => i + 1 == |turns| && reply == Raised
                  case Unreachable => i + 1 < |turns| || reply == ConnectionFailed)
  {
    hide *;
    NextTurn(reply, turns, urls, start, world, n, retry, i);
    ExplainsWhich(reply, turns, urls, world, retry, start, n);
    AttemptIn(turns[i], k, world, retry);
    OutcomeUnique(turns[i], world, retry);
    LastOutcome(turns[i], world, retry);
    if reply.NothingTried? {
      NotAllOpen(turns, i);
    }
  }

  lemma NotAllOpen(turns: seq<Turn>, i: nat)
    requires i < |turns| && AllOpen(turns)
    ensures turns[i].open
  {
  }

  lemma AttemptIn(t: Turn, k: nat, world: World, retry: bool)
    requires GaveUp(t, world, retry) || exists o :: Settled(t, world, retry, o)
    requires k < t.sent
    ensures var e := world(t.first + k);
            ByOutcome(t.url, e, k, k + 1 == t.sent, retry, OwnCalls(t.url, e, k, retry)) && !t.open
  {
    assert Attempt(t.first, k, world) == world(t.first + k).outcome;
    assert k + 1 < t.sent ==> Retriable(Attempt(t.first, k, world), retry);
  }

  /** A turn's last outcome tells whether it settled or gave up. */
  lemma LastOutcome(t: Turn, world: World, retry: bool)
    requires t.sent > 0
    ensures GaveUp(t, world, retry) ==> world(t.first + t.sent - 1).outcome == Unreachable && !t.open
    ensures forall o :: Settled(t, world, retry, o) ==> world(t.first + t.sent - 1).outcome == o && !o.Unreachable?
  {
  }

  // ---- within the turn

  /** The history right after the k-th attempt of a turn has been recorded as failed. */
  function FailedAt(history: seq<Call>, t: Turn, k: nat, world: World, retry: bool): seq<Call> {
    Until(history, t, k, world, retry) + [Fail(t.url, world(t.first + k).end)]
  }

  /** The k-th attempt is recorded as failed, and that leaves the circuit tripped. */
  ghost predicate TripsAt(history: seq<Call>, t: Turn, k: nat, world: World, retry: bool) {
    && k < t.sent && Retriable(Attempt(t.first, k, world), retry)
    && Tripped(FailedAt(history, t, k, world, retry), t.url, world(t.first + k).end)
  }

  lemma TrailingGrows(history: seq<Call>, call: Call, url: string)
    ensures Trailing(history + [call], url)
            == if call.url != url || call.Ask? then Trailing(history, url)
               else if call.Fail? then Trailing(history, url) + 1 else 0
    ensures call.url == url && call.Fail? ==> LastFailure(history + [call], url) == call.now
  {
    assert (history + [call])[..|history|] == history;
  }

  /** No other request reports on `url`. */
  predicate Quiet(calls: seq<Call>, url: string) {
    forall i :: 0 <= i < |calls| && calls[i].url == url ==> calls[i].Ask?
  }

  /** No other request reports on the URL while this turn waits. */
  ghost predicate QuietTurn(t: Turn, world: World) {
    forall k: nat :: QuietAttempt(t, k, world)
  }

  predicate QuietAttempt(t: Turn, k: nat, world: World) {
    k < t.sent ==> Quiet(world(t.first + k).others, t.url)
  }

  /** The failures in a row of `url` once these calls have followed `count` of them. */
  function Reported(count: nat, calls: seq<Call>, url: string): nat {
    if calls == [] then count
    else
      var last, before := calls[|calls| - 1], Reported(count, calls[..|calls| - 1], url);
      if last.url != url || last.Ask? then before else if last.Fail? then before + 1 else 0
  }

  lemma {:induction false} TrailingReported(history: seq<Call>, calls: seq<Call>, url: string)
    ensures Trailing(history + calls, url) == Reported(Trailing(history, url), calls, url)
    decreases |calls|
  {
    hide Trailing;
    if calls == [] {
      assert history + calls == history;
    } else {
      var n := |calls| - 1;
      TrailingReported(history, calls[..n], url);
      TrailingGrows(history + calls[..n], calls[n], url);
      assert history + calls == history + calls[..n] + [calls[n]];
    }
  }

  lemma {:induction false} QuietReportsNothing(count: nat, calls: seq<Call>, url: string)
    requires Quiet(calls, url)
    ensures Reported(count, calls, url) == count
    decreases |calls|
  {
    if calls != [] {
      QuietReportsNothing(count, calls[..|calls| - 1], url);
    }
  }

  /**
    The failures in a row of a turn's URL when its k-th attempt ends: each attempt before has added
    one, and what other requests report counts as it comes.
   */
  function Counted(history: seq<Call>, t: Turn, k: nat, world: World): nat {
    var before := if k == 0 then Trailing(history, t.url) else Counted(history, t, k - 1, world) + 1;
    Reported(before, world(t.first + k).others, t.url)
  }

  /** The history at the end of the k-th attempt. */
  function Until(history: seq<Call>, t: Turn, k: nat, world: World, retry: bool): seq<Call> {
    history + [Ask(t.url, world(t.first).start)] + SendCalls(t.url, t.first, k, world, retry)
    + world(t.first + k).others
  }

  lemma {:induction false} CountedIsTrailing(history: seq<Call>, t: Turn, k: nat, world: World, retry: bool)
    requires k < t.sent <= MaxAttempts(retry) && RetriedBefore(t.first, t.sent - 1, world, retry)
    ensures Trailing(Until(history, t, k, world, retry), t.url) == Counted(history, t, k, world)
  {
    hide *;
    var asked := history + [Ask(t.url, world(t.first).start)];
    var sent := asked + SendCalls(t.url, t.first, k, world, retry);
    UntilIs(history, t, k, world, retry);
    TrailingReported(sent, world(t.first + k).others, t.url);
    CountedUnfolds(history, t, k, world);
    if k == 0 {
      TrailingGrows(history, Ask(t.url, world(t.first).start), t.url);
      NoSends(asked, t.url, t.first, world, retry);
    } else {
      CountedIsTrailing(history, t, k - 1, world, retry);
      var before, e := asked + SendCalls(t.url, t.first, k - 1, world, retry), world(t.first + k - 1);
      UntilIs(history, t, k - 1, world, retry);
      SendCallsGrow(asked, t.url, t.first, k - 1, world, retry);
      RetriedAt(t, k - 1, world, retry);
      JustFailed(t.url, e, k - 1, retry);
      TrailingGrows(before + e.others, Fail(t.url, e.end), t.url);
      assert before + (e.others + [Fail(t.url, e.end)]) == before + e.others + [Fail(t.url, e.end)];
    }
  }

  lemma UntilIs(history: seq<Call>, t: Turn, k: nat, world: World, retry: bool)
    ensures Until(history, t, k, world, retry)
            == history + [Ask(t.url, world(t.first).start)] + SendCalls(t.url, t.first, k, world, retry)
               + world(t.first + k).others
  {
    hide SendCalls;
  }

  lemma CountedUnfolds(history: seq<Call>, t: Turn, k: nat, world: World)
    ensures Counted(history, t, k, world)
            == Reported(if k == 0 then Trailing(history, t.url) else Counted(history, t, k - 1, world) + 1,
                        world(t.first + k).others, t.url)
  {
    hide Reported, Trailing;
  }

  lemma {:induction false} CountedQuietly(history: seq<Call>, t: Turn, k: nat, world: World)
    requires QuietTurn(t, world) && k < t.sent
    ensures Counted(history, t, k, world) == Trailing(history, t.url) + k
  {
    hide *;
    QuietAt(t, world, k);
    CountedUnfolds(history, t, k, world);
    if k > 0 {
      CountedQuietly(history, t, k - 1, world);
    }
    QuietReportsNothing(Trailing(history, t.url) + k, world(t.first + k).others, t.url);
  }

  lemma QuietAt(t: Turn, world: World, k: nat)
    requires QuietTurn(t, world) && k < t.sent
    ensures Quiet(world(t.first + k).others, t.url)
  {
    assert QuietAttempt(t, k, world);
  }

  lemma RetriedAt(t: Turn, k: nat, world: World, retry: bool)
    requires k < t.sent - 1 && RetriedBefore(t.first, t.sent - 1, world, retry)
    ensures Retriable(world(t.first + k).outcome, retry)
  {
    assert Retriable(Attempt(t.first, k, world), retry);
  }

  /** A failed attempt that is not the last makes one call of its own. */
  lemma JustFailed(url: string, e: Exchange, k: nat, retry: bool)
    requires Retriable(e.outcome, retry) && k + 1 < MaxAttempts(retry)
    ensures AttemptCalls(url, e, k, retry) == e.others + [Fail(url, e.end)]
  {
  }

  lemma TripsAtIs(history: seq<Call>, t: Turn, k: nat, world: World, retry: bool)
    requires k < t.sent <= MaxAttempts(retry) && RetriedBefore(t.first, t.sent - 1, world, retry)
    ensures TripsAt(history, t, k, world, retry)
            <==> Retriable(Attempt(t.first, k, world), retry) && Counted(history, t, k, world) + 1 >= FAILURE_THRESHOLD
  {
    hide *;
    CountedIsTrailing(history, t, k, world, retry);
    FailedAtIs(history, t, k, world, retry);
    TrailingGrows(Until(history, t, k, world, retry), Fail(t.url, world(t.first + k).end), t.url);
    TripsIs(history, t, k, world, retry);
  }

  lemma TripsIs(history: seq<Call>, t: Turn, k: nat, world: World, retry: bool)
    requires k < t.sent && LastFailure(FailedAt(history, t, k, world, retry), t.url) == world(t.first + k).end
    ensures TripsAt(history, t, k, world, retry)
            <==> Retriable(Attempt(t.first, k, world), retry)
                 && Trailing(FailedAt(history, t, k, world, retry), t.url) >= FAILURE_THRESHOLD
  {
    hide FailedAt, Trailing, LastFailure;
  }

  lemma FailedAtIs(history: seq<Call>, t: Turn, k: nat, world: World, retry: bool)
    ensures FailedAt(history, t, k, world, retry)
            == Until(history, t, k, world, retry) + [Fail(t.url, world(t.first + k).end)]
  {
    hide Until;
  }

  /**
    A turn trips its circuit on the way if and only if some attempt of it fails with four failures in
    a row counted by then, other requests' reports included.
   */
  lemma TripsMidTurn(t: Turn, history: seq<Call>, world: World, retry: bool)
    requires t.sent <= MaxAttempts(retry) && RetriedBefore(t.first, t.sent - 1, world, retry)
    ensures (exists k: nat :: TripsAt(history, t, k, world, retry))
            <==> exists k: nat ::
                   k < t.sent && Retriable(Attempt(t.first, k, world), retry)
                   && Counted(history, t, k, world) + 1 >= FAILURE_THRESHOLD
  {
    hide Trailing, TripsAt, Attempt, Counted, Retriable;
    forall k: nat | k < t.sent
      ensures TripsAt(history, t, k, world, retry)
              <==> Retriable(Attempt(t.first, k, world), retry)
                   && Counted(history, t, k, world) + 1 >= FAILURE_THRESHOLD
    {
      TripsAtIs(history, t, k, world, retry);
    }
    TripsWithin(history, t, world, retry);
  }

  /** The failures a turn records when a status settles it. */
  function FailuresOf(t: Turn, code: int, retry: bool): int {
    t.sent - 1 + if Retriable(Status(code), retry) then 1 else 0
  }

  /**
    When no other request reports on the URL meanwhile, a turn that a status settles trips its
    circuit on the way if and only if it records a failure and the failures before it and in it reach
    the threshold. The closing success then hides it.
   */
  lemma TripsAlone(t: Turn, code: int, history: seq<Call>, world: World, retry: bool)
    requires Settled(t, world, retry, Status(code)) && QuietTurn(t, world)
    ensures (exists k: nat :: TripsAt(history, t, k, world, retry))
            <==> FailuresOf(t, code, retry) > 0
                 && Trailing(history, t.url) + FailuresOf(t, code, retry) >= FAILURE_THRESHOLD
  {
    hide Trailing, TripsAt, Attempt, QuietTurn, Counted;
    TripsMidTurn(t, history, world, retry);
    forall k: nat | k < t.sent ensures Counted(history, t, k, world) == Trailing(history, t.url) + k {
      CountedQuietly(history, t, k, world);
    }
    var m := FailuresOf(t, code, retry) - 1;
    if m >= 0 && Trailing(history, t.url) + m + 1 >= FAILURE_THRESHOLD {
      assert Retriable(Attempt(t.first, m, world), retry);
      assert Counted(history, t, m, world) == Trailing(history, t.url) + m;
    }
  }

  lemma TripsWithin(history: seq<Call>, t: Turn, world: World, retry: bool)
    ensures forall k: nat :: TripsAt(history, t, k, world, retry) ==> k < t.sent
  {
  }

  /** Such a turn: two failures before, three 5xx replies in it. */
  lemma FiveRepliesTrip(url: string)
    ensures var history, t := [Fail(url, 0.0), Fail(url, 0.0)], Turn(url, false, 0, 3);
            var world: World := (n: nat) => Exchange(0.0, 0.0, [], Status(503));
            && Settled(t, world, true, Status(503)) && !Tripped(history, url, 0.0)
            && (exists k: nat :: TripsAt(history, t, k, world, true))
            && !Tripped(history + TurnCalls(t, world, true), url, 0.0)
  {
    var history, t := [Fail(url, 0.0), Fail(url, 0.0)], Turn(url, false, 0, 3);
    var world: World := (n: nat) => Exchange(0.0, 0.0, [], Status(503));
    TrailingGrows([], Fail(url, 0.0), url);
    TrailingGrows([Fail(url, 0.0)], Fail(url, 0.0), url);
    var none: seq<Call> := [];
    assert none + [Fail(url, 0.0)] == [Fail(url, 0.0)] && [Fail(url, 0.0)] + [Fail(url, 0.0)] == history;
    assert Trailing([], url) == 0;
    hide Trailing, TurnCalls;
    TripsAlone(t, 503, history, world, true);
    AnyStatusResets(t, 503, history, world, true);
  }

  // ---- attempts per URL

  function Occurrences(urls: seq<string>, url: string): nat {
    if urls == [] then 0
    else Occurrences(urls[..|urls| - 1], url) + if urls[|urls| - 1] == url then 1 else 0
  }

  /** The requests sent to a URL, in whatever turns. */
  function SentTo(turns: seq<Turn>, url: string): nat {
    if turns == [] then 0
    else
      var t := turns[|turns| - 1];
      SentTo(turns[..|turns| - 1], url) + if t.url == url then t.sent else 0
  }

  lemma {:induction false} FewerOccurrences(urls: seq<string>, m: nat, url: string)
    requires m <= |urls|
    ensures Occurrences(urls[..m], url) <= Occurrences(urls, url)
    decreases |urls|
  {
    if m < |urls| {
      var init := urls[..|urls| - 1];
      assert init[..m] == urls[..m];
      FewerOccurrences(init, m, url);
    } else {
      assert urls[..m] == urls;
    }
  }

  lemma {:induction false} SentPerListing(turns: seq<Turn>, urls: seq<string>, url: string, m: nat, retry: bool)
    requires m <= |turns| <= |urls| && forall i :: 0 <= i < |turns| ==> turns[i].url == urls[i]
    ensures (forall i :: 0 <= i < |turns| ==> turns[i].sent <= MaxAttempts(retry)) ==>
              SentTo(turns[..m], url) <= Occurrences(urls[..m], url) * MaxAttempts(retry)
    ensures (forall i :: 0 <= i < |turns| ==> turns[i].sent == MaxAttempts(retry)) ==>
              SentTo(turns[..m], url) == Occurrences(urls[..m], url) * MaxAttempts(retry)
    decreases m
  {
    if m > 0 {
      SentPerListing(turns, urls, url, m - 1, retry);
      assert turns[..m][..m - 1] == turns[..m - 1] && urls[..m][..m - 1] == urls[..m - 1];
    }
  }

  /** In every account a URL is sent at most its attempts once for each time it is listed. */
  lemma SentAtMostPerListing(reply: Reply, turns: seq<Turn>, urls: seq<string>, start: seq<Call>, world: World, n: nat,
                             retry: bool, url: string)
    requires Account(reply, turns, urls, start, world, n, retry)
    ensures SentTo(turns, url) <= Occurrences(urls, url) * MaxAttempts(retry)
  {
    hide SentTo, Occurrences, SkipsTripped, GaveUp, Settled, FirstOf, AllOpen;
    ExplainsWhich(reply, turns, urls, world, retry, start, n);
    hide Explains;
    SentAtMost(turns, world, retry);
    SentPerListing(turns, urls, url, |turns|, retry);
    FewerOccurrences(urls, |turns|, url);
    assert turns[..|turns|] == turns;
  }

  /** Nothing answers, and waits are long: circuits never stay open. */
  const SILENCE: World := (n: nat) => Exchange(100.0 * n as real, 100.0 * n as real, [], Unreachable)

  function SilentTurns(urls: seq<string>, retry: bool): seq<Turn> {
    seq(|urls|, i requires 0 <= i < |urls| => Turn(urls[i], false, FirstOf(i, 0), MaxAttempts(retry)))
  }

  /** Every failure was at `bound` or before. */
  predicate FailedBy(calls: seq<Call>, bound: real) {
    forall i :: 0 <= i < |calls| && calls[i].Fail? ==> calls[i].now <= bound
  }

  lemma {:induction false} LastFailureBy(calls: seq<Call>, url: string, bound: real)
    requires FailedBy(calls, bound) && bound >= 0.0
    ensures LastFailure(calls, url) <= bound
    decreases |calls|
  {
    if calls != [] {
      LastFailureBy(calls[..|calls| - 1], url, bound);
    }
  }

  lemma {:induction false} SilentSends(url: string, first: nat, sent: nat, bound: real, retry: bool)
    requires sent <= MaxAttempts(retry) && 100.0 * (first + sent) as real - 100.0 <= bound
    ensures FailedBy(SendCalls(url, first, sent, SILENCE, retry), bound)
    decreases sent
  {
    if sent > 0 {
      SilentSends(url, first, sent - 1, bound, retry);
      assert AttemptCalls(url, SILENCE(first + sent - 1), sent - 1, retry)
             == [Fail(url, 100.0 * (first + sent - 1) as real)];
    }
  }

  lemma {:induction false} SilentCalls(turns: seq<Turn>, retry: bool)
    requires forall i :: 0 <= i < |turns| ==> turns[i].first == FirstOf(i, 0) && turns[i].sent == MaxAttempts(retry)
    ensures FailedBy(AllCalls(turns, SILENCE, retry), 300.0 * |turns| as real - 100.0)
    decreases |turns|
  {
    if turns != [] {
      var k := |turns| - 1;
      var t := turns[k];
      SilentCalls(turns[..k], retry);
      hide SendCalls;
      SilentSends(t.url, t.first, t.sent, 300.0 * |turns| as real - 100.0, retry);
    }
  }

  lemma NeverTripped(turns: seq<Turn>, i: nat, retry: bool)
    requires i < |turns|
    requires forall j :: 0 <= j < |turns| ==> turns[j].first == FirstOf(j, 0) && turns[j].sent == MaxAttempts(retry)
    ensures !Tripped([] + AllCalls(turns[..i], SILENCE, retry), turns[i].url, SILENCE(turns[i].first).start)
  {
    var calls := AllCalls(turns[..i], SILENCE, retry);
    assert [] + calls == calls;
    if i > 0 {
      SilentCalls(turns[..i], retry);
      LastFailureBy(calls, turns[i].url, 300.0 * i as real - 100.0);
      hide AllCalls, LastFailure, Trailing;
    }
  }

  /** There all attempts are made, at every listing. */
  lemma SilenceSendsAll(urls: seq<string>, url: string, retry: bool)
    requires urls != []
    ensures Monotone(SILENCE)
    ensures Account(ConnectionFailed, SilentTurns(urls, retry), urls, [], SILENCE, 0, retry)
    ensures SentTo(SilentTurns(urls, retry), url) == Occurrences(urls, url) * MaxAttempts(retry)
  {
    var turns := SilentTurns(urls, retry);
    hide SentTo, Occurrences, Tripped, AllCalls;
    SentPerListing(turns, urls, url, |urls|, retry);
    assert turns[..|urls|] == turns && urls[..|urls|] == urls;
    forall i: nat | i < |turns|
      ensures !Tripped([] + AllCalls(turns[..i], SILENCE, retry), turns[i].url, SILENCE(turns[i].first).start)
    {
      NeverTripped(turns, i, retry);
    }
    assert SkipsTripped(turns, [], SILENCE, retry);
    hide SkipsTripped;
    assert !turns[0].open;
  }

  /**
    The bound on attempts is kept for a URL in every world and after every history if and only if the
    URL is listed at most once.
   */
  lemma AttemptsPerUrl(urls: seq<string>, url: string, retry: bool)
    ensures (forall reply, turns, start, world, n {:trigger Account(reply, turns, urls, start, world, n, retry)} ::
               Monotone(world) && Account(reply, turns, urls, start, world, n, retry) ==>
                 SentTo(turns, url) <= MaxAttempts(retry))
            <==> Occurrences(urls, url) <= 1
  {
    hide Account, Monotone, SentTo, SilentTurns;
    if Occurrences(urls, url) <= 1 {
      forall reply, turns, start, world, n | Account(reply, turns, urls, start, world, n, retry)
        ensures SentTo(turns, url) <= MaxAttempts(retry)
      {
        SentAtMostPerListing(reply, turns, urls, start, world, n, retry, url);
      }
    } else {
      SilenceSendsAll(urls, url, retry);
      assert SentTo(SilentTurns(urls, retry), url) > MaxAttempts(retry);
    }
  }

  // ---- a URL listed twice

  /** The bound on attempts is per turn: a URL that is listed twice gets its attempts twice. */
  lemma ListedTwiceSentTwice(url: string)
    ensures var world: World := (n: nat) => Exchange(0.0, 0.0, [], Unreachable);
            var turns := [Turn(url, false, 0, 1), Turn(url, false, 3, 1)];
            && Account(ConnectionFailed, turns, [url, url], [], world, 0, false)
            && turns[0].sent + turns[1].sent == 2 * MaxAttempts(false)
  {
    var world: World := (n: nat) => Exchange(0.0, 0.0, [], Unreachable);
    var t1, t2 := Turn(url, false, 0, 1), Turn(url, false, 3, 1);
    TwoInOrder(t1, t2);
    NeitherTripped(t1, t2, world);
    hide InOrder, SkipsTripped;
    assert GaveUp(t1, world, false) && GaveUp(t2, world, false);
    hide GaveUp;
    assert AllGaveUp([t1, t2], world, false);
    assert ![t1, t2][0].open;
  }

  lemma TwoInOrder(t1: Turn, t2: Turn)
    requires t1.first == 0 && t1.sent == 1 && t2.first == 3
    ensures InOrder([t1, t2], [t1.url, t2.url], 0)
  {
    assert [t1, t2][..0] == [] && [t1, t2][..1] == [t1];
  }

  lemma NeitherTripped(t1: Turn, t2: Turn, world: World)
    requires t1.url == t2.url && !t1.open && !t2.open && t1.sent == 1 && world(t1.first).outcome == Unreachable
             && world(t1.first).others == []
    ensures SkipsTripped([t1, t2], [], world, false)
  {
    FewCalls(t1, world);
    AllCallsGrow([], t1, world, false);
    hide Tripped, TurnCalls;
    var none: seq<Call>, empty: seq<Turn> := [], [];
    assert none + none == none && empty + [t1] == [t1]
           && none + TurnCalls(t1, world, false) == TurnCalls(t1, world, false);
    assert AllCalls([], world, false) == [];
    hide AllCalls;
    assert [t1, t2][..0] == [] && [t1, t2][..1] == [t1];
  }

  lemma FewCalls(t: Turn, world: World)
    requires t.sent == 1 && world(t.first).outcome == Unreachable && world(t.first).others == []
    ensures !Tripped([], t.url, world(t.first).start)
    ensures forall now :: !Tripped(TurnCalls(t, world, false), t.url, now)
  {
    var a, f := Ask(t.url, world(t.first).start), Fail(t.url, world(t.first).end);
    var none: seq<Call> := [];
    assert SendCalls(t.url, t.first, 0, world, false) == none;
    assert AttemptCalls(t.url, world(t.first), 0, false) == [f];
    assert TurnCalls(t, world, false) == [a] + [f] && none + [a] == [a] && none + [f] == [f];
    TrailingGrows([], a, t.url);
    TrailingGrows([a], f, t.url);
  }
}
