/** The in-process rate limiter: token bucket, sliding token window, concurrency count. */
module RateLimits {
  import opened TokenRecords

  const BUCKET_TTL := 300.0

  datatype Bucket = Bucket(tokens: real, at: real)

  datatype State = State(buckets: map<string, Bucket>, records: map<string, seq<Record>>, lastCleanup: real)

  datatype Answer = Answer(allowed: bool, retryAfter: real)

  function Min(a: real, b: real): real { if b < a then b else a }

  function RecordsOf(records: map<string, seq<Record>>, key: string): seq<Record> {
    if key in records then records[key] else []
  }

  // ------------------------------------------------------------------ the specification

  /** Drop buckets idle for more than five minutes and records older than a minute, at most once a minute. */
  function Cleanup(st: State, now: real): State {
    if now - st.lastCleanup < 60.0 then st
    else State(
           map k | k in st.buckets && !(st.buckets[k].at < now - BUCKET_TTL) :: st.buckets[k],
           map k | k in st.records && Active(st.records[k], now - 60.0) != [] :: Active(st.records[k], now - 60.0),
           now)
  }

  /** The tokens that arrive in a while: `limit` a minute. */
  function Gain(elapsed: real, limit: int): real { elapsed * (limit as real / 60.0) }

  /** Tokens in `key`'s bucket at `now`, after replenishing; a missing bucket is full. */
  function Level(buckets: map<string, Bucket>, key: string, limit: int, now: real): real {
    var b := if key in buckets then buckets[key] else Bucket(limit as real, now);
    Min(limit as real, b.tokens + Gain(now - b.at, limit))
  }

  /** Take one token from a full enough bucket. */
  function TakeToken(buckets: map<string, Bucket>, key: string, limit: int, now: real): (map<string, Bucket>, Answer)
    requires limit > 0
  {
    var level := Level(buckets, key, limit, now);
    if level >= 1.0 then (buckets[key := Bucket(level - 1.0, now)], Answer(true, 0.0))
    else (buckets[key := Bucket(level, now)], Answer(false, (1.0 - level) / (limit as real / 60.0)))
  }

  /** The tokens a call needs room for: a peek needs one. */
  function Amount(want: int): int { if want > 0 then want else 1 }

  /** The verdict on `want` tokens over the live records. */
  function Verdict(live: seq<Record>, limit: int, want: int, now: real): Answer {
    var over := Total(live) + Amount(want) - limit;
    if over > 0 then Answer(false, RetryFrom(live, 0, over, now)) else Answer(true, 0.0)
  }

  /** The live records after an answer: an accepted consuming call is recorded. */
  function Charge(live: seq<Record>, want: int, now: real, answer: Answer): seq<Record> {
    if answer.allowed && want > 0 then live + [Record(now, want)] else live
  }

  /** A call, with the clock reading of its clean-up and the one it decides by. */
  datatype Call =
    | Request(key: string, limit: int, cleanupAt: real, now: real)
    | Tokens(key: string, limit: int, want: int, cleanupAt: real, now: real)
    | Spend(key: string, tokens: int, now: real)
  {
    function StartsAt(): real { if Spend? then now else cleanupAt }
  }

  function Step(st: State, c: Call): (State, Answer) {
    match c
    case Request(key, limit, cleanupAt, now) =>
      if limit <= 0 then (st, Answer(true, 0.0)) else
      var st1 := Cleanup(st, cleanupAt);
      var (buckets, answer) := TakeToken(st1.buckets, key, limit, now);
      (st1.(buckets := buckets), answer)
    case Tokens(key, limit, want, cleanupAt, now) =>
      if limit <= 0 then (st, Answer(true, 0.0)) else
      var st1 := Cleanup(st, cleanupAt);
      var live := Active(RecordsOf(st1.records, key), now - 60.0);
      var answer := Verdict(live, limit, want, now);
      (st1.(records := st1.records[key := Charge(live, want, now, answer)]), answer)
    case Spend(key, tokens, now) =>
      if tokens <= 0 then (st, Answer(true, 0.0)) else
      var live := Active(RecordsOf(st.records, key), now - 60.0);
      (st.(records := st.records[key := live + [Record(now, tokens)]]), Answer(true, 0.0))
  }

  function Answers(st: State, calls: seq<Call>): (r: seq<Answer>)
    ensures |r| == |calls|
    decreases |calls|
  {
    if calls == [] then [] else
    var (st1, answer) := Step(st, calls[0]);
    [answer] + Answers(st1, calls[1..])
  }

  function After(st: State, calls: seq<Call>): State
    decreases |calls|
  {
    if calls == [] then st else After(Step(st, calls[0]).0, calls[1..])
  }

  function Initial(now: real): State { State(map[], map[], now) }

  /** Clock readings never go back, and none is earlier than `from`. */
  ghost predicate Timed(calls: seq<Call>, from: real)
    decreases |calls|
  {
    calls == [] || (from <= calls[0].StartsAt() <= calls[0].now && Timed(calls[1..], calls[0].now))
  }

  // ------------------------------------------------------------------ a limiter that forgets nothing

  /** The same decisions over buckets and records that are never deleted. */
  function Remember(st: State, c: Call): (State, Answer) {
    match c
    case Request(key, limit, cleanupAt, now) =>
      if limit <= 0 then (st, Answer(true, 0.0)) else
      var (buckets, answer) := TakeToken(st.buckets, key, limit, now);
      (st.(buckets := buckets), answer)
    case Tokens(key, limit, want, cleanupAt, now) =>
      if limit <= 0 then (st, Answer(true, 0.0)) else
      var log := RecordsOf(st.records, key);
      var answer := Verdict(Active(log, now - 60.0), limit, want, now);
      (st.(records := st.records[key := Charge(log, want, now, answer)]), answer)
    case Spend(key, tokens, now) =>
      if tokens <= 0 then (st, Answer(true, 0.0)) else
      (st.(records := st.records[key := RecordsOf(st.records, key) + [Record(now, tokens)]]), Answer(true, 0.0))
  }

  function RememberAnswers(st: State, calls: seq<Call>): (r: seq<Answer>)
    ensures |r| == |calls|
    decreases |calls|
  {
    if calls == [] then [] else
    var (st1, answer) := Remember(st, calls[0]);
    [answer] + RememberAnswers(st1, calls[1..])
  }

  function Remembered(st: State, calls: seq<Call>): State
    decreases |calls|
  {
    if calls == [] then st else Remembered(Remember(st, calls[0]).0, calls[1..])
  }

  /** What the two limiters agree on at time `now`. */
  ghost predicate SameBuckets(kept: map<string, Bucket>, full: map<string, Bucket>, now: real) {
    && (forall k :: k in kept ==> k in full && kept[k] == full[k])
    && (forall k :: k in full ==> full[k].tokens >= 0.0 && full[k].at <= now
                                  && (k !in kept ==> full[k].at < now - BUCKET_TTL))
  }

  ghost predicate SameWindows(kept: map<string, seq<Record>>, full: map<string, seq<Record>>, now: real) {
    forall k :: Active(RecordsOf(kept, k), now - 60.0) == Active(RecordsOf(full, k), now - 60.0)
  }

  lemma Scale(a: real, b: real, rate: real)
    requires a >= b && rate >= 0.0
    ensures a * rate >= b * rate
    ensures b == 0.0 ==> a * rate >= 0.0
  {
    assert (a - b) * rate >= 0.0;
  }

  lemma GainAdds(a: real, b: real, limit: int)
    ensures Gain(a + b, limit) == Gain(a, limit) + Gain(b, limit) && Gain(0.0, limit) == 0.0
  {
    var rate := limit as real / 60.0;
    assert (a + b) * rate == a * rate + b * rate;
  }

  lemma GainGrows(a: real, b: real, limit: int)
    requires a <= b && limit > 0
    ensures Gain(a, limit) <= Gain(b, limit)
  {
    Scale(b, a, limit as real / 60.0);
  }

  /** Five minutes bring five times the limit. */
  lemma GainFills(limit: int)
    ensures Gain(300.0, limit) == 5.0 * limit as real
  {
  }

  /** A bucket idle for more than five minutes is full, for any limit in force by then. */
  lemma StaleIsFull(b: Bucket, limit: int, now: real)
    requires limit > 0 && b.tokens >= 0.0 && b.at < now - BUCKET_TTL
    ensures Min(limit as real, b.tokens + Gain(now - b.at, limit)) == limit as real
  {
    GainGrows(300.0, now - b.at, limit);
    GainFills(limit);
    hide Gain;
  }

  lemma SameLevel(kept: map<string, Bucket>, full: map<string, Bucket>, key: string, limit: int, now: real)
    requires limit > 0 && SameBuckets(kept, full, now)
    ensures Level(kept, key, limit, now) == Level(full, key, limit, now)
    ensures Level(full, key, limit, now) >= 0.0
  {
    hide Gain;
    GainAdds(0.0, 0.0, limit);
    if key in full {
      if key !in kept {
        StaleIsFull(full[key], limit, now);
      }
      GainGrows(0.0, now - full[key].at, limit);
    }
  }

  lemma WindowsStay(kept: map<string, seq<Record>>, full: map<string, seq<Record>>, now: real, later: real)
    requires SameWindows(kept, full, now) && now <= later
    ensures SameWindows(kept, full, later)
  {
    hide Active, RecordsOf;
    forall k ensures Active(RecordsOf(kept, k), later - 60.0) == Active(RecordsOf(full, k), later - 60.0) {
      assert Active(RecordsOf(kept, k), now - 60.0) == Active(RecordsOf(full, k), now - 60.0);
      ActiveTwice(RecordsOf(kept, k), now - 60.0, later - 60.0);
      ActiveTwice(RecordsOf(full, k), now - 60.0, later - 60.0);
    }
  }

  lemma CleanupKeepsWindows(st: State, now: real)
    ensures SameWindows(Cleanup(st, now).records, st.records, now)
  {
    hide Active;
    NoneActive(now - 60.0);
    forall k ensures Active(RecordsOf(Cleanup(st, now).records, k), now - 60.0)
                     == Active(RecordsOf(st.records, k), now - 60.0)
    {
      ActiveTwice(RecordsOf(st.records, k), now - 60.0, now - 60.0);
    }
  }

  /** The relation that ties the limiter to the one that forgets nothing. */
  ghost predicate Same(kept: State, full: State, now: real) {
    SameBuckets(kept.buckets, full.buckets, now) && SameWindows(kept.records, full.records, now)
  }

  lemma CleanupStaysSame(kept: State, full: State, now: real, at: real)
    requires Same(kept, full, now) && now <= at
    ensures Same(Cleanup(kept, at), full, at)
  {
    WindowsStay(kept.records, full.records, now, at);
    CleanupKeepsWindows(kept, at);
  }

  lemma ChargeStaysSame(kept: map<string, seq<Record>>, full: map<string, seq<Record>>, key: string, now: real,
                        extra: seq<Record>)
    requires SameWindows(kept, full, now)
    ensures var live := Active(RecordsOf(kept, key), now - 60.0);
            SameWindows(kept[key := live + extra], full[key := RecordsOf(full, key) + extra], now)
  {
    var live := Active(RecordsOf(kept, key), now - 60.0);
    var log := RecordsOf(full, key);
    var cutoff := now - 60.0;
    ActiveTwice(RecordsOf(kept, key), cutoff, cutoff);
    ActiveAppend(live, extra, cutoff);
    ActiveAppend(log, extra, cutoff);
    assert Active(live + extra, cutoff) == Active(log + extra, cutoff);
    var kept', full' := kept[key := live + extra], full[key := log + extra];
    forall k ensures Active(RecordsOf(kept', k), cutoff) == Active(RecordsOf(full', k), cutoff) {
      if k != key {
        assert RecordsOf(kept', k) == RecordsOf(kept, k) && RecordsOf(full', k) == RecordsOf(full, k);
      }
    }
  }

  lemma RequestStaysSame(kept: State, full: State, now: real, c: Call)
    requires c.Request? && Same(kept, full, now) && now <= c.StartsAt() <= c.now
    ensures Step(kept, c).1 == Remember(full, c).1
    ensures Same(Step(kept, c).0, Remember(full, c).0, c.now)
  {
    hide Active, Cleanup, TakeToken, SameBuckets, SameWindows, Verdict;
    if c.limit > 0 {
      CleanupStaysSame(kept, full, now, c.cleanupAt);
      var st := Cleanup(kept, c.cleanupAt);
      WindowsStay(st.records, full.records, c.cleanupAt, c.now);
      TakeStaysSame(st.buckets, full.buckets, c.cleanupAt, c.key, c.limit, c.now);
    } else {
      WindowsStay(kept.records, full.records, now, c.now);
      BucketsStay(kept.buckets, full.buckets, now, c.now);
    }
  }

  lemma BucketsStay(kept: map<string, Bucket>, full: map<string, Bucket>, now: real, later: real)
    requires SameBuckets(kept, full, now) && now <= later
    ensures SameBuckets(kept, full, later)
  {
  }

  lemma TakeStaysSame(kept: map<string, Bucket>, full: map<string, Bucket>, now: real, key: string, limit: int,
                      later: real)
    requires limit > 0 && SameBuckets(kept, full, now) && now <= later
    ensures TakeToken(kept, key, limit, later).1 == TakeToken(full, key, limit, later).1
    ensures SameBuckets(TakeToken(kept, key, limit, later).0, TakeToken(full, key, limit, later).0, later)
  {
    BucketsStay(kept, full, now, later);
    SameLevel(kept, full, key, limit, later);
    hide Level, SameBuckets;
    var level := Level(full, key, limit, later);
    PutStaysSame(kept, full, key, Bucket(if level >= 1.0 then level - 1.0 else level, later), later);
  }

  lemma PutStaysSame(kept: map<string, Bucket>, full: map<string, Bucket>, key: string, b: Bucket, now: real)
    requires SameBuckets(kept, full, now) && b.tokens >= 0.0 && b.at <= now
    ensures SameBuckets(kept[key := b], full[key := b], now)
  {
  }

  lemma TokensStaySame(kept: State, full: State, now: real, c: Call)
    requires c.Tokens? && Same(kept, full, now) && now <= c.StartsAt() <= c.now
    ensures Step(kept, c).1 == Remember(full, c).1
    ensures Same(Step(kept, c).0, Remember(full, c).0, c.now)
  {
    hide Active, Cleanup, Verdict, Charge, SameBuckets, SameWindows, RecordsOf;
    if c.limit > 0 {
      CleanupStaysSame(kept, full, now, c.cleanupAt);
      var st := Cleanup(kept, c.cleanupAt);
      WindowsStay(st.records, full.records, c.cleanupAt, c.now);
      BucketsStay(st.buckets, full.buckets, c.cleanupAt, c.now);
      LiveIsSame(st.records, full.records, c.key, c.now);
      var live := Active(RecordsOf(st.records, c.key), c.now - 60.0);
      var log := RecordsOf(full.records, c.key);
      var answer := Verdict(live, c.limit, c.want, c.now);
      ChargeAppends(live, c.want, c.now, answer);
      ChargeAppends(log, c.want, c.now, answer);
      ChargeStaysSame(st.records, full.records, c.key, c.now, Charge([], c.want, c.now, answer));
    } else {
      WindowsStay(kept.records, full.records, now, c.now);
      BucketsStay(kept.buckets, full.buckets, now, c.now);
    }
  }

  lemma LiveIsSame(kept: map<string, seq<Record>>, full: map<string, seq<Record>>, key: string, now: real)
    requires SameWindows(kept, full, now)
    ensures Active(RecordsOf(kept, key), now - 60.0) == Active(RecordsOf(full, key), now - 60.0)
  {
    hide Active, RecordsOf;
  }

  lemma ChargeAppends(live: seq<Record>, want: int, now: real, answer: Answer)
    ensures Charge(live, want, now, answer) == live + Charge([], want, now, answer)
  {
    assert live + [] == live;
  }

  lemma SpendStaysSame(kept: State, full: State, now: real, c: Call)
    requires c.Spend? && Same(kept, full, now) && now <= c.now
    ensures Step(kept, c).1 == Remember(full, c).1
    ensures Same(Step(kept, c).0, Remember(full, c).0, c.now)
  {
    hide Active, RecordsOf, SameWindows;
    WindowsStay(kept.records, full.records, now, c.now);
    ChargeStaysSame(kept.records, full.records, c.key, c.now, [Record(c.now, c.tokens)]);
  }

  lemma StepStaysSame(kept: State, full: State, now: real, c: Call)
    requires Same(kept, full, now) && now <= c.StartsAt() <= c.now
    ensures Step(kept, c).1 == Remember(full, c).1
    ensures Same(Step(kept, c).0, Remember(full, c).0, c.now)
  {
    hide Step, Remember, Same;
    match c
    case Request(_, _, _, _) => RequestStaysSame(kept, full, now, c);
    case Tokens(_, _, _, _, _) => TokensStaySame(kept, full, now, c);
    case Spend(_, _, _) => SpendStaysSame(kept, full, now, c);
  }

  function EndOf(calls: seq<Call>, start: real): real {
    if calls == [] then start else calls[|calls| - 1].now
  }

  /** Clean-up and pruning are unobservable: no sequence of calls can tell that anything was deleted. */
  lemma {:induction false} ForgettingIsUnobservable(kept: State, full: State, now: real, calls: seq<Call>)
    requires Same(kept, full, now) && Timed(calls, now)
    ensures Answers(kept, calls) == RememberAnswers(full, calls)
    ensures Same(After(kept, calls), Remembered(full, calls), EndOf(calls, now))
    decreases |calls|
  {
    hide Step, Remember, Same;
    if calls != [] {
      StepStaysSame(kept, full, now, calls[0]);
      ForgettingIsUnobservable(Step(kept, calls[0]).0, Remember(full, calls[0]).0, calls[0].now, calls[1..]);
    }
  }

  /** From a fresh limiter, in particular. */
  lemma FreshForgettingIsUnobservable(start: real, calls: seq<Call>)
    requires Timed(calls, start)
    ensures Answers(Initial(start), calls) == RememberAnswers(Initial(start), calls)
  {
    ForgettingIsUnobservable(Initial(start), Initial(start), start, calls);
  }

  // ------------------------------------------------------------------ the limiter object

  class LocalRateLimiter {
    var buckets: map<string, Bucket>
    var concurrency: map<string, int>
    var tokenRecords: map<string, seq<Record>>
    var lastCleanup: real

    constructor (now: real)
      ensures View() == Initial(now) && concurrency == map[]
    {
      buckets, concurrency, tokenRecords, lastCleanup := map[], map[], map[], now;
    }

    function View(): State
      reads this
    {
      State(buckets, tokenRecords, lastCleanup)
    }

    /** Forget the buckets last touched before the cutoff. */
    method DropStaleBuckets(cutoff: real)
      modifies this`buckets
      ensures buckets == map k | k in old(buckets) && !(old(buckets)[k].at < cutoff) :: old(buckets)[k]
    {
      var stale := set k | k in buckets && buckets[k].at < cutoff;
      ghost var doomed := stale;
      while stale != {}
        invariant stale <= doomed
        invariant buckets == map k | k in old(buckets) && k !in doomed - stale :: old(buckets)[k]
      {
        var k :| k in stale;
        buckets := buckets - {k};
        stale := stale - {k};
      }
    }

    /** Prune every key's records, and forget the keys left without any. */
    method PruneRecords(cutoff: real)
      modifies this`tokenRecords
      ensures tokenRecords == map k | k in old(tokenRecords) && Active(old(tokenRecords)[k], cutoff) != []
                              :: Active(old(tokenRecords)[k], cutoff)
    {
      hide Active;
      var todo := tokenRecords.Keys;
      ghost var r0 := tokenRecords;
      var empty: set<string> := {};
      while todo != {}
        invariant todo <= r0.Keys == tokenRecords.Keys
        invariant empty == set k | k in r0 && k !in todo && Active(r0[k], cutoff) == []
        invariant forall k :: k in r0 ==>
          tokenRecords[k] == if k in todo || k in empty then r0[k] else Active(r0[k], cutoff)
      {
        var k :| k in todo;
        var active := Active(tokenRecords[k], cutoff);
        if active != [] {
          tokenRecords := tokenRecords[k := active];
        } else {
          empty := empty + {k};
        }
        todo := todo - {k};
      }
      tokenRecords := tokenRecords - empty;
    }

    method CleanupStaleBuckets(now: real)
      modifies this`buckets, this`tokenRecords, this`lastCleanup
      ensures View() == Cleanup(old(View()), now)
    {
      if now - lastCleanup < 60.0 {
        return;
      }
      DropStaleBuckets(now - BUCKET_TTL);
      PruneRecords(now - 60.0);
      lastCleanup := now;
    }

    /** Admit a request if the bucket of `key` holds a token. */
    method CheckRateLimit(key: string, limitRpm: int, cleanupAt: real, now: real)
      returns (allowed: bool, retryAfter: real)
      modifies this`buckets, this`tokenRecords, this`lastCleanup
      ensures (View(), Answer(allowed, retryAfter)) == Step(old(View()), Request(key, limitRpm, cleanupAt, now))
    {
      if limitRpm <= 0 {
        return true, 0.0;
      }
      hide Cleanup;
      CleanupStaleBuckets(cleanupAt);
      ghost var level := Level(buckets, key, limitRpm, now);
      var Bucket(tokens, lastUpdate) := if key in buckets then buckets[key] else Bucket(limitRpm as real, now);
      var elapsed := now - lastUpdate;
      var replenishRate := limitRpm as real / 60.0;
      tokens := Min(limitRpm as real, tokens + elapsed * replenishRate);
      assert tokens == level;
      if tokens >= 1.0 {
        buckets := buckets[key := Bucket(tokens - 1.0, now)];
        return true, 0.0;
      }
      buckets := buckets[key := Bucket(tokens, now)];
      retryAfter := if replenishRate > 0.0 then (1.0 - tokens) / replenishRate else 60.0;
      return false, retryAfter;
    }

    /** When enough of `records` will have expired to free `needed` tokens. */
    method FreedAfter(records: seq<Record>, needed: int, now: real) returns (retryAfter: real)
      ensures retryAfter == RetryFrom(records, 0, needed, now)
    {
      var freed := 0;
      var i := 0;
      assert records[0..] == records;
      while i < |records|
        invariant 0 <= i <= |records|
        invariant RetryFrom(records, 0, needed, now) == RetryFrom(records[i..], freed, needed, now)
      {
        assert records[i..][1..] == records[i + 1..];
        freed := freed + records[i].count;
        if freed >= needed {
          return Max(1.0, 60.0 - (now - records[i].at));
        }
        i := i + 1;
      }
      return 60.0;
    }

    /** Check, and if `tokensToConsume` is positive consume, tokens of the sliding window. */
    method CheckTokenLimit(key: string, limitTpm: int, tokensToConsume: int, cleanupAt: real, now: real)
      returns (allowed: bool, retryAfter: real)
      modifies this`buckets, this`tokenRecords, this`lastCleanup
      ensures (View(), Answer(allowed, retryAfter))
              == Step(old(View()), Tokens(key, limitTpm, tokensToConsume, cleanupAt, now))
    {
      if limitTpm <= 0 {
        return true, 0.0;
      }
      hide Cleanup, Active, Total, RetryFrom;
      CleanupStaleBuckets(cleanupAt);
      ghost var kept := tokenRecords;
      var cutoff := now - 60.0;
      var records := Active(RecordsOf(tokenRecords, key), cutoff);
      tokenRecords := tokenRecords[key := records];
      var currentTokens := Total(records);
      if tokensToConsume > 0 {
        if currentTokens + tokensToConsume > limitTpm {
          retryAfter := FreedAfter(records, currentTokens + tokensToConsume - limitTpm, now);
          return false, retryAfter;
        }
        tokenRecords := tokenRecords[key := records + [Record(now, tokensToConsume)]];
        assert tokenRecords == kept[key := records + [Record(now, tokensToConsume)]];
        return true, 0.0;
      } else {
        if currentTokens >= limitTpm {
          retryAfter := FreedAfter(records, currentTokens - limitTpm + 1, now);
          return false, retryAfter;
        }
        return true, 0.0;
      }
    }

    /** Record tokens already consumed. */
    method RecordTokens(key: string, tokens: int, now: real)
      modifies this`tokenRecords
      ensures View() == Step(old(View()), Spend(key, tokens, now)).0
    {
      if tokens <= 0 {
        return;
      }
      var records := Active(RecordsOf(tokenRecords, key), now - 60.0);
      tokenRecords := tokenRecords[key := records + [Record(now, tokens)]];
    }

    function InFlight(key: string): int
      reads this
    {
      if key in concurrency then concurrency[key] else 0
    }

    /** Take an in-flight slot of `key`, unless `maxConcurrent` are taken. */
    method AcquireConcurrency(key: string, maxConcurrent: int) returns (acquired: bool, count: int)
      modifies this`concurrency
      ensures acquired <==> maxConcurrent <= 0 || old(InFlight(key)) < maxConcurrent
      ensures InFlight(key) == old(InFlight(key)) + (if acquired && maxConcurrent > 0 then 1 else 0)
      ensures count == if maxConcurrent <= 0 then 0 else InFlight(key)
      ensures forall k :: k != key ==> InFlight(k) == old(InFlight(k))
    {
      if maxConcurrent <= 0 {
        return true, 0;
      }
      var current := InFlight(key);
      if current >= maxConcurrent {
        return false, current;
      }
      concurrency := concurrency[key := current + 1];
      return true, current + 1;
    }

    /** Give a slot back; the count never falls below zero, and an idle key is forgotten. */
    method ReleaseConcurrency(key: string)
      modifies this`concurrency
      ensures InFlight(key) == if old(InFlight(key)) > 1 then old(InFlight(key)) - 1 else 0
      ensures InFlight(key) == 0 ==> key !in concurrency
      ensures forall k :: k != key ==> InFlight(k) == old(InFlight(k))
    {
      var current := InFlight(key);
      if current > 1 {
        concurrency := concurrency[key := current - 1];
      } else {
        concurrency := concurrency - {key};
      }
    }
  }
}
