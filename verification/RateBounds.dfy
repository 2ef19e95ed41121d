/** What the rate limiter guarantees over whole runs. */
module RateBounds {
  import opened TokenRecords
  import opened RateLimits

  // ------------------------------------------------------------------ runs in pieces

  lemma {:induction false} AnswersInPieces(st: State, a: seq<Call>, b: seq<Call>)
    ensures RememberAnswers(st, a + b) == RememberAnswers(st, a) + RememberAnswers(Remembered(st, a), b)
    ensures Remembered(st, a + b) == Remembered(Remembered(st, a), b)
    decreases |a|
  {
    hide Remember;
    if a == [] {
      assert a + b == b;
    } else {
      assert (a + b)[0] == a[0] && (a + b)[1..] == a[1..] + b;
      AnswersInPieces(Remember(st, a[0]).0, a[1..], b);
    }
  }

  lemma {:induction false} TimedInPieces(a: seq<Call>, b: seq<Call>, start: real)
    requires Timed(a + b, start)
    ensures Timed(a, start) && start <= EndOf(a, start) && Timed(b, EndOf(a, start))
    decreases |a|
  {
    if a == [] {
      assert a + b == b;
    } else {
      assert (a + b)[0] == a[0] && (a + b)[1..] == a[1..] + b;
      TimedInPieces(a[1..], b, a[0].now);
    }
  }

  // ------------------------------------------------------------------ the token bucket

  /** Every request for `key` is made under the same limit. */
  ghost predicate FixedLimit(calls: seq<Call>, key: string, limit: int) {
    forall k :: 0 <= k < |calls| && calls[k].Request? && calls[k].key == key ==> calls[k].limit == limit
  }

  /** `key`'s bucket holds between nothing and the limit, and was last touched in the past. */
  ghost predicate InRange(buckets: map<string, Bucket>, key: string, limit: int, now: real) {
    key in buckets ==> 0.0 <= buckets[key].tokens <= limit as real && buckets[key].at <= now
  }

  lemma LevelGrows(buckets: map<string, Bucket>, key: string, limit: int, now: real, later: real)
    requires limit > 0 && now <= later && InRange(buckets, key, limit, now)
    ensures 0.0 <= Level(buckets, key, limit, now) <= limit as real
    ensures Level(buckets, key, limit, later) <= Level(buckets, key, limit, now) + Gain(later - now, limit)
  {
    hide Gain;
    GainGrows(0.0, later - now, limit);
    GainAdds(0.0, 0.0, limit);
    if key in buckets {
      var b := buckets[key];
      GainGrows(0.0, now - b.at, limit);
      GainAdds(now - b.at, later - now, limit);
      assert (now - b.at) + (later - now) == later - b.at;
    }
  }

  lemma AtMostFull(buckets: map<string, Bucket>, key: string, limit: int, now: real)
    requires limit > 0 && InRange(buckets, key, limit, now)
    ensures Level(buckets, key, limit, now) <= limit as real
  {
    LevelGrows(buckets, key, limit, now, now);
  }

  lemma TouchedLevel(buckets: map<string, Bucket>, key: string, limit: int, now: real, tokens: real)
    requires limit > 0 && tokens <= limit as real
    ensures Level(buckets[key := Bucket(tokens, now)], key, limit, now) == tokens
  {
    GainAdds(0.0, 0.0, limit);
    hide Gain;
  }

  lemma TakePays(buckets: map<string, Bucket>, key: string, limit: int, now: real)
    requires limit > 0 && InRange(buckets, key, limit, now)
    ensures var (b', answer) := TakeToken(buckets, key, limit, now);
            && InRange(b', key, limit, now)
            && Level(b', key, limit, now) == Level(buckets, key, limit, now) - (if answer.allowed then 1.0 else 0.0)
  {
    hide Level;
    LevelGrows(buckets, key, limit, now, now);
    var level := Level(buckets, key, limit, now);
    TouchedLevel(buckets, key, limit, now, if level >= 1.0 then level - 1.0 else level);
  }

  /** A request for `key` leaves its bucket in range, one lower if it was admitted. */
  lemma RequestPays(st: State, c: Call, key: string, limit: int)
    requires limit > 0 && InRange(st.buckets, key, limit, c.now)
    requires c.Request? && c.key == key ==> c.limit == limit
    ensures var (st', answer) := Remember(st, c);
            && InRange(st'.buckets, key, limit, c.now)
            && Level(st'.buckets, key, limit, c.now)
               == Level(st.buckets, key, limit, c.now)
                  - (if c.Request? && c.key == key && answer.allowed then 1.0 else 0.0)
  {
    hide TakeToken, Verdict, Level, InRange;
    if c.Request? && c.key == key {
      TakePays(st.buckets, key, limit, c.now);
    } else if c.Request? && c.limit > 0 {
      var after := TakeToken(st.buckets, c.key, c.limit, c.now).0;
      TakeElsewhere(st.buckets, c.key, c.limit, c.now, key);
      LevelAgrees(st.buckets, after, key, limit, c.now);
    }
  }

  lemma LevelAgrees(b1: map<string, Bucket>, b2: map<string, Bucket>, key: string, limit: int, now: real)
    requires (key in b1 <==> key in b2) && (key in b1 ==> b1[key] == b2[key])
    ensures Level(b1, key, limit, now) == Level(b2, key, limit, now)
    ensures InRange(b1, key, limit, now) == InRange(b2, key, limit, now)
  {
  }

  lemma TakeElsewhere(buckets: map<string, Bucket>, key: string, limit: int, now: real, other: string)
    requires limit > 0 && key != other
    ensures var b' := TakeToken(buckets, key, limit, now).0;
            (other in b' <==> other in buckets) && (other in buckets ==> b'[other] == buckets[other])
  {
  }

  /** Clock readings never go back (whenever the clean-ups ran). */
  ghost predicate Ordered(calls: seq<Call>, from: real)
    decreases |calls|
  {
    calls == [] || (from <= calls[0].now && Ordered(calls[1..], calls[0].now))
  }

  lemma {:induction false} TimedIsOrdered(calls: seq<Call>, from: real)
    requires Timed(calls, from)
    ensures Ordered(calls, from)
    decreases |calls|
  {
    if calls != [] { TimedIsOrdered(calls[1..], calls[0].now); }
  }

  /** How many requests for `key` were admitted. */
  function Admitted(calls: seq<Call>, answers: seq<Answer>, key: string): nat
    requires |calls| == |answers|
  {
    if calls == [] then 0
    else (if calls[0].Request? && calls[0].key == key && answers[0].allowed then 1 else 0)
         + Admitted(calls[1..], answers[1..], key)
  }

  lemma NoneAdmitted(key: string)
    ensures Admitted([], [], key) == 0
  {
  }

  /** Admissions up to time `to` are paid for by the tokens at hand and those that arrive by then. */
  lemma {:induction false} AdmissionsArePaid(st: State, now: real, calls: seq<Call>, key: string, limit: int, to: real)
    requires limit > 0 && Ordered(calls, now) && now <= to && FixedLimit(calls, key, limit)
    requires InRange(st.buckets, key, limit, now)
    requires forall k :: 0 <= k < |calls| ==> calls[k].now <= to
    ensures Admitted(calls, RememberAnswers(st, calls), key) as real
            <= Level(st.buckets, key, limit, now) + Gain(to - now, limit)
    ensures InRange(Remembered(st, calls).buckets, key, limit, to)
    decreases |calls|
  {
    hide Remember, Level, Gain;
    LevelGrows(st.buckets, key, limit, now, now);
    GainAdds(0.0, 0.0, limit);
    GainGrows(0.0, to - now, limit);
    if calls != [] {
      var c := calls[0];
      LevelGrows(st.buckets, key, limit, now, c.now);
      RequestPays(st, c, key, limit);
      AdmissionsArePaid(Remember(st, c).0, c.now, calls[1..], key, limit, to);
      GainAdds(c.now - now, to - c.now, limit);
      assert (c.now - now) + (to - c.now) == to - now;
    }
  }

  lemma {:induction false} AllBefore(calls: seq<Call>, start: real)
    requires Timed(calls, start)
    ensures start <= EndOf(calls, start)
    ensures forall k :: 0 <= k < |calls| ==> start <= calls[k].now <= EndOf(calls, start)
    decreases |calls|
  {
    if calls != [] { AllBefore(calls[1..], calls[0].now); }
  }

  /**
    Token-bucket bound. In any run with a fixed limit, the requests admitted for a key during any
    interval `[from, to]` number at most the limit plus what the limit's rate adds in that interval.
   */
  lemma AdmissionBound(start: real, before: seq<Call>, during: seq<Call>, key: string, limit: int, from: real, to: real)
    requires limit > 0 && Timed(before + during, start) && FixedLimit(before + during, key, limit)
    requires from <= to && forall k :: 0 <= k < |during| ==> from <= during[k].now <= to
    ensures Admitted(during, Answers(Initial(start), before + during)[|before|..], key) as real
            <= limit as real + (to - from) * (limit as real / 60.0)
  {
    var first := Initial(start);
    FreshForgettingIsUnobservable(start, before + during);
    AnswersInPieces(first, before, during);
    TimedInPieces(before, during, start);
    var st, mid := Remembered(first, before), EndOf(before, start);
    FixedInPieces(before, during, key, limit);
    AllBefore(before, start);
    TimedIsOrdered(before, start);
    TimedIsOrdered(during, mid);
    AdmissionsArePaid(first, start, before, key, limit, mid);
    assert Answers(first, before + during)[|before|..] == RememberAnswers(st, during);
    AdmittedInInterval(st, mid, during, key, limit, from, to);
  }

  lemma FixedInPieces(before: seq<Call>, during: seq<Call>, key: string, limit: int)
    requires FixedLimit(before + during, key, limit)
    ensures FixedLimit(before, key, limit) && FixedLimit(during, key, limit)
  {
    forall k | 0 <= k < |before| && before[k].Request? && before[k].key == key ensures before[k].limit == limit {
      assert (before + during)[k] == before[k];
    }
    forall k | 0 <= k < |during| && during[k].Request? && during[k].key == key ensures during[k].limit == limit {
      assert (before + during)[|before| + k] == during[k];
    }
  }

  lemma AdmittedInInterval(st: State, mid: real, during: seq<Call>, key: string, limit: int, from: real, to: real)
    requires limit > 0 && Ordered(during, mid) && FixedLimit(during, key, limit)
    requires InRange(st.buckets, key, limit, mid)
    requires from <= to && forall k :: 0 <= k < |during| ==> from <= during[k].now <= to
    ensures Admitted(during, RememberAnswers(st, during), key) as real <= limit as real + Gain(to - from, limit)
  {
    hide *;
    if during != [] {
      OrderedFromFirst(during, mid);
      var now := during[0].now;
      InRangeLater(st.buckets, key, limit, mid, now);
      AtMostFull(st.buckets, key, limit, now);
      AdmissionsArePaid(st, now, during, key, limit, to);
      GainGrows(to - now, to - from, limit);
    } else {
      NoneAdmitted(key);
      GainAdds(0.0, 0.0, limit);
      GainGrows(0.0, to - from, limit);
    }
  }

  lemma OrderedFromFirst(calls: seq<Call>, from: real)
    requires Ordered(calls, from) && calls != []
    ensures from <= calls[0].now && Ordered(calls, calls[0].now)
  {
  }

  lemma InRangeLater(buckets: map<string, Bucket>, key: string, limit: int, now: real, later: real)
    requires InRange(buckets, key, limit, now) && now <= later
    ensures InRange(buckets, key, limit, later)
  {
  }

  /** In every reachable state under a fixed limit, the bucket holds between nothing and the limit. */
  lemma BucketsInRange(start: real, calls: seq<Call>, key: string, limit: int)
    requires limit > 0 && Timed(calls, start) && FixedLimit(calls, key, limit)
    ensures InRange(After(Initial(start), calls).buckets, key, limit, EndOf(calls, start))
  {
    AllBefore(calls, start);
    TimedIsOrdered(calls, start);
    AdmissionsArePaid(Initial(start), start, calls, key, limit, EndOf(calls, start));
    ForgettingIsUnobservable(Initial(start), Initial(start), start, calls);
  }

  // ------------------------------------------------------------------ the sliding token window

  /** The tokens that `key` was charged, as the answers show. */
  function Charged(calls: seq<Call>, answers: seq<Answer>, key: string): seq<Record>
    requires |calls| == |answers|
  {
    if calls == [] then []
    else ChargeOf(calls[0], answers[0], key) + Charged(calls[1..], answers[1..], key)
  }

  function ChargeOf(c: Call, answer: Answer, key: string): seq<Record> {
    if c.Tokens? && c.key == key && c.limit > 0 && answer.allowed && c.want > 0 then [Record(c.now, c.want)]
    else if c.Spend? && c.key == key && c.tokens > 0 then [Record(c.now, c.tokens)]
    else []
  }

  lemma RememberCharges(st: State, c: Call, key: string)
    ensures RecordsOf(Remember(st, c).0.records, key)
            == RecordsOf(st.records, key) + ChargeOf(c, Remember(st, c).1, key)
  {
    hide Verdict, TakeToken, Active;
    var log := RecordsOf(st.records, key);
    assert log + [] == log;
    if c.Tokens? && c.limit > 0 {
      var own := RecordsOf(st.records, c.key);
      var answer := Verdict(Active(own, c.now - 60.0), c.limit, c.want, c.now);
      assert Charge(own, c.want, c.now, answer) == own + Charge([], c.want, c.now, answer);
    }
  }

  lemma {:induction false} LogIsCharged(st: State, calls: seq<Call>, key: string)
    ensures RecordsOf(Remembered(st, calls).records, key)
            == RecordsOf(st.records, key) + Charged(calls, RememberAnswers(st, calls), key)
    decreases |calls|
  {
    hide Remember, ChargeOf, RecordsOf;
    if calls != [] {
      RememberCharges(st, calls[0], key);
      LogIsCharged(Remember(st, calls[0]).0, calls[1..], key);
    }
  }

  /** The pruned records always sum to what the full log of charges holds for the last 60 s. */
  lemma PruningLosesNothing(start: real, calls: seq<Call>, key: string)
    requires Timed(calls, start)
    ensures var now := EndOf(calls, start);
            Active(RecordsOf(After(Initial(start), calls).records, key), now - 60.0)
            == Active(Charged(calls, Answers(Initial(start), calls), key), now - 60.0)
  {
    hide Step, Remember, Active;
    assert RecordsOf(Initial(start).records, key) == [];
    var log := Charged(calls, Answers(Initial(start), calls), key);
    assert [] + log == log;
    ForgettingIsUnobservable(Initial(start), Initial(start), start, calls);
    LogIsCharged(Initial(start), calls, key);
  }

  lemma OrderlyLater(log: seq<Record>, now: real, later: real)
    requires Orderly(log, now) && now <= later
    ensures Orderly(log, later)
  {
  }

  // ---- what a window can hold

  /** The tokens of `key` that are recorded as already used. */
  function Spent(calls: seq<Call>, key: string): seq<Record> {
    if calls == [] then []
    else (if calls[0].Spend? then ChargeOf(calls[0], Answer(true, 0.0), key) else []) + Spent(calls[1..], key)
  }

  /** Consuming checks of `key` are made under limits up to `limit`. */
  ghost predicate LimitedBy(calls: seq<Call>, key: string, limit: int) {
    forall k :: 0 <= k < |calls| && calls[k].Tokens? && calls[k].key == key && calls[k].want > 0 ==>
      calls[k].limit <= limit
  }

  lemma {:induction false} ChargedInPieces(a: seq<Call>, x: seq<Answer>, b: seq<Call>, y: seq<Answer>, key: string)
    requires |a| == |x| && |b| == |y|
    ensures Charged(a + b, x + y, key) == Charged(a, x, key) + Charged(b, y, key)
    ensures Spent(a + b, key) == Spent(a, key) + Spent(b, key)
    decreases |a|
  {
    hide *;
    if a == [] {
      assert a + b == b && x + y == y;
      NothingCharged(key);
      assert [] + Charged(b, y, key) == Charged(b, y, key) && [] + Spent(b, key) == Spent(b, key);
    } else {
      assert (a + b)[0] == a[0] && (a + b)[1..] == a[1..] + b;
      assert (x + y)[0] == x[0] && (x + y)[1..] == x[1..] + y;
      ChargedInPieces(a[1..], x[1..], b, y, key);
      ChargedUnfolds(a + b, x + y, key);
      ChargedUnfolds(a, x, key);
      var own, spent := ChargeOf(a[0], x[0], key), if a[0].Spend? then ChargeOf(a[0], Answer(true, 0.0), key) else [];
      assert own + (Charged(a[1..], x[1..], key) + Charged(b, y, key))
             == own + Charged(a[1..], x[1..], key) + Charged(b, y, key);
      assert spent + (Spent(a[1..], key) + Spent(b, key)) == spent + Spent(a[1..], key) + Spent(b, key);
    }
  }

  lemma ChargedUnfolds(calls: seq<Call>, answers: seq<Answer>, key: string)
    requires |calls| == |answers| && calls != []
    ensures Charged(calls, answers, key) == ChargeOf(calls[0], answers[0], key) + Charged(calls[1..], answers[1..], key)
    ensures Spent(calls, key)
            == (if calls[0].Spend? then ChargeOf(calls[0], Answer(true, 0.0), key) else []) + Spent(calls[1..], key)
  {
    hide ChargeOf;
  }

  lemma {:induction false} ChargesArePositive(calls: seq<Call>, answers: seq<Answer>, key: string)
    requires |calls| == |answers|
    ensures forall r :: r in Charged(calls, answers, key) ==> r.count > 0
    decreases |calls|
  {
    if calls != [] { ChargesArePositive(calls[1..], answers[1..], key); }
  }

  /** An accepted check found room for what it asked. */
  lemma AcceptedHasRoom(st: State, c: Call)
    requires c.Tokens? && c.limit > 0 && Remember(st, c).1.allowed
    ensures Total(Active(RecordsOf(st.records, c.key), c.now - 60.0)) + Amount(c.want) <= c.limit
  {
    hide Active, Total, RetryFrom;
  }

  /** What came before an accepted check, and is in a window that ends no earlier, left that room. */
  lemma BeforeAccepted(st: State, before: seq<Call>, c: Call, to: real)
    requires RecordsOf(st.records, c.key) == [] && c.Tokens? && c.limit > 0 && c.now <= to
    requires Remember(Remembered(st, before), c).1.allowed
    ensures Total(Window(Charged(before, RememberAnswers(st, before), c.key), to - 60.0, to)) + Amount(c.want)
            <= c.limit
  {
    hide Remember, Active, Total, Window;
    var log := Charged(before, RememberAnswers(st, before), c.key);
    LogIsCharged(st, before, c.key);
    assert [] + log == log;
    AcceptedHasRoom(Remembered(st, before), c);
    ChargesArePositive(before, RememberAnswers(st, before), c.key);
    WindowBelowActive(log, to - 60.0, to, c.now - 60.0);
  }

  lemma OneCall(st: State, c: Call, key: string)
    ensures Remembered(st, [c]) == Remember(st, c).0 && RememberAnswers(st, [c]) == [Remember(st, c).1]
    ensures Charged([c], [Remember(st, c).1], key) == ChargeOf(c, Remember(st, c).1, key)
    ensures Spent([c], key) == if c.Spend? then ChargeOf(c, Remember(st, c).1, key) else []
  {
    hide TakeToken, Verdict, Active;
    assert [c][1..] == [];
    assert ChargeOf(c, Remember(st, c).1, key) + [] == ChargeOf(c, Remember(st, c).1, key);
  }

  lemma {:induction false} RememberedBound(st: State, calls: seq<Call>, key: string, limit: int, to: real)
    requires RecordsOf(st.records, key) == [] && limit >= 0 && LimitedBy(calls, key, limit)
    ensures Total(Window(Charged(calls, RememberAnswers(st, calls), key), to - 60.0, to))
            <= limit + Total(Window(Spent(calls, key), to - 60.0, to))
    decreases |calls|
  {
    hide *;
    if calls == [] {
      NothingCharged(key);
      WindowOne(Record(0.0, 0), to - 60.0, to);
    } else {
      var init, c := calls[..|calls| - 1], calls[|calls| - 1];
      assert calls == init + [c];
      LimitedInit(calls, key, limit);
      RememberedBound(st, init, key, limit, to);
      LastCharge(st, init, c, key, limit, to);
    }
  }

  lemma NothingCharged(key: string)
    ensures Charged([], [], key) == [] && Spent([], key) == []
  {
  }

  lemma LimitedInit(calls: seq<Call>, key: string, limit: int)
    requires calls != [] && LimitedBy(calls, key, limit)
    ensures var c := calls[|calls| - 1];
            && LimitedBy(calls[..|calls| - 1], key, limit)
            && (c.Tokens? && c.key == key && c.want > 0 ==> c.limit <= limit)
  {
  }

  /** The last call keeps the bound: a check by its own verdict, other tokens by counting on both sides. */
  lemma LastCharge(st: State, init: seq<Call>, c: Call, key: string, limit: int, to: real)
    requires RecordsOf(st.records, key) == [] && limit >= 0
    requires c.Tokens? && c.key == key && c.want > 0 ==> c.limit <= limit
    requires Total(Window(Charged(init, RememberAnswers(st, init), key), to - 60.0, to))
             <= limit + Total(Window(Spent(init, key), to - 60.0, to))
    ensures Total(Window(Charged(init + [c], RememberAnswers(st, init + [c]), key), to - 60.0, to))
            <= limit + Total(Window(Spent(init + [c], key), to - 60.0, to))
  {
    hide *;
    var mid := Remembered(st, init);
    var answer := Remember(mid, c).1;
    var extra := ChargeOf(c, answer, key);
    AnswersInPieces(st, init, [c]);
    OneCall(mid, c, key);
    ChargedInPieces(init, RememberAnswers(st, init), [c], [answer], key);
    WindowAppend(Charged(init, RememberAnswers(st, init), key), extra, to - 60.0, to);
    WindowAppend(Spent(init, key), Spent([c], key), to - 60.0, to);
    TotalAppend(Window(Charged(init, RememberAnswers(st, init), key), to - 60.0, to), Window(extra, to - 60.0, to));
    TotalAppend(Window(Spent(init, key), to - 60.0, to), Window(Spent([c], key), to - 60.0, to));
    WindowOne(Record(0.0, 0), to - 60.0, to);
    ChargeIs(c, answer, key);
    if extra != [] && !c.Spend? {
      WindowOne(extra[0], to - 60.0, to);
      SpentIsPositive(init, key, to);
      if c.now <= to {
        BeforeAccepted(st, init, c, to);
      }
    }
  }

  lemma ChargeIs(c: Call, answer: Answer, key: string)
    ensures var extra := ChargeOf(c, answer, key);
            extra != [] && !c.Spend? ==>
              && c.Tokens? && c.key == key && c.limit > 0 && c.want > 0 && answer.allowed && Amount(c.want) == c.want
              && extra == [Record(c.now, c.want)]
  {
  }

  lemma {:induction false} SpentIsPositive(calls: seq<Call>, key: string, to: real)
    ensures Total(Window(Spent(calls, key), to - 60.0, to)) >= 0
    decreases |calls|
  {
    if calls != [] {
      var c := calls[0];
      var own := if c.Spend? then ChargeOf(c, Answer(true, 0.0), key) else [];
      hide Total, Window;
      SpentIsPositive(calls[1..], key, to);
      WindowAppend(own, Spent(calls[1..], key), to - 60.0, to);
      TotalAppend(Window(own, to - 60.0, to), Window(Spent(calls[1..], key), to - 60.0, to));
      WindowOne(if own == [] then Record(0.0, 0) else own[0], to - 60.0, to);
    }
  }

  /**
    Sliding-window bound. In every run, the tokens counted in any 60 s window exceed the limit by no
    more than those in it that were recorded as already used; where there are none of these, the
    tokens that consuming checks let through are at most the limit.
   */
  lemma WindowBound(start: real, calls: seq<Call>, key: string, limit: int, to: real)
    requires limit >= 0 && Timed(calls, start) && LimitedBy(calls, key, limit)
    ensures Total(Window(Charged(calls, Answers(Initial(start), calls), key), to - 60.0, to))
            <= limit + Total(Window(Spent(calls, key), to - 60.0, to))
  {
    hide *;
    NothingRecorded(start, key);
    FreshForgettingIsUnobservable(start, calls);
    RememberedBound(Initial(start), calls, key, limit, to);
  }

  lemma NothingRecorded(start: real, key: string)
    ensures RecordsOf(Initial(start).records, key) == []
  {
  }

  /**
    What an accepted check is good for, consuming or peeking: in any 60 s window that ends at its
    time or later, the tokens counted are at most the limit, less what it asked room for (one token,
    for a peek), and what was counted from that check on. With peeks, and tokens recorded after use,
    that is the limit less one and what was used since the last accepted peek.
   */
  lemma SinceAccepted(start: real, calls: seq<Call>, i: nat, to: real)
    requires Timed(calls, start) && i < |calls|
    requires calls[i].Tokens? && calls[i].limit > 0 && Answers(Initial(start), calls)[i].allowed && calls[i].now <= to
    ensures var c, answers := calls[i], Answers(Initial(start), calls);
            Total(Window(Charged(calls, answers, c.key), to - 60.0, to))
            <= c.limit - Amount(c.want) + Total(Window(Charged(calls[i..], answers[i..], c.key), to - 60.0, to))
  {
    hide *;
    var st, c, before, rest := Initial(start), calls[i], calls[..i], calls[i..];
    NothingRecorded(start, c.key);
    FreshForgettingIsUnobservable(start, calls);
    assert calls == before + rest;
    AnswersInPieces(st, before, rest);
    var x, y := RememberAnswers(st, before), RememberAnswers(Remembered(st, before), rest);
    FirstAnswer(Remembered(st, before), rest);
    assert (x + y)[i] == y[0] && (x + y)[i..] == y;
    ChargedInPieces(before, x, rest, y, c.key);
    WindowAppend(Charged(before, x, c.key), Charged(rest, y, c.key), to - 60.0, to);
    TotalAppend(Window(Charged(before, x, c.key), to - 60.0, to), Window(Charged(rest, y, c.key), to - 60.0, to));
    BeforeAccepted(st, before, c, to);
  }

  /** The bound is reached: one peek lets any amount through. */
  lemma PeeksOvershoot(limit: int, n: int)
    requires limit > 1 && n > 0
    ensures var calls := [Spend("k", limit - 1, 0.0), Tokens("k", limit, 0, 0.0, 0.0), Spend("k", n, 0.0)];
            var answers := Answers(Initial(0.0), calls);
            && Timed(calls, 0.0) && answers[1].allowed
            && Total(Window(Charged(calls, answers, "k"), -60.0, 0.0)) == limit - 1 + n
  {
    var a, b, c := Spend("k", limit - 1, 0.0), Tokens("k", limit, 0, 0.0, 0.0), Spend("k", n, 0.0);
    var calls := [a, b, c];
    assert calls[1..] == [b, c] && [b, c][1..] == [c] && [c][1..] == [];
    assert Timed([c], 0.0) && Timed([b, c], 0.0);
    FreshForgettingIsUnobservable(0.0, calls);
    var st := Initial(0.0);
    SpendRecords(st, "k", limit - 1, 0.0);
    OneActive(Record(0.0, limit - 1), -60.0);
    hide *;
    var st1 := Remember(st, a).0;
    PeekAnswers(st1, "k", limit, 0.0);
    var x, y := Remember(st1, b).1, Remember(Remember(st1, b).0, c).1;
    ThreeAnswers(st, a, b, c);
    ThreeCharges(limit, n, Remember(st, a).1, x, y);
  }

  lemma SpendRecords(st: State, key: string, tokens: int, now: real)
    requires tokens > 0
    ensures RecordsOf(Remember(st, Spend(key, tokens, now)).0.records, key)
            == RecordsOf(st.records, key) + [Record(now, tokens)]
  {
  }

  lemma OneActive(r: Record, cutoff: real)
    requires cutoff < r.at
    ensures Active([r], cutoff) == [r] && Total([r]) == r.count
  {
    assert [r][1..] == [];
  }

  lemma PeekAnswers(st: State, key: string, limit: int, now: real)
    requires limit > 0 && Total(Active(RecordsOf(st.records, key), now - 60.0)) < limit
    ensures Remember(st, Tokens(key, limit, 0, now, now)).1.allowed
  {
    hide Active, Total, RetryFrom;
  }

  lemma ThreeAnswers(st: State, a: Call, b: Call, c: Call)
    ensures var st1 := Remember(st, a).0;
            RememberAnswers(st, [a, b, c])
            == [Remember(st, a).1, Remember(st1, b).1, Remember(Remember(st1, b).0, c).1]
  {
    hide Remember;
    assert [a, b, c][1..] == [b, c] && [b, c][1..] == [c];
    var st1 := Remember(st, a).0;
    OneCall(Remember(st1, b).0, c, "");
    assert RememberAnswers(st1, [b, c]) == [Remember(st1, b).1] + RememberAnswers(Remember(st1, b).0, [c]);
  }

  lemma ThreeCharges(limit: int, n: int, x: Answer, y: Answer, z: Answer)
    requires limit > 1 && n > 0
    ensures var calls := [Spend("k", limit - 1, 0.0), Tokens("k", limit, 0, 0.0, 0.0), Spend("k", n, 0.0)];
            Total(Window(Charged(calls, [x, y, z], "k"), -60.0, 0.0)) == limit - 1 + n
  {
    var a, b, c := Spend("k", limit - 1, 0.0), Tokens("k", limit, 0, 0.0, 0.0), Spend("k", n, 0.0);
    assert [a, b, c][1..] == [b, c] && [b, c][1..] == [c] && [c][1..] == [];
    assert [x, y, z][1..] == [y, z] && [y, z][1..] == [z] && [z][1..] == [];
    var r, s := Record(0.0, limit - 1), Record(0.0, n);
    assert Charged([c], [z], "k") == [s] && Charged([b, c], [y, z], "k") == [s];
    assert Charged([a, b, c], [x, y, z], "k") == [r] + [s];
    WindowAppend([r], [s], -60.0, 0.0);
    TotalAppend(Window([r], -60.0, 0.0), Window([s], -60.0, 0.0));
    WindowOne(r, -60.0, 0.0);
    WindowOne(s, -60.0, 0.0);
  }

  lemma FirstAnswer(st: State, calls: seq<Call>)
    requires calls != []
    ensures RememberAnswers(st, calls)[0] == Remember(st, calls[0]).1
  {
    hide Remember;
  }

  /**
    After any run, a check under a positive limit is let through just when the tokens counted for its
    key in the last 60 s leave room for what it asks, one token if it only peeks; under no limit, always.
   */
  lemma TokenCheckExact(start: real, calls: seq<Call>, c: Call)
    requires c.Tokens? && Timed(calls, start) && EndOf(calls, start) <= c.cleanupAt <= c.now
    ensures var counted := Active(Charged(calls, Answers(Initial(start), calls), c.key), c.now - 60.0);
            Step(After(Initial(start), calls), c).1.allowed
            <==> c.limit <= 0 || Total(counted) + (if c.want > 0 then c.want else 1) <= c.limit
  {
    hide *;
    var st, end := After(Initial(start), calls), EndOf(calls, start);
    PruningLosesNothing(start, calls, c.key);
    var log := Charged(calls, Answers(Initial(start), calls), c.key);
    ActiveTwice(RecordsOf(st.records, c.key), end - 60.0, c.now - 60.0);
    ActiveTwice(log, end - 60.0, c.now - 60.0);
    CheckFromState(st, c);
  }

  lemma CheckFromState(st: State, c: Call)
    requires c.Tokens? && c.cleanupAt <= c.now
    ensures Step(st, c).1.allowed
            <==> c.limit <= 0
                 || Total(Active(RecordsOf(st.records, c.key), c.now - 60.0))
                 + (if c.want > 0 then c.want else 1) <= c.limit
  {
    hide Active, Total, RetryFrom, Cleanup;
    CleanupKeepsWindows(st, c.cleanupAt);
    WindowsStay(Cleanup(st, c.cleanupAt).records, st.records, c.cleanupAt, c.now);
  }

  /** Without a positive limit every request is admitted too, and nothing is kept of it. */
  lemma NoLimitAdmits(st: State, c: Call)
    requires !c.Spend? && c.limit <= 0
    ensures Step(st, c) == (st, Answer(true, 0.0))
  {
  }

  // ------------------------------------------------------------------ the retry time

  ghost predicate AllOrderly(st: State, now: real) {
    forall k :: Orderly(RecordsOf(st.records, k), now)
  }

  lemma CleanupOrderly(st: State, at: real, now: real)
    requires AllOrderly(st, now)
    ensures AllOrderly(Cleanup(st, at), now)
  {
    forall k ensures Orderly(RecordsOf(Cleanup(st, at).records, k), now) {
      ActiveOrderly(RecordsOf(st.records, k), at - 60.0, now);
    }
  }

  lemma AddOrderly(rs: seq<Record>, cutoff: real, now: real, extra: seq<Record>)
    requires Orderly(rs, now) && |extra| <= 1
    requires extra != [] ==> extra[0].count > 0 && extra[0].at == now
    ensures Orderly(Active(rs, cutoff) + extra, now)
  {
    hide Active;
    ActiveOrderly(rs, cutoff, now);
  }

  lemma PutOrderly(st: State, now: real, key: string, rs: seq<Record>)
    requires AllOrderly(st, now) && Orderly(rs, now)
    ensures AllOrderly(st.(records := st.records[key := rs]), now)
  {
    hide Orderly;
    var after := st.records[key := rs];
    forall k ensures Orderly(RecordsOf(after, k), now) {
      assert RecordsOf(after, k) == if k == key then rs else RecordsOf(st.records, k);
    }
  }

  lemma LaterOrderly(st: State, now: real, later: real)
    requires AllOrderly(st, now) && now <= later
    ensures AllOrderly(st, later)
  {
    hide Orderly;
    forall k ensures Orderly(RecordsOf(st.records, k), later) {
      OrderlyLater(RecordsOf(st.records, k), now, later);
    }
  }

  lemma StepOrderly(st: State, now: real, c: Call)
    requires AllOrderly(st, now) && now <= c.now
    ensures AllOrderly(Step(st, c).0, c.now)
  {
    hide Cleanup, TakeToken, Verdict, Active, Orderly, RecordsOf;
    LaterOrderly(st, now, c.now);
    var cutoff := c.now - 60.0;
    match c
    case Spend(key, tokens, at) =>
      if tokens > 0 {
        var extra := [Record(at, tokens)];
        AddOrderly(RecordsOf(st.records, key), cutoff, at, extra);
        PutOrderly(st, at, key, Active(RecordsOf(st.records, key), cutoff) + extra);
      }
    case Request(key, limit, cleanupAt, at) =>
      CleanupOrderly(st, cleanupAt, at);
      assert limit > 0 ==> Step(st, c).0.records == Cleanup(st, cleanupAt).records;
    case Tokens(key, limit, want, cleanupAt, at) =>
      var st1 := Cleanup(st, cleanupAt);
      CleanupOrderly(st, cleanupAt, at);
      var live := Active(RecordsOf(st1.records, key), cutoff);
      var extra := Charge([], want, at, Verdict(live, limit, want, at));
      assert Charge(live, want, at, Verdict(live, limit, want, at)) == live + extra;
      AddOrderly(RecordsOf(st1.records, key), cutoff, at, extra);
      PutOrderly(st1, at, key, live + extra);
  }

  lemma EmptyOrderly(start: real)
    ensures AllOrderly(Initial(start), start)
  {
  }

  /** In every reachable state the records are oldest first, positive and from the past. */
  lemma {:induction false} RunOrderly(st: State, now: real, calls: seq<Call>)
    requires AllOrderly(st, now) && Timed(calls, now)
    ensures AllOrderly(After(st, calls), EndOf(calls, now))
    decreases |calls|
  {
    hide Step, AllOrderly;
    if calls != [] {
      StepOrderly(st, now, calls[0]);
      RunOrderly(Step(st, calls[0]).0, calls[0].now, calls[1..]);
    }
  }

  /**
    After any run, a refused check, consuming or peeking, for an amount within the limit names a retry time at
    which the same check passes if nothing else was recorded, and before which it is refused
    unless the one-second floor applied. The clean-up that the second check runs changes nothing.
   */
  lemma RetryTimeExact(start: real, calls: seq<Call>, c: Call, cleanup2: real, d: real)
    requires c.Tokens? && c.limit > 0 && Amount(c.want) <= c.limit
    requires Timed(calls, start) && EndOf(calls, start) <= c.cleanupAt <= c.now <= cleanup2 <= c.now + d
    ensures var later := c.(cleanupAt := cleanup2, now := c.now + d);
            var (st1, answer) := Step(After(Initial(start), calls), c);
            !answer.allowed ==>
              && 1.0 <= answer.retryAfter
              && (d >= answer.retryAfter ==> Step(st1, later).1.allowed)
              && (Step(st1, later).1.allowed ==> d >= answer.retryAfter || answer.retryAfter == 1.0)
  {
    hide Step, After, Orderly;
    assert AllOrderly(Initial(start), start) by { EmptyOrderly(start); }
    RunOrderly(Initial(start), start, calls);
    OrderlyLater(RecordsOf(After(Initial(start), calls).records, c.key), EndOf(calls, start), c.now);
    RetryFromState(After(Initial(start), calls), c, cleanup2, d);
  }

  lemma RetryFromState(st: State, c: Call, cleanup2: real, d: real)
    requires c.Tokens? && c.limit > 0 && Amount(c.want) <= c.limit
    requires Orderly(RecordsOf(st.records, c.key), c.now) && c.cleanupAt <= c.now
    requires c.now <= cleanup2 <= c.now + d
    ensures var later := c.(cleanupAt := cleanup2, now := c.now + d);
            var (st1, answer) := Step(st, c);
            !answer.allowed ==>
              && 1.0 <= answer.retryAfter
              && (d >= answer.retryAfter ==> Step(st1, later).1.allowed)
              && (Step(st1, later).1.allowed ==> d >= answer.retryAfter || answer.retryAfter == 1.0)
  {
    hide Active, Total, RetryFrom, Cleanup, Orderly;
    var st0 := Cleanup(st, c.cleanupAt);
    var live := Active(RecordsOf(st0.records, c.key), c.now - 60.0);
    CleanupKeepsWindows(st, c.cleanupAt);
    WindowsStay(st0.records, st.records, c.cleanupAt, c.now);
    ActiveOrderly(RecordsOf(st.records, c.key), c.now - 60.0, c.now);
    var (st1, answer) := Step(st, c);
    if !answer.allowed {
      assert RecordsOf(st1.records, c.key) == live;
      var st2 := Cleanup(st1, cleanup2);
      CleanupKeepsWindows(st1, cleanup2);
      WindowsStay(st2.records, st1.records, cleanup2, c.now + d);
      RetryExact(live, c.limit, Amount(c.want), c.now, d);
    }
  }

  /** An amount above the limit is told to wait 60 s, and is refused at every time. */
  lemma OversizeNeverPasses(start: real, calls: seq<Call>, c: Call)
    requires c.Tokens? && c.limit > 0 && Amount(c.want) > c.limit
    requires Timed(calls, start) && EndOf(calls, start) <= c.cleanupAt <= c.now
    ensures Step(After(Initial(start), calls), c).1 == Answer(false, 60.0)
  {
    var st := After(Initial(start), calls);
    EmptyOrderly(start);
    RunOrderly(Initial(start), start, calls);
    OrderlyLater(RecordsOf(st.records, c.key), EndOf(calls, start), c.now);
    OversizeFromState(st, c);
  }

  lemma OversizeFromState(st: State, c: Call)
    requires c.Tokens? && c.limit > 0 && Amount(c.want) > c.limit
    requires Orderly(RecordsOf(st.records, c.key), c.now) && c.cleanupAt <= c.now
    ensures Step(st, c).1 == Answer(false, 60.0)
  {
    hide Active, Total, RetryFrom, Cleanup;
    var st0 := Cleanup(st, c.cleanupAt);
    var live := Active(RecordsOf(st0.records, c.key), c.now - 60.0);
    CleanupKeepsWindows(st, c.cleanupAt);
    WindowsStay(st0.records, st.records, c.cleanupAt, c.now);
    ActiveOrderly(RecordsOf(st.records, c.key), c.now - 60.0, c.now);
    ActiveShrinks(live, 0.0, 0.0);
    RetryFallsThrough(live, 0, Total(live) + Amount(c.want) - c.limit, c.now);
  }

  // ------------------------------------------------------------------ the bucket's retry time

  lemma Cancel(a: real, b: real, rate: real)
    requires rate > 0.0
    ensures a * rate <= b * rate <==> a <= b
    ensures a * rate < b * rate <==> a < b
  {
    if a <= b {
      Scale(b, a, rate);
    } else {
      assert (a - b) * rate > 0.0;
    }
    if a < b {
      assert (b - a) * rate > 0.0;
    } else {
      Scale(a, b, rate);
    }
  }

  /** How long a bucket that holds `level` takes to hold a whole token. */
  lemma WholeTokenAfter(level: real, limit: int, d: real)
    requires limit > 0 && 0.0 <= level < 1.0
    ensures var rate := limit as real / 60.0;
            && 0.0 < (1.0 - level) / rate <= 60.0
            && (level + Gain(d, limit) >= 1.0 <==> d >= (1.0 - level) / rate)
  {
    var rate := limit as real / 60.0;
    var wait := (1.0 - level) / rate;
    assert wait * rate == 1.0 - level;
    assert 60.0 * rate >= 1.0;
    Cancel(wait, d, rate);
    Cancel(wait, 60.0, rate);
    Cancel(0.0, wait, rate);
  }

  /**
    After any run, a request refused by the token bucket names a retry time, of at most a minute:
    the same request, with nothing in between, passes at exactly that time and ever after.
   */
  lemma RequestRetryExact(start: real, calls: seq<Call>, key: string, limit: int, cleanup1: real, now: real,
                          cleanup2: real, d: real)
    requires limit > 0
    requires Timed(calls, start) && EndOf(calls, start) <= cleanup1 <= now <= cleanup2 <= now + d
    ensures var (st1, answer) := Step(After(Initial(start), calls), Request(key, limit, cleanup1, now));
            !answer.allowed ==>
              && 0.0 < answer.retryAfter <= 60.0
              && (Step(st1, Request(key, limit, cleanup2, now + d)).1.allowed <==> d >= answer.retryAfter)
  {
    hide Step, After, Answers, RememberAnswers, Remembered, Timed;
    ForgettingIsUnobservable(Initial(start), Initial(start), start, calls);
    RequestRetryFromState(After(Initial(start), calls), key, limit, cleanup1, now, cleanup2, d);
  }

  lemma RequestRetryFromState(st: State, key: string, limit: int, cleanup1: real, now: real, cleanup2: real, d: real)
    requires limit > 0 && cleanup1 <= now <= cleanup2 <= now + d
    requires key in st.buckets ==> st.buckets[key].tokens >= 0.0 && st.buckets[key].at <= now
    ensures var (st1, answer) := Step(st, Request(key, limit, cleanup1, now));
            !answer.allowed ==>
              && 0.0 < answer.retryAfter <= 60.0
              && (Step(st1, Request(key, limit, cleanup2, now + d)).1.allowed <==> d >= answer.retryAfter)
  {
    hide Level, Active;
    var buckets := Cleanup(st, cleanup1).buckets;
    var level := Level(buckets, key, limit, now);
    LevelNotNegative(buckets, key, limit, now);
    if level < 1.0 {
      WholeTokenAfter(level, limit, d);
      var (st1, _) := Step(st, Request(key, limit, cleanup1, now));
      hide Step;
      LaterLevel(st1, key, limit, now, level, cleanup2, d);
    }
  }

  lemma LevelNotNegative(buckets: map<string, Bucket>, key: string, limit: int, now: real)
    requires limit > 0 && (key in buckets ==> buckets[key].tokens >= 0.0 && buckets[key].at <= now)
    ensures Level(buckets, key, limit, now) >= 0.0
  {
    hide Gain;
    GainAdds(0.0, 0.0, limit);
    if key in buckets {
      GainGrows(0.0, now - buckets[key].at, limit);
    }
  }

  /** A second request meets the level the first one left, or a full bucket once that one is stale. */
  lemma LaterLevel(st1: State, key: string, limit: int, now: real, level: real, cleanup2: real, d: real)
    requires limit > 0 && now <= cleanup2 <= now + d && 0.0 <= level < 1.0
    requires key in st1.buckets && st1.buckets[key] == Bucket(level, now)
    ensures Step(st1, Request(key, limit, cleanup2, now + d)).1.allowed
            <==> d >= (1.0 - level) / (limit as real / 60.0)
  {
    hide Active, Gain;
    WholeTokenAfter(level, limit, d);
    GainAdds(0.0, 0.0, limit);
    var st2 := Cleanup(st1, cleanup2);
    if key in st2.buckets {
      assert Level(st2.buckets, key, limit, now + d) == Min(limit as real, level + Gain(d, limit));
    } else {
      assert Level(st2.buckets, key, limit, now + d) == limit as real;
    }
  }
}
