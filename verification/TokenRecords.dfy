/** Timed token records, as the sliding-window limiter keeps them. */
module TokenRecords {

  /** `count` tokens taken at time `at` (seconds). */
  datatype Record = Record(at: real, count: int)

  /** The records younger than the cutoff, in order. */
  function Active(rs: seq<Record>, cutoff: real): seq<Record> {
    if rs == [] then []
    else (if rs[0].at > cutoff then [rs[0]] else []) + Active(rs[1..], cutoff)
  }

  function Total(rs: seq<Record>): int {
    if rs == [] then 0 else rs[0].count + Total(rs[1..])
  }

  /** Oldest first, every count positive, nothing later than `now`. */
  ghost predicate Orderly(rs: seq<Record>, now: real) {
    && (forall i, j :: 0 <= i < j < |rs| ==> rs[i].at <= rs[j].at)
    && (forall i :: 0 <= i < |rs| ==> rs[i].count > 0 && rs[i].at <= now)
  }

  lemma {:induction false} TotalAppend(a: seq<Record>, b: seq<Record>)
    ensures Total(a + b) == Total(a) + Total(b)
  {
    if a == [] {
      assert a + b == b;
    } else {
      TotalAppend(a[1..], b);
      assert (a + b)[1..] == a[1..] + b;
    }
  }

  lemma NoneActive(cutoff: real)
    ensures Active([], cutoff) == []
  {
  }

  lemma ActiveUnfolds(r: Record, rs: seq<Record>, cutoff: real)
    ensures Active([r] + rs, cutoff) == (if r.at > cutoff then [r] else []) + Active(rs, cutoff)
  {
    assert ([r] + rs)[1..] == rs;
  }

  lemma {:induction false} ActiveAppend(a: seq<Record>, b: seq<Record>, cutoff: real)
    ensures Active(a + b, cutoff) == Active(a, cutoff) + Active(b, cutoff)
  {
    hide *;
    if a == [] {
      assert a + b == b;
      NoneActive(cutoff);
      assert [] + Active(b, cutoff) == Active(b, cutoff);
    } else {
      ActiveAppend(a[1..], b, cutoff);
      ActiveUnfolds(a[0], a[1..] + b, cutoff);
      ActiveUnfolds(a[0], a[1..], cutoff);
      assert a + b == [a[0]] + (a[1..] + b) && a == [a[0]] + a[1..];
      var head := if a[0].at > cutoff then [a[0]] else [];
      assert head + (Active(a[1..], cutoff) + Active(b, cutoff)) == (head + Active(a[1..], cutoff)) + Active(b, cutoff);
    }
  }

  /** Pruning loses nothing that a later cutoff would keep. */
  lemma {:induction false} ActiveTwice(rs: seq<Record>, early: real, late: real)
    requires early <= late
    ensures Active(Active(rs, early), late) == Active(rs, late)
  {
    if rs != [] {
      ActiveTwice(rs[1..], early, late);
      ActiveAppend(if rs[0].at > early then [rs[0]] else [], Active(rs[1..], early), late);
    }
  }

  lemma {:induction false} ActiveAreRecords(rs: seq<Record>, cutoff: real)
    ensures forall r :: r in Active(rs, cutoff) ==> r in rs && r.at > cutoff
  {
    if rs != [] { ActiveAreRecords(rs[1..], cutoff); }
  }

  lemma OrderlyRest(rs: seq<Record>, now: real)
    requires Orderly(rs, now) && rs != []
    ensures Orderly(rs[1..], now) && rs[0].count > 0 && rs[0].at <= now
    ensures forall r :: r in rs[1..] ==> rs[0].at <= r.at
  {
  }

  lemma OrderlyFront(r: Record, rs: seq<Record>, now: real)
    requires Orderly(rs, now) && r.count > 0 && r.at <= now && forall o :: o in rs ==> r.at <= o.at
    ensures Orderly([r] + rs, now)
  {
    forall j | 0 <= j < |rs| ensures r.at <= rs[j].at {
      assert rs[j] in rs;
    }
  }

  /** Pruning keeps the records orderly. */
  lemma {:induction false} ActiveOrderly(rs: seq<Record>, cutoff: real, now: real)
    requires Orderly(rs, now)
    ensures Orderly(Active(rs, cutoff), now)
    ensures forall r :: r in Active(rs, cutoff) ==> r in rs && r.at > cutoff
  {
    ActiveAreRecords(rs, cutoff);
    if rs != [] {
      OrderlyRest(rs, now);
      hide Orderly;
      var tail := Active(rs[1..], cutoff);
      ActiveOrderly(rs[1..], cutoff, now);
      OrderlyFront(rs[0], tail, now);
      assert [] + tail == tail;
    }
  }

  lemma {:induction false} ActiveNone(rs: seq<Record>, cutoff: real)
    requires forall i :: 0 <= i < |rs| ==> rs[i].at <= cutoff
    ensures Active(rs, cutoff) == []
  {
    if rs != [] { ActiveNone(rs[1..], cutoff); }
  }

  lemma {:induction false} ActiveAll(rs: seq<Record>, cutoff: real)
    requires forall i :: 0 <= i < |rs| ==> rs[i].at > cutoff
    ensures Active(rs, cutoff) == rs
  {
    if rs != [] { ActiveAll(rs[1..], cutoff); }
  }

  /** A later cutoff never counts more. */
  lemma {:induction false} ActiveShrinks(rs: seq<Record>, early: real, late: real)
    requires early <= late
    requires forall i :: 0 <= i < |rs| ==> rs[i].count > 0
    ensures 0 <= Total(Active(rs, late)) <= Total(Active(rs, early)) <= Total(rs)
  {
    if rs != [] {
      ActiveShrinks(rs[1..], early, late);
      TotalAppend(if rs[0].at > early then [rs[0]] else [], Active(rs[1..], early));
      TotalAppend(if rs[0].at > late then [rs[0]] else [], Active(rs[1..], late));
    }
  }

  // ------------------------------------------------------------------ retry time

  function Max(a: real, b: real): real { if a < b then b else a }

  /** Scan the records, oldest first, until `needed` tokens are freed; 60 s when they never are. */
  function RetryFrom(rs: seq<Record>, freed: int, needed: int, now: real): real {
    if rs == [] then 60.0
    else if freed + rs[0].count >= needed then Max(1.0, 60.0 - (now - rs[0].at))
    else RetryFrom(rs[1..], freed + rs[0].count, needed, now)
  }

  /** The scan stops at the first record whose expiry frees enough. */
  lemma {:induction false} RetryFindsRecord(rs: seq<Record>, freed: int, needed: int, now: real) returns (j: nat)
    requires freed < needed <= freed + Total(rs)
    ensures j < |rs| && RetryFrom(rs, freed, needed, now) == Max(1.0, 60.0 - (now - rs[j].at))
    ensures freed + Total(rs[..j]) < needed <= freed + Total(rs[..j + 1])
  {
    if freed + rs[0].count >= needed {
      j := 0;
      assert rs[..1] == [rs[0]];
    } else {
      var i := RetryFindsRecord(rs[1..], freed + rs[0].count, needed, now);
      j := i + 1;
      assert rs[..j] == [rs[0]] + rs[1..][..i];
      assert rs[..j + 1] == [rs[0]] + rs[1..][..i + 1];
      TotalAppend([rs[0]], rs[1..][..i]);
      TotalAppend([rs[0]], rs[1..][..i + 1]);
    }
  }

  /** When the records cannot free enough, the scan falls through to the default. */
  lemma {:induction false} RetryFallsThrough(rs: seq<Record>, freed: int, needed: int, now: real)
    requires forall i :: 0 <= i < |rs| ==> rs[i].count > 0
    requires freed + Total(rs) < needed
    ensures RetryFrom(rs, freed, needed, now) == 60.0
  {
    if rs != [] {
      ActiveShrinks(rs[1..], 0.0, 0.0);
      RetryFallsThrough(rs[1..], freed + rs[0].count, needed, now);
    }
  }

  /**
    The retry time is sound and tight. With `amount` refused at `now`, the amount fits at `now + d`
    for every `d` from the retry time on, and at no earlier `d` unless the one-second floor applied.
   */
  lemma RetryExact(rs: seq<Record>, limit: int, amount: int, now: real, d: real)
    requires Orderly(rs, now) && 0 < amount <= limit < Total(rs) + amount && d >= 0.0
    ensures var retry := RetryFrom(rs, 0, Total(rs) + amount - limit, now);
            && 1.0 <= retry
            && (d >= retry ==> Total(Active(rs, now + d - 60.0)) + amount <= limit)
            && (Total(Active(rs, now + d - 60.0)) + amount <= limit ==> d >= retry || retry == 1.0)
  {
    var needed := Total(rs) + amount - limit;
    var j := RetryFindsRecord(rs, 0, needed, now);
    var cutoff := now + d - 60.0;
    if cutoff >= rs[j].at {
      FreedFrom(rs, j + 1, cutoff, now);
    } else {
      KeptFrom(rs, j, cutoff, now);
    }
  }

  /** With the first `j` records expired, at most the others count. */
  lemma FreedFrom(rs: seq<Record>, j: nat, cutoff: real, now: real)
    requires Orderly(rs, now) && j <= |rs| && (forall i :: 0 <= i < j ==> rs[i].at <= cutoff)
    ensures Total(Active(rs, cutoff)) <= Total(rs) - Total(rs[..j])
  {
    var a, b := rs[..j], rs[j..];
    assert rs == a + b;
    ActiveAppend(a, b, cutoff);
    ActiveNone(a, cutoff);
    assert Active(rs, cutoff) == Active(b, cutoff);
    ActiveShrinks(b, cutoff, cutoff);
    TotalAppend(a, b);
  }

  /** With record `j` still young, it and all after it count. */
  lemma KeptFrom(rs: seq<Record>, j: nat, cutoff: real, now: real)
    requires Orderly(rs, now) && j < |rs| && cutoff < rs[j].at
    ensures Total(Active(rs, cutoff)) >= Total(rs) - Total(rs[..j])
  {
    var a, b := rs[..j], rs[j..];
    assert rs == a + b;
    ActiveAppend(a, b, cutoff);
    ActiveAll(b, cutoff);
    assert Active(rs, cutoff) == Active(a, cutoff) + b;
    ActiveShrinks(a, cutoff, cutoff);
    TotalAppend(a, b);
    TotalAppend(Active(a, cutoff), b);
  }

  // ------------------------------------------------------------------ every window of a log

  /** The records of `log` in the window `(from, to]`. */
  function Window(log: seq<Record>, from: real, to: real): seq<Record> {
    if log == [] then []
    else (if from < log[0].at <= to then [log[0]] else []) + Window(log[1..], from, to)
  }

  lemma {:induction false} WindowAppend(a: seq<Record>, b: seq<Record>, from: real, to: real)
    ensures Window(a + b, from, to) == Window(a, from, to) + Window(b, from, to)
  {
    hide *;
    if a == [] {
      assert a + b == b;
      NoWindow(from, to);
      assert [] + Window(b, from, to) == Window(b, from, to);
    } else {
      WindowAppend(a[1..], b, from, to);
      WindowUnfolds(a[0], a[1..] + b, from, to);
      WindowUnfolds(a[0], a[1..], from, to);
      assert a + b == [a[0]] + (a[1..] + b) && a == [a[0]] + a[1..];
      var head := if from < a[0].at <= to then [a[0]] else [];
      assert head + (Window(a[1..], from, to) + Window(b, from, to))
             == (head + Window(a[1..], from, to)) + Window(b, from, to);
    }
  }

  lemma NoWindow(from: real, to: real)
    ensures Window([], from, to) == []
  {
  }

  lemma WindowUnfolds(r: Record, rs: seq<Record>, from: real, to: real)
    ensures Window([r] + rs, from, to) == (if from < r.at <= to then [r] else []) + Window(rs, from, to)
  {
    assert ([r] + rs)[1..] == rs;
  }

  /** A window counts no more than everything after an earlier cutoff. */
  lemma {:induction false} WindowBelowActive(log: seq<Record>, from: real, to: real, cutoff: real)
    requires cutoff <= from && forall r :: r in log ==> r.count > 0
    ensures 0 <= Total(Window(log, from, to)) <= Total(Active(log, cutoff))
  {
    if log != [] {
      WindowBelowActive(log[1..], from, to, cutoff);
      TotalAppend(if from < log[0].at <= to then [log[0]] else [], Window(log[1..], from, to));
      TotalAppend(if log[0].at > cutoff then [log[0]] else [], Active(log[1..], cutoff));
    }
  }

  lemma WindowOne(r: Record, from: real, to: real)
    ensures Total(Window([r], from, to)) == (if from < r.at <= to then r.count else 0)
    ensures Total(Window([], from, to)) == 0
  {
    assert [r][1..] == [];
  }
}
