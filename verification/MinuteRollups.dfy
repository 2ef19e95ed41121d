/** Minute buckets that are drained and added into the rollup table. */
module MinuteRollups {
  import opened Wrappers

  datatype MinuteKey = MinuteKey(minute: int, server: string, model: string)

  /** The additive columns of a rollup. */
  datatype Totals = Totals(
    requests: int, errors: int, prompt: int, completion: int, total: int,
    ttftSum: real, ttftCount: int, decodeSum: real, decodeN: int,
    itlSum: real, itlCount: int, durationSum: real)

  const NOTHING := Totals(0, 0, 0, 0, 0, 0.0, 0, 0.0, 0, 0.0, 0, 0.0)

  function Add(a: Totals, b: Totals): Totals {
    Totals(a.requests + b.requests, a.errors + b.errors, a.prompt + b.prompt, a.completion + b.completion,
           a.total + b.total, a.ttftSum + b.ttftSum, a.ttftCount + b.ttftCount, a.decodeSum + b.decodeSum,
           a.decodeN + b.decodeN, a.itlSum + b.itlSum, a.itlCount + b.itlCount, a.durationSum + b.durationSum)
  }

  lemma AddLaws(a: Totals, b: Totals, c: Totals)
    ensures Add(Add(a, b), c) == Add(a, Add(b, c)) && Add(a, b) == Add(b, a) && Add(a, NOTHING) == a == Add(NOTHING, a)
  {
  }

  // ------------------------------------------------------------------ what one finished request adds

  /** The figures a finish is called with. */
  datatype Figures = Figures(
    success: bool, cancelled: bool, outputTokens: int, promptTokens: int, totalTokens: int,
    decodeSeconds: Option<real>, duration: Option<real>, ttft: Option<real>, itl: Option<real>)

  function Positive(x: Option<real>): bool { x.Some? && x.value > 0.0 }

  function Present(x: Option<real>): bool { x.Some? && x.value >= 0.0 }

  function DurationMs(f: Figures): real {
    if Present(f.duration) then f.duration.value * 1000.0
    else
      var dur := f.ttft.Or(0.0) + f.decodeSeconds.Or(0.0);
      if (f.ttft.Some? || f.decodeSeconds.Some?) && dur > 0.0 then dur * 1000.0 else 0.0
  }

  function Share(f: Figures): Totals {
    var decoded := Positive(f.decodeSeconds) && f.outputTokens > 0;
    var derived := !Present(f.itl) && Positive(f.decodeSeconds) && f.outputTokens > 1;
    Totals(
      0,
      if !f.success && !f.cancelled then 1 else 0,
      f.promptTokens,
      f.outputTokens,
      if f.totalTokens != 0 then f.totalTokens else f.promptTokens + f.outputTokens,
      if Present(f.ttft) then f.ttft.value * 1000.0 else 0.0,
      if Present(f.ttft) then 1 else 0,
      if decoded then f.outputTokens as real / f.decodeSeconds.value else 0.0,
      if decoded then 1 else 0,
      if Present(f.itl) then f.itl.value
      else if derived then f.decodeSeconds.value / (f.outputTokens - 1) as real * 1000.0 else 0.0,
      if Present(f.itl) || derived then 1 else 0,
      DurationMs(f))
  }

  /**
    What each column of a share says of the request: whether it failed; its tokens; its waiting time
    in milliseconds, if known; its speed, which times the generating time gives the tokens; the gap
    between tokens, as reported or else spread over the generating time; and its duration, which is
    made up of waiting and generating when it is not given. A sum without a count is zero.
   */
  lemma ShareMeans(f: Figures)
    ensures var s := Share(f);
            && s.requests == 0 && s.errors == (if f.success || f.cancelled then 0 else 1)
            && s.prompt == f.promptTokens && s.completion == f.outputTokens
            && (f.totalTokens != 0 ==> s.total == f.totalTokens)
            && (f.totalTokens == 0 ==> s.total == s.prompt + s.completion)
    ensures var s := Share(f);
            if f.ttft.Some? && f.ttft.value >= 0.0 then s.ttftCount == 1 && s.ttftSum == 1000.0 * f.ttft.value
            else s.ttftCount == 0 && s.ttftSum == 0.0
    ensures var s, d := Share(f), f.decodeSeconds.Or(0.0);
            if d > 0.0 && f.outputTokens > 0 then s.decodeN == 1 && s.decodeSum * d == f.outputTokens as real
            else s.decodeN == 0 && s.decodeSum == 0.0
    ensures var s, d := Share(f), f.decodeSeconds.Or(0.0);
            if f.itl.Some? && f.itl.value >= 0.0 then s.itlCount == 1 && s.itlSum == f.itl.value
            else if d > 0.0 && f.outputTokens > 1 then
              s.itlCount == 1 && s.itlSum * (f.outputTokens - 1) as real == 1000.0 * d
            else s.itlCount == 0 && s.itlSum == 0.0
    ensures var s, made := Share(f), f.ttft.Or(0.0) + f.decodeSeconds.Or(0.0);
            s.durationSum == if f.duration.Some? && f.duration.value >= 0.0 then 1000.0 * f.duration.value
                             else if made > 0.0 then 1000.0 * made else 0.0
  {
    if !Present(f.itl) && Positive(f.decodeSeconds) && f.outputTokens > 1 {
      DividedBack(f.decodeSeconds.value, (f.outputTokens - 1) as real);
    }
  }

  lemma DividedBack(x: real, n: real)
    requires n > 0.0 && x > 0.0
    ensures x / n * 1000.0 * n == x * 1000.0 && x / n * 1000.0 > 0.0
  {
    assert x / n * n == x;
  }

  // ------------------------------------------------------------------ tables

  type Table = map<MinuteKey, Totals>

  function Get(t: Table, k: MinuteKey): Totals { if k in t then t[k] else NOTHING }

  /** Add to a row, making it if there is none: a bucket update, and the additive upsert. */
  function Credit(t: Table, k: MinuteKey, d: Totals): Table { t[k := Add(Get(t, k), d)] }

  /** One request counted, or given up unless the row holds none. */
  const ONE_REQUEST := NOTHING.(requests := 1)

  function GivenUp(t: Table, k: MinuteKey): Totals {
    var r := Get(t, k).requests;
    NOTHING.(requests := if r - 1 < 0 then -r else -1)
  }

  /** Every row of `rows` added into `t`. */
  function AddAll(t: Table, rows: Table): Table {
    map k | k in t.Keys + rows.Keys :: Add(Get(t, k), Get(rows, k))
  }

  lemma AddAllGets(t: Table, rows: Table, k: MinuteKey)
    ensures Get(AddAll(t, rows), k) == Add(Get(t, k), Get(rows, k))
  {
    AddLaws(NOTHING, NOTHING, NOTHING);
    hide Add;
  }

  lemma CreditGets(t: Table, k: MinuteKey, d: Totals, o: MinuteKey)
    ensures Get(Credit(t, k, d), o) == if o == k then Add(Get(t, o), d) else Get(t, o)
  {
    hide Add;
  }

  // ------------------------------------------------------------------ conservation

  /**
    Buckets not yet drained, drained batches on their way, the table they are added into, and the
    rows of batches whose transaction failed.
   */
  datatype Flow = Flow(pending: Table, batches: seq<Table>, stored: Table, lost: Table)

  datatype Step =
    | Count(key: MinuteKey, d: Totals)         // any bucket update
    | Drain
    | Commit(batch: nat)                       // all rows of a drained batch reach the table
    | Fail(batch: nat)                         // or, rolled back, none does

  ghost predicate Possible(st: Flow, s: Step) {
    s.Commit? || s.Fail? ==> s.batch < |st.batches|
  }

  function Without(batches: seq<Table>, b: nat): seq<Table>
    requires b < |batches|
  {
    batches[..b] + batches[b + 1..]
  }

  ghost function Apply(st: Flow, s: Step): Flow
    requires Possible(st, s)
  {
    match s
    case Count(key, d) => st.(pending := Credit(st.pending, key, d))
    case Drain => st.(pending := map[], batches := st.batches + [st.pending])
    case Commit(b) => st.(batches := Without(st.batches, b), stored := AddAll(st.stored, st.batches[b]))
    case Fail(b) => st.(batches := Without(st.batches, b), lost := AddAll(st.lost, st.batches[b]))
  }

  function InFlight(batches: seq<Table>, k: MinuteKey): Totals {
    if batches == [] then NOTHING else Add(InFlight(batches[..|batches| - 1], k), Get(batches[|batches| - 1], k))
  }

  /** Everything held for a key, wherever it is, and what was lost of it. */
  function Held(st: Flow, k: MinuteKey): Totals {
    Add(Add(Get(st.stored, k), Get(st.lost, k)), Add(InFlight(st.batches, k), Get(st.pending, k)))
  }

  lemma InFlightAdded(batches: seq<Table>, t: Table, k: MinuteKey)
    ensures InFlight(batches + [t], k) == Add(InFlight(batches, k), Get(t, k))
  {
    hide Add, Get;
    assert (batches + [t])[..|batches|] == batches;
  }

  /** Taking a batch out takes its totals out of what is in flight. */
  lemma {:induction false} InFlightTaken(batches: seq<Table>, b: nat, k: MinuteKey)
    requires b < |batches|
    ensures InFlight(batches, k) == Add(InFlight(Without(batches, b), k), Get(batches[b], k))
    decreases |batches|
  {
    hide Add, Get, InFlight;
    var n := |batches| - 1;
    var init, last := batches[..n], batches[n];
    assert batches == init + [last];
    InFlightAdded(init, last, k);
    if b == n {
      assert Without(batches, b) == init;
    } else {
      assert Without(batches, b) == Without(init, b) + [last];
      InFlightAdded(Without(init, b), last, k);
      InFlightTaken(init, b, k);
      AddLaws(InFlight(Without(init, b), k), Get(batches[b], k), Get(last, k));
      AddLaws(InFlight(Without(init, b), k), Get(last, k), Get(batches[b], k));
      AddLaws(Get(batches[b], k), Get(last, k), NOTHING);
    }
  }

  /** A step changes what is held by what it counts, and by nothing else. */
  lemma StepConserves(st: Flow, s: Step, k: MinuteKey)
    requires Possible(st, s)
    ensures Held(Apply(st, s), k) == Add(Held(st, k), if s.Count? && s.key == k then s.d else NOTHING)
  {
    hide Add, Get, Credit, InFlight, AddAll, Without;
    var kept, flying, pending := Add(Get(st.stored, k), Get(st.lost, k)), InFlight(st.batches, k), Get(st.pending, k);
    AddLaws(Held(st, k), NOTHING, NOTHING);
    match s
    case Count(key, d) =>
      CreditGets(st.pending, key, d, k);
      AddLaws(flying, pending, d);
      AddLaws(kept, Add(flying, pending), d);
    case Drain =>
      InFlightAdded(st.batches, st.pending, k);
      EmptyTable(k);
      AddLaws(Add(flying, pending), NOTHING, NOTHING);
    case Commit(b) =>
      InFlightTaken(st.batches, b, k);
      AddAllGets(st.stored, st.batches[b], k);
      MoveStored(Get(st.stored, k), Get(st.lost, k), Get(st.batches[b], k), InFlight(Without(st.batches, b), k),
          pending);
    case Fail(b) =>
      InFlightTaken(st.batches, b, k);
      AddAllGets(st.lost, st.batches[b], k);
      MoveStored(Get(st.stored, k), Get(st.lost, k), Get(st.batches[b], k), InFlight(Without(st.batches, b), k),
          pending);
  }

  lemma EmptyTable(k: MinuteKey)
    ensures Get(map[], k) == NOTHING
  {
  }

  /** A batch's totals move from the batches under way to what is stored, or to what is lost. */
  lemma MoveStored(stored: Totals, lost: Totals, d: Totals, flying: Totals, pending: Totals)
    ensures Add(Add(Add(stored, d), lost), Add(flying, pending)) == Add(Add(stored, lost), Add(Add(flying, d), pending))
    ensures Add(Add(stored, Add(lost, d)), Add(flying, pending)) == Add(Add(stored, lost), Add(Add(flying, d), pending))
  {
  }

  // ---- runs

  ghost predicate CanRun(st: Flow, run: seq<Step>)
    decreases |run|
  {
    run == [] || (Possible(st, run[0]) && CanRun(Apply(st, run[0]), run[1..]))
  }

  ghost function After(st: Flow, run: seq<Step>): Flow
    requires CanRun(st, run)
    decreases |run|
  {
    if run == [] then st else After(Apply(st, run[0]), run[1..])
  }

  /** What the run's updates count for a key. */
  function Logged(run: seq<Step>, k: MinuteKey): Totals {
    if run == [] then NOTHING
    else Add(if run[0].Count? && run[0].key == k then run[0].d else NOTHING, Logged(run[1..], k))
  }

  /**
    Conservation: in every run of updates, drains, commits and failures, in any order, what is
    stored, on its way, pending and lost for a key adds up to what was held at first and everything
    counted since.
   */
  lemma {:induction false} NothingLost(st: Flow, run: seq<Step>, k: MinuteKey)
    requires CanRun(st, run)
    ensures Held(After(st, run), k) == Add(Held(st, k), Logged(run, k))
    decreases |run|
  {
    hide Held, Apply, Possible, Add;
    if run == [] {
      AddLaws(Held(st, k), NOTHING, NOTHING);
    } else {
      var d := if run[0].Count? && run[0].key == k then run[0].d else NOTHING;
      StepConserves(st, run[0], k);
      NothingLost(Apply(st, run[0]), run[1..], k);
      AddLaws(Held(st, k), d, Logged(run[1..], k));
    }
  }

  const EMPTY := Flow(map[], [], map[], map[])

  lemma HeldWhenIn(st: Flow, k: MinuteKey)
    requires st.batches == []
    ensures Held(st, k) == Add(Add(Get(st.stored, k), Get(st.pending, k)), Get(st.lost, k))
  {
    hide Get;
    AddLaws(Get(st.pending, k), NOTHING, NOTHING);
  }

  lemma HeldAtFirst(k: MinuteKey)
    ensures Held(EMPTY, k) == NOTHING
  {
  }

  lemma NothingAdded(a: Totals, b: Totals)
    ensures Add(a, b) == a <==> b == NOTHING
  {
  }

  /**
    With no batch under way, the table and the pending buckets are the whole event log, if and only
    if no failed flush took rows of the key with it; what is missing is exactly those rows.
   */
  lemma TablePlusPendingIsLog(run: seq<Step>, st: Flow, k: MinuteKey)
    requires CanRun(EMPTY, run) && st == After(EMPTY, run) && st.batches == []
    ensures Add(Add(Get(st.stored, k), Get(st.pending, k)), Get(st.lost, k)) == Logged(run, k)
    ensures Add(Get(st.stored, k), Get(st.pending, k)) == Logged(run, k) <==> Get(st.lost, k) == NOTHING
  {
    hide *;
    NothingLost(EMPTY, run, k);
    HeldWhenIn(st, k);
    HeldAtFirst(k);
    AddLaws(Logged(run, k), NOTHING, NOTHING);
    NothingAdded(Add(Get(st.stored, k), Get(st.pending, k)), Get(st.lost, k));
  }

  /** A request that moves between minute buckets is conserved if and only if the old bucket still holds one. */
  lemma RetargetConserves(t: Table, left: MinuteKey, taken: MinuteKey)
    requires left != taken
    ensures var t' := Credit(Credit(t, left, GivenUp(t, left)), taken, ONE_REQUEST);
            Get(t', left).requests + Get(t', taken).requests == Get(t, left).requests + Get(t, taken).requests
            <==> Get(t, left).requests > 0
  {
  }

  // ------------------------------------------------------------------ the flush

  /**
    One transaction, if there is anything to flush: each drained row is added into the table, unless
    statement `failAt` fails, the commit being the last; then the table is as it was.
   */
  method FlushRows(rows: Table, table: Table, failAt: nat) returns (after: Table, count: Option<nat>)
    ensures if rows == map[] || failAt > |rows.Keys| then after == AddAll(table, rows) && count == Some(|rows.Keys|)
            else after == table && count == None
  {
    hide Add, Get, Credit, AddAll;
    after := table;
    if rows == map[] {
      NothingToAdd(table);
      return table, Some(0);
    }
    var todo, done := rows.Keys, 0;
    ghost var added: Table := map[];
    NothingToAdd(table);
    while todo != {}
      invariant todo <= rows.Keys && done + |todo| == |rows.Keys| && done <= failAt
      invariant added == map k | k in rows && k !in todo :: rows[k]
      invariant after == AddAll(table, added)
    {
      if done == failAt {
        return table, None;
      }
      var key :| key in todo;
      RowAdded(table, added, key, rows[key]);
      after := Credit(after, key, rows[key]);
      added := added[key := rows[key]];
      todo := todo - {key};
      done := done + 1;
    }
    assert added == rows;
    if done == failAt {
      return table, None;
    }
    count := Some(done);
  }

  lemma NothingToAdd(table: Table)
    ensures AddAll(table, map[]) == table
  {
    forall k | k in table ensures AddAll(table, map[])[k] == table[k] {
      AddLaws(table[k], NOTHING, NOTHING);
    }
    hide Add;
  }

  lemma RowAdded(table: Table, added: Table, key: MinuteKey, d: Totals)
    requires key !in added
    ensures Credit(AddAll(table, added), key, d) == AddAll(table, added[key := d])
  {
    AddLaws(Get(table, key), NOTHING, NOTHING);
    AddLaws(NOTHING, d, NOTHING);
    hide Add;
    AddAllGets(table, added, key);
  }
}
