/** The tracker of one dispatched request, driving the live store. */
module Requests {
  import opened Wrappers
  import opened LiveStore
  import opened MinuteRollups
  import opened StatsStore
  import G = LiveGauges

  /** What the caller of a finish supplies. */
  datatype Report = Report(
    success: bool, cancelled: bool, outputTokens: int, promptTokens: int, totalTokens: int,
    decodeSeconds: Option<real>, duration: Option<real>, itl: Option<real>)

  /** The safety net's report. */
  const ABANDONED := Report(false, true, 0, 0, 0, None, None, None)

  /** The timing figures a finish returns. */
  datatype Timing = Timing(ttft: Option<real>, decodeSeconds: Option<real>, duration: real)

  function TimingOf(t: G.Tracker, r: Report, now: real): Timing {
    Timing(
      if t.firstToken.Some? then Some(t.firstToken.value - t.start) else None,
      if Positive(r.decodeSeconds) then r.decodeSeconds
      else if t.firstToken.Some? then Some(now - t.firstToken.value) else None,
      r.duration.Or(now - t.start))
  }

  /** What the store's finish is called with. */
  function FiguresOf(t: G.Tracker, r: Report, now: real): Figures {
    FiguresFrom(TimingOf(t, r, now), r)
  }

  function FiguresFrom(m: Timing, r: Report): Figures {
    Figures(r.success, r.cancelled, r.outputTokens, r.promptTokens, r.totalTokens,
            m.decodeSeconds, Some(m.duration), m.ttft, r.itl)
  }

  /** The minute buckets after a retarget of the tracker. */
  function MinutesMoved(keys: Keys, minutes: Table, t: G.Tracker, key: Key, minute: int): Table {
    if G.Moves(keys, t, key)
    then Moved(minutes, MinuteOf(minute, t.key), MinuteOf(minute, LiveStore.Resolve(keys, key)))
    else minutes
  }

  /** The minute buckets after a finish of the tracker. */
  function MinutesDone(minutes: Table, t: G.Tracker, r: Report, now: real, minute: int): Table {
    if t.finished then minutes else Credit(minutes, MinuteOf(minute, t.key), Share(FiguresOf(t, r, now)))
  }

  class RequestTracker {
    const store: LiveStats
    const start: real
    var key: Key
    var firstTokenAt: Option<real>
    var finished: bool
    var inflight: nat

    constructor (store: LiveStats, key: Key, start: real)
      ensures this.store == store && View() == G.Tracker(key, start, None, false, 0)
    {
      this.store, this.key, this.start := store, key, start;
      firstTokenAt, finished, inflight := None, false, 0;
    }

    function View(): G.Tracker
      reads this
    {
      G.Tracker(key, start, firstTokenAt, finished, inflight)
    }

    method Retarget(wanted: Key, now: real, minute: int)
      requires store.Valid()
      modifies this, store
      ensures store.Valid()
      ensures (store.keys, View()) == G.MoveTracker(old(store.keys), old(View()), wanted, now, true)
      ensures store.minutes == MinutesMoved(old(store.keys), old(store.minutes), old(View()), wanted, minute)
    {
      hide LiveStore.Retarget, LiveStore.Resolve, Moved;
      if finished || firstTokenAt.Some? {
        return;
      }
      var k := store.Resolve(wanted);
      if k != key {
        store.Retarget(key, k, now, minute);
        key := k;
      }
    }

    method FirstToken(now: real)
      requires store.Valid()
      modifies this, store
      ensures store.Valid() && store.minutes == old(store.minutes)
      ensures (store.keys, View()) == G.FirstTracker(old(store.keys), old(View()), now, true)
    {
      hide LiveStore.FirstToken;
      if finished || firstTokenAt.Some? {
        return;
      }
      firstTokenAt := Some(now);
      store.FirstToken(key, now);
    }

    method SetInflightBytes(total: nat, now: real)
      requires store.Valid()
      modifies this, store
      ensures store.Valid() && store.minutes == old(store.minutes)
      ensures (store.keys, View()) == G.BytesTracker(old(store.keys), old(View()), total, now, true)
    {
      hide AddInflight;
      if finished {
        return;
      }
      var delta := total - inflight;
      if delta != 0 {
        inflight := total;
        store.AddInflightBytes(key, delta, now);
      }
    }

    /** Time to first token, generating time and duration, as measured or as reported. */
    method Measure(r: Report, now: real) returns (timing: Timing)
      ensures timing == TimingOf(View(), r, now)
    {
      var ttft, decode := None, None;
      if firstTokenAt.Some? {
        ttft := Some(firstTokenAt.value - start);
        decode := Some(now - firstTokenAt.value);
      }
      if r.decodeSeconds.Some? && r.decodeSeconds.value > 0.0 {
        decode := r.decodeSeconds;
      }
      timing := Timing(ttft, decode, if r.duration.None? then now - start else r.duration.value);
    }

    /** Close the request: the timing figures on the first call, nothing afterwards. */
    method Finish(r: Report, now: real, minute: int) returns (timing: Option<Timing>)
      requires store.Valid()
      modifies this, store
      ensures store.Valid() && finished
      ensures (store.keys, View())
              == G.DoneTracker(old(store.keys), old(View()), !r.success && !r.cancelled, r.outputTokens, now, true)
      ensures store.minutes == MinutesDone(old(store.minutes), old(View()), r, now, minute)
      ensures timing == if old(finished) then None else Some(TimingOf(old(View()), r, now))
    {
      hide LiveStore.Finish, AddInflight, FinishCounts, Credit, Share, TimingOf;
      if finished {
        return None;
      }
      var m := Measure(r, now);
      finished := true;
      store.Finish(key, firstTokenAt.Some?, FiguresFrom(m, r), now, minute);
      if inflight != 0 {
        store.AddInflightBytes(key, 0 - inflight, now);
        inflight := 0;
      }
      timing := Some(m);
    }
  }

  /** Count a request as dispatched, under the key the store resolves it to. */
  method TrackDispatch(store: LiveStats, wanted: Key, now: real, minute: int) returns (t: RequestTracker)
    requires store.Valid()
    modifies store
    ensures store.Valid() && fresh(t) && t.store == store
    ensures var k := LiveStore.Resolve(old(store.keys), wanted);
            && store.keys == LiveStore.Dispatch(old(store.keys), k, now)
            && store.minutes == Credit(old(store.minutes), MinuteOf(minute, k), ONE_REQUEST)
            && t.View() == G.Tracker(k, now, None, false, 0)
  {
    hide LiveStore.Resolve, LiveStore.Dispatch, Credit;
    var k := store.Resolve(wanted);
    store.Dispatch(k, now, minute);
    t := new RequestTracker(store, k, now);
  }

  /** The safety net: close a tracker that nothing else closed. */
  method FinishOpenTracker(t: RequestTracker?, now: real, minute: int)
    requires t != null ==> t.store.Valid()
    modifies if t == null then {} else {t, t.store}
    ensures t != null ==> t.finished && t.store.Valid()
    ensures t != null ==>
              (t.store.keys, t.View()) == G.DoneTracker(old(t.store.keys), old(t.View()), false, 0, now, true)
    ensures t != null ==> t.store.minutes == MinutesDone(old(t.store.minutes), old(t.View()), ABANDONED, now, minute)
  {
    hide LiveStore.Finish, AddInflight, FinishCounts, Credit, Share;
    if t != null && !t.finished {
      var _ := t.Finish(ABANDONED, now, minute);
    }
  }

  // ------------------------------------------------------------------ what the figures say

  /**
    With the clock going forward and nothing supplied by the caller, waiting and generating times
    are not negative and add up to the whole duration, which is what the minute bucket receives.
   */
  lemma TimesAddUp(t: G.Tracker, r: Report, now: real)
    requires t.start <= now && (t.firstToken.Some? ==> t.start <= t.firstToken.value <= now)
    requires r.duration == None && !Positive(r.decodeSeconds)
    ensures var m := TimingOf(t, r, now);
            && m.ttft.Some? == m.decodeSeconds.Some? == t.firstToken.Some?
            && (m.ttft.Some? ==> m.ttft.value >= 0.0 && m.decodeSeconds.value >= 0.0
                                 && m.ttft.value + m.decodeSeconds.value == m.duration)
            && DurationMs(FiguresOf(t, r, now)) == (now - t.start) * 1000.0
  {
  }

  /** The generating time of a request: what is reported, if positive, else what is measured since the first token. */
  function Generating(t: G.Tracker, reported: Option<real>, now: real): real {
    if reported.Some? && reported.value > 0.0 then reported.value
    else if t.firstToken.Some? then now - t.firstToken.value
    else 0.0
  }

  /** The time columns of a share: waiting as measured, duration and generating as reported or else measured. */
  predicate TimesOf(s: Totals, t: G.Tracker, generating: Option<real>, duration: Option<real>, itl: Option<real>,
                    tokens: int, now: real) {
    var d := Generating(t, generating, now);
    && (if t.firstToken.Some? && t.start <= t.firstToken.value
        then s.ttftCount == 1 && s.ttftSum == 1000.0 * (t.firstToken.value - t.start)
        else s.ttftCount == 0 && s.ttftSum == 0.0)
    && (if d > 0.0 && tokens > 0 then s.decodeN == 1 && s.decodeSum * d == tokens as real
        else s.decodeN == 0 && s.decodeSum == 0.0)
    && (if itl.Some? && itl.value >= 0.0 then s.itlCount == 1 && s.itlSum == itl.value
        else if d > 0.0 && tokens > 1 then s.itlCount == 1 && s.itlSum * (tokens - 1) as real == 1000.0 * d
        else s.itlCount == 0 && s.itlSum == 0.0)
    && (duration.Some? && duration.value >= 0.0 ==> s.durationSum == 1000.0 * duration.value)
    && (duration.None? && t.start <= now ==> s.durationSum == 1000.0 * (now - t.start))
  }

  /** What a finished request adds to its minute bucket: its report and its times. */
  lemma ShareOfRequest(t: G.Tracker, r: Report, now: real)
    ensures var s := Share(FiguresOf(t, r, now));
            && s.errors == (if r.success || r.cancelled then 0 else 1) && s.requests == 0
            && s.prompt == r.promptTokens && s.completion == r.outputTokens
            && s.total == (if r.totalTokens != 0 then r.totalTokens else r.promptTokens + r.outputTokens)
            && TimesOf(s, t, r.decodeSeconds, r.duration, r.itl, r.outputTokens, now)
  {
    ShareMeans(FiguresOf(t, r, now));
    hide Share;
  }

  /** The safety net counts neither an error nor a token: only the time spent. */
  lemma AbandonedIsNoError(t: G.Tracker, now: real)
    requires t.start <= now && (t.firstToken.Some? ==> t.start <= t.firstToken.value <= now)
    ensures var s := Share(FiguresOf(t, ABANDONED, now));
            && s == NOTHING.(ttftSum := s.ttftSum, ttftCount := s.ttftCount, durationSum := s.durationSum)
            && CountsOf(FiguresOf(t, ABANDONED, now)) == ZERO
            && (s.ttftCount == 1 <==> t.firstToken.Some?)
  {
  }
}
