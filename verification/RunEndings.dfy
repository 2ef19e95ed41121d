/** How a disturbance, a line that cannot be read, or the end of the stream ends a run of the wrapper. */
module RunEndings {
  import opened ThinkingStream
  import opened PassThrough
  import opened StreamWrapper

  /** The run once the first `j` chunks are taken in, whatever disturbs it afterwards. */
  function Taken(c: Client, normalise: bool, chunks: seq<Chunk>, j: nat): Run
    requires j <= |chunks|
  {
    if j == 0 then OPENED else TakeIn(c, normalise, Taken(c, normalise, chunks, j - 1), chunks[j - 1])
  }

  /** The fault strikes while chunk `k` is awaited, or while what it made the wrapper send is on its way. */
  ghost predicate Strikes(c: Client, normalise: bool, chunks: seq<Chunk>, fault: Fault, k: nat)
    requires k < |chunks|
  {
    || fault == CancelAwait(k) || fault == UpstreamError(k)
    || (fault == CancelSend(k) && Taken(c, normalise, chunks, k + 1).sent != Taken(c, normalise, chunks, k).sent)
  }

  /** The run gets through the first `i` chunks. */
  ghost predicate Reaches(c: Client, normalise: bool, chunks: seq<Chunk>, fault: Fault, i: nat) {
    && i <= |chunks| && !Taken(c, normalise, chunks, i).reader.failed
    && forall k :: 0 <= k < i ==> !Strikes(c, normalise, chunks, fault, k)
  }

  lemma FailureStays(c: Client, normalise: bool, run: Run, chunk: Chunk)
    requires run.reader.failed
    ensures TakeIn(c, normalise, run, chunk).reader.failed
  {
    hide StreamLines.Cut, ReadLines, BeforeRaise;
  }

  lemma TakenUnfolds(c: Client, normalise: bool, chunks: seq<Chunk>, j: nat)
    requires j < |chunks|
    ensures Taken(c, normalise, chunks, 0) == OPENED
    ensures Taken(c, normalise, chunks, j + 1) == TakeIn(c, normalise, Taken(c, normalise, chunks, j), chunks[j])
  {
    hide TakeIn;
  }

  lemma {:induction false} RideFrom(c: Client, normalise: bool, chunks: seq<Chunk>, last: string, fault: Fault, i: nat)
    requires Reaches(c, normalise, chunks, fault, i)
    ensures Ride(c, normalise, OPENED, chunks, 0, last, fault)
            == Ride(c, normalise, Taken(c, normalise, chunks, i), chunks, i, last, fault)
    ensures Arrived(c, normalise, OPENED, chunks, 0, last, fault)
            == Arrived(c, normalise, Taken(c, normalise, chunks, i), chunks, i, last, fault)
    decreases i
  {
    hide TakeIn, TakeEnd;
    if i > 0 {
      var before := Taken(c, normalise, chunks, i - 1);
      if before.reader.failed {
        FailureStays(c, normalise, before, chunks[i - 1]);
      }
      TakenUnfolds(c, normalise, chunks, i - 1);
      assert !Strikes(c, normalise, chunks, fault, i - 1);
      RideFrom(c, normalise, chunks, last, fault, i - 1);
    }
  }

  /**
    A run that gets through `i` chunks is cancelled, or fails, with just these taken in if it is
    disturbed while it waits for the next or for the end. It fails with the next one taken in if that
    cannot be read, and is cancelled then if it is disturbed while what the next one made it send is
    on its way. If all chunks are through it fails, is cancelled or ends normally as the last line has it.
   */
  lemma HowRunsEnd(c: Client, normalise: bool, chunks: seq<Chunk>, last: string, fault: Fault, i: nat)
    requires Reaches(c, normalise, chunks, fault, i)
    ensures var (ended, run) := Ride(c, normalise, OPENED, chunks, 0, last, fault);
            var arrived, here := Arrived(c, normalise, OPENED, chunks, 0, last, fault), Taken(c, normalise, chunks, i);
            if fault == CancelAwait(i) then ended == Cancelled && run == here && arrived == i
            else if fault == UpstreamError(i) then ended == Failed && run == here && arrived == i
            else if i < |chunks| then
              var next := Taken(c, normalise, chunks, i + 1);
              && (next.reader.failed ==> ended == Failed && run == next && arrived == i + 1)
              && (!next.reader.failed && fault == CancelSend(i) && next.sent != here.sent ==>
                    ended == Cancelled && run == next && arrived == i + 1)
            else
              var end := TakeEnd(c, normalise, here, last);
              && run == end && arrived == |chunks|
              && (ended == Failed <==> end.reader.failed)
              && (ended == Cancelled <==> !end.reader.failed && fault == CancelTail && end.sent != here.sent)
  {
    RideFrom(c, normalise, chunks, last, fault, i);
    hide TakeIn, TakeEnd, Reaches;
    if i < |chunks| {
      TakenUnfolds(c, normalise, chunks, i);
    }
    hide Taken;
  }
}
