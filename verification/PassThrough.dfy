/** The stream path that forwards every upstream byte and only scans the lines for usage. */
module PassThrough {
  import opened StreamLines
  import opened ThinkingStream
  import T = ThinkTags
  import Text

  datatype Chunk = Chunk(raw: seq<bv8>, text: string)

  function Texts(chunks: seq<Chunk>): seq<string>
    decreases |chunks|
  {
    if chunks == [] then [] else [chunks[0].text] + Texts(chunks[1..])
  }

  function RawOf(chunks: seq<Chunk>): seq<Piece>
    decreases |chunks|
  {
    if chunks == [] then [] else [Bytes(chunks[0].raw)] + RawOf(chunks[1..])
  }

  /** The lines before the first one that the scanner raises on: the exception ends the chunk's scan. */
  function BeforeRaise(c: Client, lines: seq<string>): seq<string>
    decreases |lines|
  {
    if lines == [] || Raises(c, lines[0]) then [] else [lines[0]] + BeforeRaise(c, lines[1..])
  }

  function Scanned(reader: Reader, lines: seq<string>): Reader { reader.(scanned := reader.scanned + lines) }

  function Forward(c: Client, run: Run, chunk: Chunk): Run {
    var (lines, rest) := Cut(run.buf + chunk.text);
    Run(Scanned(run.reader, BeforeRaise(c, lines)), rest, run.sent + [Bytes(chunk.raw)])
  }

  function ForwardAll(c: Client, run: Run, chunks: seq<Chunk>): Run
    decreases |chunks|
  {
    if chunks == [] then run else ForwardAll(c, Forward(c, run, chunks[0]), chunks[1..])
  }

  /** The end of the stream: an unfinished line is scanned too, and nothing is sent. */
  function CloseForward(c: Client, run: Run, last: string): Run {
    var tail := run.buf + last;
    if Text.Strip(tail) == "" || Raises(c, tail) then run.(buf := tail)
    else Run(Scanned(run.reader, [tail]), tail, run.sent)
  }

  /** The client is sent exactly the upstream chunks, whatever they hold, and the stream never fails. */
  lemma {:induction false} BytesUntouched(c: Client, run: Run, chunks: seq<Chunk>, last: string)
    ensures CloseForward(c, ForwardAll(c, run, chunks), last).sent == run.sent + RawOf(chunks)
    ensures CloseForward(c, ForwardAll(c, run, chunks), last).reader.failed == run.reader.failed
    decreases |chunks|
  {
    hide Cut, BeforeRaise, Raises;
    if chunks == [] {
      assert run.sent + [] == run.sent;
    } else {
      var next := Forward(c, run, chunks[0]);
      BytesUntouched(c, next, chunks[1..], last);
      assert run.sent + ([Bytes(chunks[0].raw)] + RawOf(chunks[1..])) == next.sent + RawOf(chunks[1..]);
    }
  }

  // ------------------------------------------------------------------ what is scanned

  /** After a line the scanner raises on, it raises on every line. */
  ghost predicate RaisesLast(c: Client, lines: seq<string>) {
    forall i, j :: 0 <= i < j < |lines| && Raises(c, lines[i]) ==> Raises(c, lines[j])
  }

  lemma {:induction false} BeforeRaiseSplit(c: Client, a: seq<string>, b: seq<string>)
    requires RaisesLast(c, a + b)
    ensures BeforeRaise(c, a + b) == BeforeRaise(c, a) + BeforeRaise(c, b)
    ensures RaisesLast(c, b)
    decreases |a|
  {
    hide Raises;
    assert forall j :: 0 <= j < |b| ==> b[j] == (a + b)[|a| + j];
    if a == [] {
      assert a + b == b;
    } else if Raises(c, a[0]) {
      assert Raises(c, (a + b)[0]);
      if b != [] {
        assert Raises(c, (a + b)[|a|]);
      }
    } else {
      assert (a + b)[1..] == a[1..] + b;
      BeforeRaiseSplit(c, a[1..], b);
    }
  }

  lemma {:induction false} BeforeRaiseStops(c: Client, a: seq<string>, b: seq<string>, i: nat)
    requires i < |a| && Raises(c, a[i])
    ensures BeforeRaise(c, a + b) == BeforeRaise(c, a)
    decreases |a|
  {
    hide Raises;
    assert (a + b)[0] == a[0];
    if !Raises(c, a[0]) {
      assert (a + b)[1..] == a[1..] + b;
      BeforeRaiseStops(c, a[1..], b, i - 1);
    }
  }

  /** What any cut of a text scans, when the lines that raise come last. */
  lemma {:induction false} ForwardScans(c: Client, run: Run, chunks: seq<Chunk>)
    requires '\n' !in run.buf
    requires RaisesLast(c, Cut(run.buf + T.Join(Texts(chunks))).0)
    ensures var (lines, rest) := Cut(run.buf + T.Join(Texts(chunks)));
            var after := ForwardAll(c, run, chunks);
            after.reader == Scanned(run.reader, BeforeRaise(c, lines)) && after.buf == rest
    decreases |chunks|
  {
    hide *;
    if chunks == [] {
      NoChunks(c, run);
    } else {
      var text, more := chunks[0].text, T.Join(Texts(chunks[1..]));
      var (l1, r1) := Cut(run.buf + text);
      var (l2, r2) := Cut(r1 + more);
      TextsUnfold(chunks);
      assert run.buf + (text + more) == (run.buf + text) + more;
      CutSplit(run.buf + text, more);
      CutGlues(run.buf + text);
      BrokenRest(l1, r1);
      BeforeRaiseSplit(c, l1, l2);
      ForwardUnfolds(c, run, chunks);
      ForwardScans(c, Forward(c, run, chunks[0]), chunks[1..]);
      ScannedTwice(run.reader, BeforeRaise(c, l1), BeforeRaise(c, l2));
    }
  }

  lemma NoChunks(c: Client, run: Run)
    requires '\n' !in run.buf
    ensures Cut(run.buf + T.Join(Texts([]))) == ([], run.buf) && ForwardAll(c, run, []) == run
    ensures Scanned(run.reader, BeforeRaise(c, [])) == run.reader
  {
    NoLine(run.buf);
    assert run.buf + T.Join(Texts([])) == run.buf;
    assert run.reader.scanned + [] == run.reader.scanned;
  }

  lemma TextsUnfold(chunks: seq<Chunk>)
    requires chunks != []
    ensures T.Join(Texts(chunks)) == chunks[0].text + T.Join(Texts(chunks[1..]))
  {
  }

  lemma ForwardUnfolds(c: Client, run: Run, chunks: seq<Chunk>)
    requires chunks != []
    ensures ForwardAll(c, run, chunks) == ForwardAll(c, Forward(c, run, chunks[0]), chunks[1..])
    ensures var (lines, rest) := Cut(run.buf + chunks[0].text);
            Forward(c, run, chunks[0])
            == Run(Scanned(run.reader, BeforeRaise(c, lines)), rest, run.sent + [Bytes(chunks[0].raw)])
  {
    hide Cut, BeforeRaise;
  }

  lemma ScannedTwice(r: Reader, a: seq<string>, b: seq<string>)
    ensures Scanned(Scanned(r, a), b) == Scanned(r, a + b)
    ensures Scanned(r, a).scanned == r.scanned + a
  {
    assert (r.scanned + a) + b == r.scanned + (a + b);
  }

  /** The reader a whole forwarded stream leaves. */
  function Scans(c: Client, chunks: seq<Chunk>, last: string): Reader {
    CloseForward(c, ForwardAll(c, OPENED, chunks), last).reader
  }

  /**
    The lines scanned for usage are the same for every cut of a text into chunks if and only if,
    among its complete lines, none that can be scanned follows one that the scanner raises on.
   */
  lemma ScansAreCutFree(c: Client, text: string, last: string)
    ensures (forall c1: seq<Chunk>, c2: seq<Chunk> {:trigger Scans(c, c1, last), Scans(c, c2, last)} ::
               T.Join(Texts(c1)) == text == T.Join(Texts(c2)) ==> Scans(c, c1, last) == Scans(c, c2, last))
            <==> RaisesLast(c, Cut(text).0)
  {
    hide *;
    if RaisesLast(c, Cut(text).0) {
      forall c1: seq<Chunk>, c2: seq<Chunk> {:trigger Scans(c, c1, last), Scans(c, c2, last)}
        | T.Join(Texts(c1)) == text == T.Join(Texts(c2))
        ensures Scans(c, c1, last) == Scans(c, c2, last)
      {
        ScansIs(c, text, c1, last);
        ScansIs(c, text, c2, last);
      }
    } else {
      var i, j := NotLast(c, Cut(text).0);
      var c1, c2 := TwoForwards(c, text, last, i, j);
      assert Scans(c, c1, last) != Scans(c, c2, last);
    }
  }

  lemma {:induction false} NotLast(c: Client, lines: seq<string>) returns (i: nat, j: nat)
    requires !RaisesLast(c, lines)
    ensures i < j < |lines| && Raises(c, lines[i]) && !Raises(c, lines[j])
  {
    hide Raises;
    i, j :| 0 <= i < j < |lines| && Raises(c, lines[i]) && !Raises(c, lines[j]);
  }

  /** What the whole stream scans, read off its text. */
  lemma ScansIs(c: Client, text: string, chunks: seq<Chunk>, last: string)
    requires T.Join(Texts(chunks)) == text && RaisesLast(c, Cut(text).0)
    ensures Scans(c, chunks, last)
            == CloseForward(c, Run(Scanned(START, BeforeRaise(c, Cut(text).0)), Cut(text).1, []), last).reader
  {
    hide Cut, BeforeRaise, RaisesLast, Raises, Text.Strip, ForwardAll;
    assert OPENED.buf + text == text;
    ForwardScans(c, OPENED, chunks);
  }

  lemma ForwardedOnce(c: Client, run: Run, chunk: Chunk)
    ensures ForwardAll(c, run, [chunk]) == Forward(c, run, chunk)
    ensures T.Join(Texts([chunk])) == chunk.text
  {
    hide Forward;
    assert [chunk][1..] == [];
    assert Texts([chunk]) == [chunk.text] + Texts([]) == [chunk.text];
    assert [chunk.text][1..] == [];
  }

  lemma ForwardedTwice(c: Client, run: Run, a: Chunk, b: Chunk)
    ensures ForwardAll(c, run, [a, b]) == Forward(c, Forward(c, run, a), b)
    ensures T.Join(Texts([a, b])) == a.text + b.text
  {
    hide Forward;
    assert [a, b][1..] == [b];
    ForwardedOnce(c, Forward(c, run, a), b);
    TextsUnfold([a, b]);
  }

  /** The end of the stream scans no more than the rest asks for. */
  lemma CloseScans(c: Client, run: Run, last: string)
    ensures CloseForward(c, run, last).reader.scanned
            == run.reader.scanned
               + if Text.Strip(run.buf + last) == "" || Raises(c, run.buf + last) then [] else [run.buf + last]
  {
    hide Text.Strip, Raises;
    assert run.reader.scanned + [] == run.reader.scanned;
  }

  lemma ForwardIs(c: Client, run: Run, text: string, lines: seq<string>, rest: string)
    requires run.buf == "" && Cut(text) == (lines, rest)
    ensures var after := Forward(c, run, Chunk([], text));
            after.buf == rest && after.reader.scanned == run.reader.scanned + BeforeRaise(c, lines)
  {
    hide Cut, BeforeRaise;
    assert "" + text == text;
  }

  /** A line after a raising one is scanned when it comes in a chunk of its own, and lost when it does not. */
  lemma {:induction false} TwoForwards(c: Client, text: string, last: string, i: nat, j: nat)
    returns (c1: seq<Chunk>, c2: seq<Chunk>)
    requires i < j < |Cut(text).0| && Raises(c, Cut(text).0[i]) && !Raises(c, Cut(text).0[j])
    ensures T.Join(Texts(c1)) == text == T.Join(Texts(c2))
    ensures |Scans(c, c1, last).scanned| < |Scans(c, c2, last).scanned|
  {
    hide *;
    var (lines, rest) := Cut(text);
    CutAfter(text, j);
    var head, tail := Glue(lines[..j], ""), Glue(lines[j..], rest);
    var whole, h, t := Chunk([], text), Chunk([], head), Chunk([], tail);
    c1, c2 := [whole], [h, t];
    ForwardedOnce(c, OPENED, whole);
    ForwardedTwice(c, OPENED, h, t);
    OpenedIsEmpty();
    ForwardIs(c, OPENED, text, lines, rest);
    ForwardIs(c, OPENED, head, lines[..j], "");
    var mid := Forward(c, OPENED, h);
    ForwardIs(c, mid, tail, lines[j..], rest);
    assert lines == lines[..j] + lines[j..] && lines[..j][i] == lines[i] && lines[j..][0] == lines[j];
    BeforeRaiseStops(c, lines[..j], lines[j..], i);
    FirstScanned(c, lines[j..]);
    CloseScans(c, Forward(c, OPENED, whole), last);
    CloseScans(c, Forward(c, mid, t), last);
    ScansUnfolds(c, c1, last);
    ScansUnfolds(c, c2, last);
  }

  lemma ScansUnfolds(c: Client, chunks: seq<Chunk>, last: string)
    ensures Scans(c, chunks, last) == CloseForward(c, ForwardAll(c, OPENED, chunks), last).reader
  {
    hide CloseForward, ForwardAll;
  }

  lemma OpenedIsEmpty()
    ensures OPENED.buf == "" && OPENED.reader.scanned == []
  {
  }

  lemma FirstScanned(c: Client, lines: seq<string>)
    requires lines != [] && !Raises(c, lines[0])
    ensures |BeforeRaise(c, lines)| > 0
  {
    hide Raises;
  }
}
