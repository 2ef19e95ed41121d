/** The streaming parser that separates `<think>…</think>` text from ordinary text. */
module ThinkTags {
  import opened Text

  const OPEN_TAG := "<think>"
  const CLOSE_TAG := "</think>"

  /** The tag the parser waits for in each mode. */
  function Tag(thinking: bool): (tag: string)
    ensures |tag| > 1
  {
    if thinking then CLOSE_TAG else OPEN_TAG
  }

  /** Parser memory: the mode, and the text withheld because it may begin the awaited tag. */
  datatype State = State(thinking: bool, buffer: string)

  /** What one call yields. */
  datatype Output = Output(thinking: string, standard: string)

  const INITIAL := State(false, "")

  function Append(a: Output, b: Output): Output {
    Output(a.thinking + b.thinking, a.standard + b.standard)
  }

  lemma AppendLaws(a: Output, b: Output, c: Output)
    ensures Append(Append(a, b), c) == Append(a, Append(b, c))
    ensures Append(a, Output("", "")) == a == Append(Output("", ""), a)
  {
    assert (a.thinking + b.thinking) + c.thinking == a.thinking + (b.thinking + c.thinking);
    assert (a.standard + b.standard) + c.standard == a.standard + (b.standard + c.standard);
    assert a.thinking + "" == a.thinking == "" + a.thinking;
    assert a.standard + "" == a.standard == "" + a.standard;
  }

  /** Plain text seen in the given mode. */
  function Spoken(thinking: bool, text: string): Output {
    if thinking then Output(text, "") else Output("", text)
  }

  lemma SpokenTwice(thinking: bool, s: string, t: string)
    ensures Append(Spoken(thinking, s), Spoken(thinking, t)) == Spoken(thinking, s + t)
  {
    assert "" + "" == "";
  }

  function Held(thinking: bool, s: string): (k: nat)
    ensures k <= |s|
  {
    LongestHeld(s, Tag(thinking), |Tag(thinking)| - 1)
  }

  /** The whole of `s` read from a clean start in the given mode. */
  function Scan(thinking: bool, s: string): (r: (State, Output))
    decreases |s|
  {
    var tag := Tag(thinking);
    var at := Find(s, tag, 0);
    if at != -1 then
      var (st, out) := Scan(!thinking, s[at + |tag|..]);
      (st, Append(Spoken(thinking, s[..at]), out))
    else
      var k := |s| - Held(thinking, s);
      (State(thinking, s[k..]), Spoken(thinking, s[..k]))
  }

  /** One round of the scan that meets the awaited tag. */
  lemma ScanMeetsTag(thinking: bool, s: string, at: int)
    requires Find(s, Tag(thinking), 0) == at != -1
    ensures var r := Scan(!thinking, s[at + |Tag(thinking)|..]);
            Scan(thinking, s) == (r.0, Append(Spoken(thinking, s[..at]), r.1))
  {
    hide Tag, Find, Append, Spoken;
  }

  /** The round of the scan that does not. */
  lemma ScanRunsOut(thinking: bool, s: string, k: nat)
    requires Find(s, Tag(thinking), 0) == -1 && k == |s| - Held(thinking, s)
    ensures Scan(thinking, s) == (State(thinking, s[k..]), Spoken(thinking, s[..k]))
  {
    hide Tag, Find, LongestHeld, Spoken;
  }

  /** One call of `feed`. */
  function FeedText(st: State, text: string): (State, Output) {
    if text == "" then (st, Output("", "")) else Scan(st.thinking, st.buffer + text)
  }

  /** A sequence of calls of `feed`, with the outputs joined. */
  function FeedAll(st: State, chunks: seq<string>): (State, Output)
    decreases |chunks|
  {
    if |chunks| == 0 then (st, Output("", ""))
    else
      var (st1, out1) := FeedText(st, chunks[0]);
      var (st2, out2) := FeedAll(st1, chunks[1..]);
      (st2, Append(out1, out2))
  }

  /** The withheld text is a proper prefix of the awaited tag. */
  predicate Withholding(st: State) {
    |st.buffer| < |Tag(st.thinking)| && st.buffer == Tag(st.thinking)[..|st.buffer|]
  }

  lemma {:induction false} ScanWithholds(thinking: bool, s: string)
    ensures Withholding(Scan(thinking, s).0)
    decreases |s|
  {
    hide Tag, Find, LongestHeld, Scan;
    var at := Find(s, Tag(thinking), 0);
    if at == -1 {
      ScanRunsOut(thinking, s, |s| - Held(thinking, s));
    } else {
      ScanMeetsTag(thinking, s, at);
      ScanWithholds(!thinking, s[at + |Tag(thinking)|..]);
    }
  }

  /** Every reachable state withholds only a proper prefix of the awaited tag. */
  lemma {:induction false} ReachableWithholds(st: State, chunks: seq<string>)
    requires Withholding(st)
    ensures Withholding(FeedAll(st, chunks).0)
    decreases |chunks|
  {
    hide Tag;
    if chunks != [] {
      ScanWithholds(st.thinking, st.buffer + chunks[0]);
      ReachableWithholds(FeedText(st, chunks[0]).0, chunks[1..]);
    }
  }

  /** A withheld prefix on its own is withheld again, whole. */
  lemma ScanOfHeld(st: State)
    requires Withholding(st)
    ensures Scan(st.thinking, st.buffer) == (st, Output("", ""))
  {
    hide Tag, Find, LongestHeld, Scan;
    var tag := Tag(st.thinking);
    assert EndsWithPrefix(st.buffer, tag, |st.buffer|);
    assert forall j :: |st.buffer| < j ==> !EndsWithPrefix(st.buffer, tag, j);
    assert !OccursAt(st.buffer, tag, Find(st.buffer, tag, 0));
    ScanRunsOut(st.thinking, st.buffer, 0);
  }

  /** What is held back of `a` is long enough: the tag is found, and held, as in the rest alone. */
  lemma HeldIsEnough(thinking: bool, a: string, b: string)
    requires Find(a, Tag(thinking), 0) == -1
    ensures var k := |a| - Held(thinking, a);
            var at := Find(a[k..] + b, Tag(thinking), 0);
            && Find(a + b, Tag(thinking), 0) == (if at == -1 then -1 else k + at)
            && Held(thinking, a + b) == Held(thinking, a[k..] + b)
  {
    hide Tag, Find, LongestHeld;
    var tag := Tag(thinking);
    var k := |a| - Held(thinking, a);
    FindAfterRelease(a, b, tag, k);
    HeldAfterRelease(a, b, tag, k, |tag| - 1);
  }

  lemma CutAfterRelease(a: string, b: string, k: nat, m: nat)
    requires k <= |a| && k + m <= |a| + |b|
    ensures (a + b)[..k + m] == a[..k] + (a[k..] + b)[..m]
    ensures (a + b)[k + m..] == (a[k..] + b)[m..]
  {
    assert a + b == a[..k] + (a[k..] + b);
  }

  lemma ReleaseThenTag(thinking: bool, a: string, b: string, k: nat, at: nat)
    requires k <= |a| && Find(a[k..] + b, Tag(thinking), 0) == at && Find(a + b, Tag(thinking), 0) == k + at
    ensures var (st, out) := Scan(thinking, a[k..] + b);
            Scan(thinking, a + b) == (st, Append(Spoken(thinking, a[..k]), out))
  {
    hide *;
    var tag, rest := Tag(thinking), a[k..] + b;
    CutAfterRelease(a, b, k, at);
    CutAfterRelease(a, b, k, at + |tag|);
    ScanMeetsTag(thinking, a + b, k + at);
    ScanMeetsTag(thinking, rest, at);
    SpokenTwice(thinking, a[..k], rest[..at]);
    AppendLaws(Spoken(thinking, a[..k]), Spoken(thinking, rest[..at]), Scan(!thinking, rest[at + |tag|..]).1);
  }

  lemma ReleaseThenEnd(thinking: bool, a: string, b: string, k: nat)
    requires k <= |a| && Find(a[k..] + b, Tag(thinking), 0) == -1 && Find(a + b, Tag(thinking), 0) == -1
    requires Held(thinking, a + b) == Held(thinking, a[k..] + b)
    ensures var (st, out) := Scan(thinking, a[k..] + b);
            Scan(thinking, a + b) == (st, Append(Spoken(thinking, a[..k]), out))
  {
    hide *;
    var rest := a[k..] + b;
    var m := |rest| - Held(thinking, rest);
    CutAfterRelease(a, b, k, m);
    ScanRunsOut(thinking, a + b, k + m);
    ScanRunsOut(thinking, rest, m);
    SpokenTwice(thinking, a[..k], rest[..m]);
  }

  /** Text that cannot begin the awaited tag may be released before the rest arrives. */
  lemma ReleasePrefix(thinking: bool, a: string, b: string)
    requires Find(a, Tag(thinking), 0) == -1
    ensures var k := |a| - Held(thinking, a);
            var (st, out) := Scan(thinking, a[k..] + b);
            Scan(thinking, a + b) == (st, Append(Spoken(thinking, a[..k]), out))
  {
    hide *;
    HeldIsEnough(thinking, a, b);
    var k := |a| - Held(thinking, a);
    var at := Find(a[k..] + b, Tag(thinking), 0);
    if at != -1 {
      ReleaseThenTag(thinking, a, b, k, at);
    } else {
      ReleaseThenEnd(thinking, a, b, k);
    }
  }

  /** Reading `a + b` in one go is reading `a` and then `b` after what `a` withheld. */
  lemma {:induction false} ScanSplit(thinking: bool, a: string, b: string)
    ensures var (st1, out1) := Scan(thinking, a);
            var (st2, out2) := Scan(st1.thinking, st1.buffer + b);
            Scan(thinking, a + b) == (st2, Append(out1, out2))
    decreases |a|
  {
    hide Tag, Find, LongestHeld, Scan, Append, Spoken;
    var tag := Tag(thinking);
    var at := Find(a, tag, 0);
    if at == -1 {
      ScanRunsOut(thinking, a, |a| - Held(thinking, a));
      ReleasePrefix(thinking, a, b);
    } else {
      FindExtends(a, b, tag);
      ScanMeetsTag(thinking, a, at);
      ScanMeetsTag(thinking, a + b, at);
      assert (a + b)[..at] == a[..at];
      assert (a + b)[at + |tag|..] == a[at + |tag|..] + b;
      ScanSplit(!thinking, a[at + |tag|..], b);
      var (st1, out1) := Scan(!thinking, a[at + |tag|..]);
      AppendLaws(Spoken(thinking, a[..at]), out1, Scan(st1.thinking, st1.buffer + b).1);
    }
  }

  /** Split invariance: feeding `a` and then `b` is feeding `a + b`. */
  lemma FeedSplit(st: State, a: string, b: string)
    requires Withholding(st)
    ensures var (st1, out1) := FeedText(st, a);
            var (st2, out2) := FeedText(st1, b);
            FeedText(st, a + b) == (st2, Append(out1, out2))
  {
    hide Tag, Scan;
    if a == "" {
      assert a + b == b;
      AppendLaws(FeedText(st, b).1, Output("", ""), Output("", ""));
    } else if b == "" {
      assert a + b == a;
      AppendLaws(FeedText(st, a).1, Output("", ""), Output("", ""));
    } else {
      ScanSplit(st.thinking, st.buffer + a, b);
      assert (st.buffer + a) + b == st.buffer + (a + b);
    }
  }

  function Join(chunks: seq<string>): string {
    if chunks == [] then "" else chunks[0] + Join(chunks[1..])
  }

  /** Any chunking of a text leaves the parser in the same state with the same joined output. */
  lemma {:induction false} ChunkingDoesNotMatter(st: State, chunks: seq<string>)
    requires Withholding(st)
    ensures FeedAll(st, chunks) == FeedText(st, Join(chunks))
    decreases |chunks|
  {
    hide Tag;
    if chunks != [] {
      ScanWithholds(st.thinking, st.buffer + chunks[0]);
      ChunkingDoesNotMatter(FeedText(st, chunks[0]).0, chunks[1..]);
      FeedSplit(st, chunks[0], Join(chunks[1..]));
    }
  }

  // ------------------------------------------------------------------ what the outputs mean

  /** Texts with the awaited tags put back between them, the first text being in the given mode. */
  function Weave(thinking: bool, texts: seq<string>): string
    decreases |texts|
  {
    if texts == [] then ""
    else if |texts| == 1 then texts[0]
    else texts[0] + Tag(thinking) + Weave(!thinking, texts[1..])
  }

  /** The texts spoken in mode `wanted`, when the first text is in mode `thinking`. */
  function Select(wanted: bool, thinking: bool, texts: seq<string>): string
    decreases |texts|
  {
    if texts == [] then ""
    else (if wanted == thinking then texts[0] else "") + Select(wanted, !thinking, texts[1..])
  }

  /**
    `texts` is the division of `s` at each leftmost awaited tag: no text meets its own tag before
    its end, and the last one, with the withheld `rest`, does not contain the tag it awaits.
   */
  ghost predicate Divides(thinking: bool, s: string, texts: seq<string>, rest: string)
    decreases |texts|
  {
    |texts| > 0 &&
    if |texts| == 1 then
      s == texts[0] + rest && !Contains(s, Tag(thinking))
    else
      var n := |texts[0]| + |Tag(thinking)|;
      n <= |s| && s[..n] == texts[0] + Tag(thinking)
      && (forall k :: 0 <= k < |texts[0]| ==> !OccursAt(s, Tag(thinking), k))
      && Divides(!thinking, s[n..], texts[1..], rest)
  }

  lemma OccursSplits(s: string, tag: string, at: nat)
    requires OccursAt(s, tag, at)
    ensures at + |tag| <= |s|
    ensures s[..at + |tag|] == s[..at] + tag
    ensures s == s[..at] + tag + s[at + |tag|..]
  {
    assert s[..at + |tag|] == s[..at] + s[at..at + |tag|];
  }

  /**
    Conservation: the input is the division's texts with the consumed tags between them and the
    withheld buffer after them; the two outputs are exactly the texts of the two modes.
   */
  lemma {:induction false} NothingLost(thinking: bool, s: string) returns (texts: seq<string>)
    ensures var (st, out) := Scan(thinking, s);
            && Divides(thinking, s, texts, st.buffer)
            && s == Weave(thinking, texts) + st.buffer
            && out.thinking == Select(true, thinking, texts)
            && out.standard == Select(false, thinking, texts)
            && st.thinking == (if |texts| % 2 == 1 then thinking else !thinking)
    decreases |s|
  {
    hide *;
    FindMeansContains(s, Tag(thinking));
    var tag := Tag(thinking);
    var at := Find(s, tag, 0);
    if at == -1 {
      var k := |s| - Held(thinking, s);
      ScanRunsOut(thinking, s, k);
      texts := [s[..k]];
      assert s == s[..k] + s[k..];
      OneText(thinking, s, s[..k], s[k..]);
    } else {
      var tail := s[at + |tag|..];
      var more := NothingLost(!thinking, tail);
      texts := [s[..at]] + more;
      ScanMeetsTag(thinking, s, at);
      OccursSplits(s, tag, at);
      var rest := Scan(!thinking, tail).1;
      AddText(thinking, s, s[..at], tail, more, Scan(!thinking, tail).0.buffer);
      SpokeFirst(thinking, s[..at], rest);
    }
  }

  /** A text that its tag does not end is a division of its own. */
  lemma OneText(thinking: bool, s: string, text: string, rest: string)
    requires s == text + rest && !Contains(s, Tag(thinking))
    ensures Divides(thinking, s, [text], rest) && s == Weave(thinking, [text]) + rest
    ensures Spoken(thinking, text) == Output(Select(true, thinking, [text]), Select(false, thinking, [text]))
  {
    hide Tag, Contains;
    assert [text][1..] == [] && text + "" == text;
  }

  lemma SpokeFirst(thinking: bool, text: string, later: Output)
    ensures Append(Spoken(thinking, text), later)
            == Output((if thinking then text else "") + later.thinking,
                      (if thinking then "" else text) + later.standard)
  {
  }

  /** Put a text and its tag in front of a division. */
  lemma AddText(thinking: bool, s: string, text: string, tail: string, more: seq<string>, rest: string)
    requires Divides(!thinking, tail, more, rest)
    requires s == text + Tag(thinking) + tail && s[..|text| + |Tag(thinking)|] == text + Tag(thinking)
    requires forall k :: 0 <= k < |text| ==> !OccursAt(s, Tag(thinking), k)
    requires tail == Weave(!thinking, more) + rest
    ensures Divides(thinking, s, [text] + more, rest)
    ensures s == Weave(thinking, [text] + more) + rest
    ensures forall wanted :: Select(wanted, thinking, [text] + more)
                             == (if wanted == thinking then text else "") + Select(wanted, !thinking, more)
  {
    hide Tag, OccursAt;
    var texts := [text] + more;
    assert texts[0] == text && texts[1..] == more;
    assert s[|text| + |Tag(thinking)|..] == tail;
    assert text + Tag(thinking) + tail == text + Tag(thinking) + Weave(!thinking, more) + rest;
  }

  /** The division of a text is unique, so `NothingLost` pins both outputs down. */
  lemma {:induction false} DivisionUnique(thinking: bool, s: string,
                                          t1: seq<string>, r1: string, t2: seq<string>, r2: string)
    requires Divides(thinking, s, t1, r1) && Divides(thinking, s, t2, r2)
    requires |r1| == |r2|
    ensures t1 == t2 && r1 == r2
    decreases |t1|
  {
    hide Tag;
    var tag := Tag(thinking);
    if |t1| > 1 {
      var n := |t1[0]|;
      assert s[n..n + |tag|] == s[..n + |tag|][n..] == tag;
      assert OccursAt(s, tag, n);
    }
    if |t2| > 1 {
      var n := |t2[0]|;
      assert s[n..n + |tag|] == s[..n + |tag|][n..] == tag;
      assert OccursAt(s, tag, n);
    }
    if |t1| > 1 && |t2| > 1 {
      assert |t1[0]| == |t2[0]|;
      assert t1[0] == s[..|t1[0]| + |tag|][..|t1[0]|];
      assert t2[0] == s[..|t2[0]| + |tag|][..|t2[0]|];
      DivisionUnique(!thinking, s[|t1[0]| + |tag|..], t1[1..], r1, t2[1..], r2);
      assert t1 == [t1[0]] + t1[1..] && t2 == [t2[0]] + t2[1..];
    } else {
      assert t1[0] + r1 == t2[0] + r2;
      assert t1[0] == (t1[0] + r1)[..|t1[0]|] == t2[0];
      assert r1 == (t1[0] + r1)[|t1[0]|..] == r2;
      assert t1 == [t1[0]] && t2 == [t2[0]];
    }
  }

  /**
    The flush `feed("")` at the end of a stream releases nothing: the final outputs cover the
    whole stream if and only if nothing is withheld at that point.
   */
  lemma FlushIsLossless(chunks: seq<string>)
    ensures var (st, out) := FeedAll(INITIAL, chunks);
            && FeedText(st, "") == (st, Output("", ""))
            && ((exists texts :: Divides(false, Join(chunks), texts, "")
                                 && out == Output(Select(true, false, texts), Select(false, false, texts)))
                <==> st.buffer == "")
  {
    hide Tag;
    ChunkingDoesNotMatter(INITIAL, chunks);
    var s := Join(chunks);
    var (st, out) := FeedAll(INITIAL, chunks);
    assert INITIAL.buffer + s == s;
    ScanOfHeld(INITIAL);
    assert (st, out) == Scan(false, s);
    var texts := NothingLost(false, s);
    if texts' :| Divides(false, s, texts', "") &&
                 out == Output(Select(true, false, texts'), Select(false, false, texts')) {
      WeaveOfDivision(false, s, texts', "");
      SameTags(false, s, texts, st.buffer, texts', "");
      WeaveLength(false, texts);
      WeaveLength(false, texts');
    }
  }

  lemma {:induction false} WeaveOfDivision(thinking: bool, s: string, texts: seq<string>, rest: string)
    requires Divides(thinking, s, texts, rest)
    ensures s == Weave(thinking, texts) + rest
    decreases |texts|
  {
    hide Tag;
    if |texts| > 1 {
      var n := |texts[0]| + |Tag(thinking)|;
      WeaveOfDivision(!thinking, s[n..], texts[1..], rest);
      assert s == s[..n] + s[n..];
    }
  }

  /** Two divisions of a text cut it at the same tags, whatever they withhold. */
  lemma {:induction false} SameTags(thinking: bool, s: string,
                                    t1: seq<string>, r1: string, t2: seq<string>, r2: string)
    requires Divides(thinking, s, t1, r1) && Divides(thinking, s, t2, r2)
    ensures |t1| == |t2|
    decreases |t1|
  {
    hide Tag;
    var tag := Tag(thinking);
    if |t1| > 1 {
      assert s[|t1[0]|..|t1[0]| + |tag|] == s[..|t1[0]| + |tag|][|t1[0]|..] == tag;
      assert OccursAt(s, tag, |t1[0]|);
    }
    if |t2| > 1 {
      assert s[|t2[0]|..|t2[0]| + |tag|] == s[..|t2[0]| + |tag|][|t2[0]|..] == tag;
      assert OccursAt(s, tag, |t2[0]|);
    }
    if |t1| > 1 && |t2| > 1 {
      SameTags(!thinking, s[|t1[0]| + |tag|..], t1[1..], r1, t2[1..], r2);
    }
  }

  function TagLengths(thinking: bool, n: nat): nat
    decreases n
  {
    if n <= 1 then 0 else |Tag(thinking)| + TagLengths(!thinking, n - 1)
  }

  lemma {:induction false} WeaveLength(thinking: bool, texts: seq<string>)
    ensures |Weave(thinking, texts)| == |Select(true, thinking, texts)| + |Select(false, thinking, texts)|
                                        + TagLengths(thinking, |texts|)
    decreases |texts|
  {
    hide Tag;
    if texts != [] {
      WeaveLength(!thinking, texts[1..]);
    }
  }

  /** What stands in mode `wanted` of a text that begins in mode `thinking`: tags cut it, nothing is withheld. */
  function Standing(wanted: bool, thinking: bool, s: string): string
    decreases |s|
  {
    var at := Find(s, Tag(thinking), 0);
    if at == -1 then if wanted == thinking then s else ""
    else (if wanted == thinking then s[..at] else "") + Standing(wanted, !thinking, s[at + |Tag(thinking)|..])
  }

  /** What the parser releases falls short of what stands in the text by just what it withholds. */
  lemma {:induction false} ReleasedIsStanding(thinking: bool, s: string)
    ensures var (st, out) := Scan(thinking, s);
            && out.thinking + (if st.thinking then st.buffer else "") == Standing(true, thinking, s)
            && out.standard + (if st.thinking then "" else st.buffer) == Standing(false, thinking, s)
    decreases |s|
  {
    hide Tag, Find, LongestHeld, Scan;
    var at := Find(s, Tag(thinking), 0);
    if at == -1 {
      var k := |s| - Held(thinking, s);
      ScanRunsOut(thinking, s, k);
      assert s == s[..k] + s[k..];
    } else {
      var tail := s[at + |Tag(thinking)|..];
      ScanMeetsTag(thinking, s, at);
      ReleasedIsStanding(!thinking, tail);
      var (st, out) := Scan(!thinking, tail);
      Regroup(if thinking then s[..at] else "", out.thinking, if st.thinking then st.buffer else "");
      Regroup(if thinking then "" else s[..at], out.standard, if st.thinking then "" else st.buffer);
    }
  }

  lemma Regroup(a: string, b: string, c: string)
    ensures (a + b) + c == a + (b + c)
  {
  }

  // ------------------------------------------------------------------ the parser object

  const POTENTIAL_STARTS := ["<", "<t", "<th", "<thi", "<thin", "<think"]
  const POTENTIAL_ENDS := ["<", "</", "</t", "</th", "</thi", "</thin", "</think"]

  function Potential(thinking: bool): (p: seq<string>)
    ensures |p| == |Tag(thinking)| - 1
    ensures forall k :: 0 <= k < |p| ==> p[k] == Tag(thinking)[..k + 1]
  {
    if thinking then POTENTIAL_ENDS else POTENTIAL_STARTS
  }

  class ThinkTagParser {
    var inThinking: bool
    var buffer: string

    constructor ()
      ensures View() == INITIAL
    {
      inThinking := false;
      buffer := "";
    }

    function View(): State
      reads this
    {
      State(inThinking, buffer)
    }

    /** The longest listed partial tag that ends `remaining`, or the empty string. */
    method MatchPartial(remaining: string) returns (p: string)
      ensures p == remaining[|remaining| - Held(inThinking, remaining)..]
      ensures |p| == Held(inThinking, remaining)
    {
      hide Tag, LongestHeld;
      var potential := Potential(inThinking);
      var tag := Tag(inThinking);
      var k := |potential|;
      while k > 0
        invariant 0 <= k <= |potential|
        invariant LongestHeld(remaining, tag, |potential|) == LongestHeld(remaining, tag, k)
      {
        k := k - 1;
        p := potential[k];
        if |p| <= |remaining| && remaining[|remaining| - |p|..] == p {
          assert EndsWithPrefix(remaining, tag, k + 1);
          return;
        }
      }
      p := "";
    }

    /** Feed a chunk; yields the thinking text and the standard text it releases. */
    method Feed(text: string) returns (thinking: string, standard: string)
      modifies this
      ensures (View(), Output(thinking, standard)) == FeedText(old(View()), text)
    {
      hide Scan, Find, LongestHeld, Tag, Spoken;
      thinking, standard := "", "";
      if text == "" {
        return;
      }
      var combined := buffer + text;
      buffer := "";
      var i := 0;
      var n := |combined|;
      ghost var mode := inThinking;
      assert combined[0..] == combined;
      AppendLaws(Scan(mode, combined).1, Output("", ""), Output("", ""));
      while i < n
        invariant 0 <= i <= n && buffer == ""
        invariant var r := Scan(inThinking, combined[i..]);
                  Scan(mode, combined) == (r.0, Append(Output(thinking, standard), r.1))
        decreases n - i
      {
        ghost var out := Output(thinking, standard);
        ghost var suffix := combined[i..];
        var tag := Tag(inThinking);
        FindInSuffix(combined, tag, i);
        var idx := Find(combined, tag, i);
        if idx != -1 {
          var piece := combined[i..idx];
          if inThinking {
            thinking := thinking + piece;
          } else {
            standard := standard + piece;
          }
          ScanMeetsTag(inThinking, suffix, idx - i);
          assert suffix[..idx - i] == piece;
          assert suffix[idx - i + |tag|..] == combined[idx + |tag|..];
          Spoke(inThinking, out, piece, Output(thinking, standard), Scan(!inThinking, combined[idx + |tag|..]).1);
          inThinking := !inThinking;
          i := idx + |tag|;
        } else {
          var remaining := combined[i..];
          var p := MatchPartial(remaining);
          buffer := p;
          var piece := remaining[..|remaining| - |p|];
          if inThinking {
            thinking := thinking + piece;
          } else {
            standard := standard + piece;
          }
          ScanRunsOut(inThinking, remaining, |remaining| - |p|);
          Spoke(inThinking, out, piece, Output(thinking, standard), Output("", ""));
          AppendLaws(Spoken(inThinking, piece), out, out);
          AppendLaws(Output(thinking, standard), out, out);
          return;
        }
      }
      assert combined[i..] == "";
      ScanOfHeld(State(inThinking, ""));
      AppendLaws(Output(thinking, standard), Output("", ""), Output("", ""));
    }
  }

  /** Appending a text to the output of its mode. */
  lemma Spoke(thinking: bool, before: Output, piece: string, after: Output, later: Output)
    requires after == if thinking then before.(thinking := before.thinking + piece)
                      else before.(standard := before.standard + piece)
    ensures Append(before, Append(Spoken(thinking, piece), later)) == Append(after, later)
  {
    AppendLaws(before, Spoken(thinking, piece), later);
    AppendLaws(before, Output("", ""), later);
  }
}
