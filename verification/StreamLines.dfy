/** Lines of a text that arrives in pieces. */
module StreamLines {

  /** How many characters stand before the first newline. */
  function LineLength(s: string): (n: nat)
    ensures n <= |s| && '\n' !in s[..n] && (n < |s| ==> s[n] == '\n')
  {
    if s == "" || s[0] == '\n' then 0 else 1 + LineLength(s[1..])
  }

  /** `s.split('\n')`, with the last piece, which no newline ends, set apart. */
  function Cut(s: string): (seq<string>, string) {
    var n := LineLength(s);
    if n == |s| then ([], s)
    else
      var (lines, rest) := Cut(s[n + 1..]);
      ([s[..n]] + lines, rest)
  }

  /** The text of complete lines and an unfinished one. */
  function Glue(lines: seq<string>, rest: string): string {
    if lines == [] then rest else lines[0] + ['\n'] + Glue(lines[1..], rest)
  }

  predicate Broken(lines: seq<string>, rest: string) {
    '\n' !in rest && forall i :: 0 <= i < |lines| ==> '\n' !in lines[i]
  }

  lemma {:induction false} LineLengthIs(line: string, more: string)
    requires '\n' !in line
    ensures LineLength(line) == |line| && LineLength(line + ['\n'] + more) == |line|
  {
    if line != "" {
      var s := line + ['\n'] + more;
      LineLengthIs(line[1..], more);
      assert s[1..] == line[1..] + ['\n'] + more;
    }
  }

  /** Cutting is the only way to divide a text into lines without newlines. */
  lemma {:induction false} CutIs(lines: seq<string>, rest: string)
    requires Broken(lines, rest)
    ensures Cut(Glue(lines, rest)) == (lines, rest)
    decreases |lines|
  {
    hide LineLength;
    if lines == [] {
      LineLengthIs(rest, "");
    } else {
      var tail := Glue(lines[1..], rest);
      LineLengthIs(lines[0], tail);
      CutIs(lines[1..], rest);
      var s := lines[0] + ['\n'] + tail;
      assert s[..|lines[0]|] == lines[0] && s[|lines[0]| + 1..] == tail;
      assert lines == [lines[0]] + lines[1..];
    }
  }

  lemma {:induction false} CutGlues(s: string)
    ensures Glue(Cut(s).0, Cut(s).1) == s && Broken(Cut(s).0, Cut(s).1)
    decreases |s|
  {
    var n := LineLength(s);
    hide LineLength;
    if n == |s| {
      assert s[..n] == s;
    } else {
      CutGlues(s[n + 1..]);
      var (lines, rest) := Cut(s[n + 1..]);
      assert ([s[..n]] + lines)[1..] == lines;
      assert s == s[..n] + ['\n'] + s[n + 1..];
    }
  }

  lemma {:induction false} GlueTwice(a: seq<string>, b: seq<string>, rest: string, more: string)
    ensures Glue(a + b, rest) == Glue(a, Glue(b, rest))
    ensures Glue(a, rest) + more == Glue(a, rest + more)
    decreases |a|
  {
    if a == [] {
      assert a + b == b;
    } else {
      GlueTwice(a[1..], b, rest, more);
      assert (a + b)[1..] == a[1..] + b;
      var head := a[0] + ['\n'];
      assert (head + Glue(a[1..], rest)) + more == head + (Glue(a[1..], rest) + more);
    }
  }

  /** A text that arrives in two pieces: the lines of the first, then those of what it left over. */
  lemma CutSplit(a: string, b: string)
    ensures var (l1, r1) := Cut(a);
            var (l2, r2) := Cut(r1 + b);
            Cut(a + b) == (l1 + l2, r2)
  {
    hide *;
    var (l1, r1) := Cut(a);
    var (l2, r2) := Cut(r1 + b);
    CutGlues(a);
    CutGlues(r1 + b);
    GlueTwice(l1, l2, r1, b);
    GlueTwice(l1, l2, r2, "");
    BrokenJoins(l1, r1, l2, r2);
    CutIs(l1 + l2, r2);
  }

  lemma BrokenJoins(l1: seq<string>, r1: string, l2: seq<string>, r2: string)
    requires Broken(l1, r1) && Broken(l2, r2)
    ensures Broken(l1 + l2, r2)
  {
  }

  /** A text without a newline has no complete line. */
  lemma NoLine(s: string)
    requires '\n' !in s
    ensures Cut(s) == ([], s)
  {
    LineLengthIs(s, "");
    hide LineLength;
  }

  /** A text cut right after one of its lines. */
  lemma CutAfter(text: string, k: nat)
    requires k <= |Cut(text).0|
    ensures var (lines, rest) := Cut(text);
            var head, tail := Glue(lines[..k], ""), Glue(lines[k..], rest);
            head + tail == text && Cut(head) == (lines[..k], "") && Cut(tail) == (lines[k..], rest)
  {
    hide Glue, Cut;
    var (lines, rest) := Cut(text);
    var tail := Glue(lines[k..], rest);
    CutGlues(text);
    assert lines == lines[..k] + lines[k..];
    GlueTwice(lines[..k], lines[k..], rest, "");
    GlueTwice(lines[..k], [], "", tail);
    assert "" + tail == tail;
    CutIs(lines[..k], "");
    CutIs(lines[k..], rest);
  }
}
