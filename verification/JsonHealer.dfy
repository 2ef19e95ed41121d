/** Closing what a truncated JSON text left open. */
module JsonHealer {
  import opened Text

  // ------------------------------------------------------------------ the repair

  /** The scanner of the repair: lenient about stray closers and backslashes. */
  datatype Scan = Scan(inString: bool, escape: bool, stack: seq<char>)

  const START := Scan(false, false, [])

  function Opener(c: char): char { if c == '}' then '{' else '[' }

  function Closer(c: char): char { if c == '{' then '}' else ']' }

  predicate IsOpen(c: char) { c == '{' || c == '[' }

  predicate IsClose(c: char) { c == '}' || c == ']' }

  function Next(st: Scan, c: char): Scan {
    if st.escape then st.(escape := false)
    else if c == '\\' then st.(escape := true)
    else if c == '"' then st.(inString := !st.inString)
    else if st.inString then st
    else if IsOpen(c) then st.(stack := st.stack + [c])
    else if IsClose(c) && st.stack != [] && st.stack[|st.stack| - 1] == Opener(c) then
      st.(stack := st.stack[..|st.stack| - 1])
    else st
  }

  function Run(st: Scan, s: string): Scan
    decreases |s|
  {
    if s == "" then st else Run(Next(st, s[0]), s[1..])
  }

  /** One closer for each open bracket, innermost first. */
  function Closers(stack: seq<char>): string {
    if stack == [] then "" else [Closer(stack[|stack| - 1])] + Closers(stack[..|stack| - 1])
  }

  /** Length without trailing whitespace. */
  function TrimmedLength(s: string): (k: nat)
    ensures k <= |s| && (k > 0 ==> !IsSpace(s[k - 1]))
    ensures forall i :: k <= i < |s| ==> IsSpace(s[i])
  {
    if s != "" && IsSpace(s[|s| - 1]) then TrimmedLength(s[..|s| - 1]) else |s|
  }

  /** Drop a comma that only whitespace follows, and that whitespace. */
  function DropComma(s: string): string {
    var k := TrimmedLength(s);
    if k > 0 && s[k - 1] == ',' then s[..k - 1] else s
  }

  /** The text up to the closers: stripped, its last string closed, a dangling comma dropped. */
  function Trunk(text: string): string {
    var s := Strip(text);
    DropComma(if Run(START, s).inString then s + "\"" else s)
  }

  function Repair(text: string): string {
    if Strip(text) == "" then "" else Trunk(text) + Closers(Run(START, Strip(text)).stack)
  }

  // ------------------------------------------------------------------ properly bracketed texts

  /** A character of a string: itself, or escaped. */
  datatype Part = Plain(c: char) | Escaped(c: char)

  /** A character outside strings, a string, or a bracketed group. */
  datatype Item = Char(c: char) | Str(parts: seq<Part>) | Group(open: char, items: seq<Item>)

  /** Characters that may follow a backslash (section 7 of RFC 8259; the digits of \u are not looked at). */
  predicate Escapable(c: char) { c in "\"\\/bfnrtu" }

  predicate Ordinary(c: char) { c != '"' && c != '\\' && !IsOpen(c) && !IsClose(c) }

  predicate GoodPart(p: Part) {
    match p
    case Plain(c) => c != '"' && c != '\\'
    case Escaped(c) => Escapable(c)
  }

  predicate GoodItem(item: Item) {
    match item
    case Char(c) => Ordinary(c)
    case Str(parts) => forall i :: 0 <= i < |parts| ==> GoodPart(parts[i])
    case Group(open, items) => IsOpen(open) && forall i :: 0 <= i < |items| ==> GoodItem(items[i])
  }

  predicate GoodItems(items: seq<Item>) {
    forall i :: 0 <= i < |items| ==> GoodItem(items[i])
  }

  function RenderPart(p: Part): string { if p.Plain? then [p.c] else ['\\', p.c] }

  function RenderParts(parts: seq<Part>): string {
    if parts == [] then "" else RenderPart(parts[0]) + RenderParts(parts[1..])
  }

  function RenderItem(item: Item): string
    decreases item, 0
  {
    match item
    case Char(c) => [c]
    case Str(parts) => "\"" + RenderParts(parts) + "\""
    case Group(open, items) => [open] + Render(items) + [Closer(open)]
  }

  function Render(items: seq<Item>): string
    decreases items, 1
  {
    if items == [] then "" else RenderItem(items[0]) + Render(items[1..])
  }

  /** The text is some sequence of ordinary characters, complete strings and complete groups. */
  ghost predicate Bracketed(s: string) {
    exists items :: GoodItems(items) && s == Render(items)
  }

  // ------------------------------------------------------------------ a strict scanner for them

  /** The strict scanner stops at anything a properly bracketed text cannot continue. */
  datatype Strict = Bad | At(inString: bool, escape: bool, stack: seq<char>)

  function StrictNext(st: Strict, c: char): Strict {
    if st.Bad? then Bad
    else if st.escape then (if st.inString && Escapable(c) then st.(escape := false) else Bad)
    else if st.inString then
      if c == '"' then st.(inString := false) else if c == '\\' then st.(escape := true) else st
    else if c == '\\' then Bad
    else if c == '"' then st.(inString := true)
    else if IsOpen(c) then st.(stack := st.stack + [c])
    else if IsClose(c) then
      if st.stack != [] && st.stack[|st.stack| - 1] == Opener(c) then st.(stack := st.stack[..|st.stack| - 1]) else Bad
    else st
  }

  function StrictRun(st: Strict, s: string): Strict
    decreases |s|
  {
    if s == "" then st else StrictRun(StrictNext(st, s[0]), s[1..])
  }

  function Outside(stack: seq<char>): Strict { At(false, false, stack) }

  lemma {:induction false} StrictAppend(st: Strict, a: string, b: string)
    ensures StrictRun(st, a + b) == StrictRun(StrictRun(st, a), b)
    decreases |a|
  {
    hide StrictNext;
    if a == "" {
      assert a + b == b;
    } else {
      assert (a + b)[1..] == a[1..] + b;
      StrictAppend(StrictNext(st, a[0]), a[1..], b);
    }
  }

  lemma {:induction false} BadStays(s: string)
    ensures StrictRun(Bad, s) == Bad
    decreases |s|
  {
    if s != "" { BadStays(s[1..]); }
  }

  lemma RunOne(st: Strict, c: char)
    ensures StrictRun(st, [c]) == StrictNext(st, c)
  {
    hide StrictNext;
    assert [c][1..] == "";
  }

  // ---- every properly bracketed text passes

  lemma {:induction false} PartsPass(stack: seq<char>, parts: seq<Part>)
    requires forall i :: 0 <= i < |parts| ==> GoodPart(parts[i])
    ensures StrictRun(At(true, false, stack), RenderParts(parts)) == At(true, false, stack)
    decreases |parts|
  {
    if parts != [] {
      var st, p := At(true, false, stack), parts[0];
      StrictAppend(st, RenderPart(p), RenderParts(parts[1..]));
      PartPasses(stack, p);
      PartsPass(stack, parts[1..]);
    }
  }

  lemma PartPasses(stack: seq<char>, p: Part)
    requires GoodPart(p)
    ensures StrictRun(At(true, false, stack), RenderPart(p)) == At(true, false, stack)
  {
    var st := At(true, false, stack);
    RunOne(st, p.c);
    RunOne(st, '\\');
    RunOne(At(true, true, stack), p.c);
    StrictAppend(st, ['\\'], [p.c]);
    assert ['\\'] + [p.c] == ['\\', p.c];
  }

  /** A character, a run, a character. */
  lemma Sandwich(st: Strict, a: char, s1: Strict, mid: string, s2: Strict, b: char, s3: Strict)
    requires StrictNext(st, a) == s1 && StrictRun(s1, mid) == s2 && StrictNext(s2, b) == s3
    ensures StrictRun(st, [a] + mid + [b]) == s3
  {
    hide StrictNext;
    StrictAppend(st, [a] + mid, [b]);
    StrictAppend(st, [a], mid);
    RunOne(st, a);
    RunOne(s2, b);
  }

  lemma {:induction false} ItemPasses(stack: seq<char>, item: Item)
    requires GoodItem(item)
    ensures StrictRun(Outside(stack), RenderItem(item)) == Outside(stack)
    decreases item, 0
  {
    match item
    case Char(c) =>
      RunOne(Outside(stack), c);
    case Str(parts) =>
      var inside := At(true, false, stack);
      PartsPass(stack, parts);
      Sandwich(Outside(stack), '"', inside, RenderParts(parts), inside, '"', Outside(stack));
    case Group(open, items) =>
      var inside := Outside(stack + [open]);
      ItemsPass(stack + [open], items);
      assert (stack + [open])[..|stack|] == stack;
      Sandwich(Outside(stack), open, inside, Render(items), inside, Closer(open), Outside(stack));
  }

  lemma {:induction false} ItemsPass(stack: seq<char>, items: seq<Item>)
    requires GoodItems(items)
    ensures StrictRun(Outside(stack), Render(items)) == Outside(stack)
    decreases items, 1
  {
    if items != [] {
      ItemPasses(stack, items[0]);
      ItemsPass(stack, items[1..]);
      StrictAppend(Outside(stack), RenderItem(items[0]), Render(items[1..]));
    }
  }

  // ---- and every text that passes is properly bracketed

  ghost predicate Opens(stack: seq<char>) {
    forall i :: 0 <= i < |stack| ==> IsOpen(stack[i])
  }

  /** Item lists with the closers of `stack` between them, innermost first. */
  function Nest(stack: seq<char>, lists: seq<seq<Item>>): string
    requires |lists| == |stack| + 1
    decreases |stack|
  {
    if stack == [] then Render(lists[0])
    else Render(lists[0]) + [Closer(stack[|stack| - 1])] + Nest(stack[..|stack| - 1], lists[1..])
  }

  /** From inside a string, a text that gets out begins with good parts and the closing quote. */
  lemma {:induction false} ReadString(stack: seq<char>, s: string) returns (parts: seq<Part>, rest: string)
    requires var r := StrictRun(At(true, false, stack), s); r.At? && !r.inString
    ensures forall i :: 0 <= i < |parts| ==> GoodPart(parts[i])
    ensures s == RenderParts(parts) + "\"" + rest
    ensures StrictRun(Outside(stack), rest) == StrictRun(At(true, false, stack), s)
    decreases |s|
  {
    if s[0] == '"' {
      parts, rest := [], s[1..];
      assert s == "" + "\"" + rest;
    } else {
      var p := if s[0] == '\\' then Escaped(if |s| > 1 then s[1] else 'n') else Plain(s[0]);
      var n := |RenderPart(p)|;
      FirstPart(stack, s, p);
      var more;
      more, rest := ReadString(stack, s[n..]);
      parts := [p] + more;
      assert parts[1..] == more;
      assert s == RenderPart(p) + s[n..];
    }
  }

  lemma FirstPart(stack: seq<char>, s: string, p: Part)
    requires var r := StrictRun(At(true, false, stack), s); r.At? && !r.inString
    requires s != "" && s[0] != '"'
    requires p == if s[0] == '\\' then Escaped(if |s| > 1 then s[1] else 'n') else Plain(s[0])
    ensures var n := |RenderPart(p)|;
            && GoodPart(p) && n <= |s| && s[..n] == RenderPart(p)
            && StrictRun(At(true, false, stack), s[n..]) == StrictRun(At(true, false, stack), s)
  {
    if s[0] == '\\' && |s| > 1 {
      assert s[1..][1..] == s[2..];
      if !Escapable(s[1]) { BadStays(s[2..]); }
    }
  }

  /** The first step of a run that ends outside everything. */
  lemma FirstStep(stack: seq<char>, s: string)
    requires s != "" && StrictRun(Outside(stack), s) == Outside([])
    ensures var c, rest := s[0], s[1..];
            && s == [c] + rest && c != '\\'
            && if c == '"' then StrictRun(At(true, false, stack), rest) == Outside([])
               else if IsOpen(c) then StrictRun(Outside(stack + [c]), rest) == Outside([])
               else if IsClose(c) then stack != [] && stack[|stack| - 1] == Opener(c)
                                       && StrictRun(Outside(stack[..|stack| - 1]), rest) == Outside([])
               else Ordinary(c) && StrictRun(Outside(stack), rest) == Outside([])
  {
    if StrictNext(Outside(stack), s[0]).Bad? { BadStays(s[1..]); }
  }

  lemma {:induction false} ReadItems(stack: seq<char>, s: string) returns (lists: seq<seq<Item>>)
    requires StrictRun(Outside(stack), s) == Outside([]) && Opens(stack)
    ensures |lists| == |stack| + 1 && (forall i :: 0 <= i < |lists| ==> GoodItems(lists[i]))
    ensures s == Nest(stack, lists)
    decreases |s|
  {
    hide *;
    if s == "" {
      NoText(stack);
      return [[]];
    }
    FirstStep(stack, s);
    OutsideIs([]);
    var c, rest := s[0], s[1..];
    if c == '"' {
      var parts, after := ReadString(stack, rest);
      var more := ReadItems(stack, after);
      GoodStr(parts);
      lists := Prepend(stack, Str(parts), more);
      QuotedText(s, RenderParts(parts), after, Nest(stack, more));
    } else if IsOpen(c) {
      PushPop(stack, c);
      var more := ReadItems(stack + [c], rest);
      lists := Enclose(stack, c, more);
    } else if IsClose(c) {
      PushPop(stack, c);
      var more := ReadItems(stack[..|stack| - 1], rest);
      lists := Unclose(stack, more);
    } else {
      var more := ReadItems(stack, rest);
      GoodChar(c);
      lists := Prepend(stack, Char(c), more);
    }
  }

  lemma NoText(stack: seq<char>)
    requires StrictRun(Outside(stack), "") == Outside([])
    ensures stack == [] && GoodItems([]) && Nest([], [[]]) == ""
  {
  }

  lemma OutsideIs(stack: seq<char>)
    ensures Outside(stack) == At(false, false, stack)
  {
  }

  lemma GoodStr(parts: seq<Part>)
    requires forall i :: 0 <= i < |parts| ==> GoodPart(parts[i])
    ensures GoodItem(Str(parts)) && RenderItem(Str(parts)) == "\"" + RenderParts(parts) + "\""
  {
  }

  lemma GoodChar(c: char)
    requires Ordinary(c)
    ensures GoodItem(Char(c)) && RenderItem(Char(c)) == [c]
  {
  }

  lemma QuotedText(s: string, inner: string, after: string, tail: string)
    requires s != "" && s == ['"'] + s[1..] && s[1..] == inner + "\"" + after && after == tail
    ensures s == ("\"" + inner + "\"") + tail
  {
  }

  lemma PushPop(stack: seq<char>, c: char)
    requires Opens(stack)
    ensures IsOpen(c) ==> Opens(stack + [c])
    ensures stack != [] ==> Opens(stack[..|stack| - 1])
    ensures IsClose(c) ==> Closer(Opener(c)) == c
  {
  }

  /** An empty innermost list, before the closer that ends it. */
  lemma {:induction false} Unclose(stack: seq<char>, lists: seq<seq<Item>>) returns (all: seq<seq<Item>>)
    requires stack != [] && |lists| == |stack| && forall i :: 0 <= i < |lists| ==> GoodItems(lists[i])
    ensures |all| == |stack| + 1 && forall i :: 0 <= i < |all| ==> GoodItems(all[i])
    ensures Nest(stack, all) == [Closer(stack[|stack| - 1])] + Nest(stack[..|stack| - 1], lists)
  {
    all := [[]] + lists;
    assert all[1..] == lists;
    assert "" + [Closer(stack[|stack| - 1])] == [Closer(stack[|stack| - 1])];
  }

  /** Put an item in front of the innermost list. */
  lemma {:induction false} Prepend(stack: seq<char>, item: Item, lists: seq<seq<Item>>) returns (all: seq<seq<Item>>)
    requires |lists| == |stack| + 1 && GoodItem(item) && forall i :: 0 <= i < |lists| ==> GoodItems(lists[i])
    ensures |all| == |stack| + 1 && forall i :: 0 <= i < |all| ==> GoodItems(all[i])
    ensures Nest(stack, all) == RenderItem(item) + Nest(stack, lists)
  {
    hide RenderItem, GoodItem;
    var first := [item] + lists[0];
    all := [first] + lists[1..];
    assert all[1..] == lists[1..];
    assert first[1..] == lists[0];
    assert Render(first) == RenderItem(item) + Render(lists[0]);
  }

  /** Close the innermost list into a group in front of the next. */
  lemma {:induction false} Enclose(stack: seq<char>, open: char, lists: seq<seq<Item>>) returns (all: seq<seq<Item>>)
    requires |lists| == |stack| + 2 && IsOpen(open) && forall i :: 0 <= i < |lists| ==> GoodItems(lists[i])
    ensures |all| == |stack| + 1 && forall i :: 0 <= i < |all| ==> GoodItems(all[i])
    ensures Nest(stack, all) == [open] + Nest(stack + [open], lists)
  {
    var group := Group(open, lists[0]);
    all := Prepend(stack, group, lists[1..]);
    assert (stack + [open])[..|stack|] == stack;
    hide Nest;
    NestUnfolds(stack + [open], lists);
    assert RenderItem(group) == [open] + Render(lists[0]) + [Closer(open)];
  }

  lemma NestUnfolds(stack: seq<char>, lists: seq<seq<Item>>)
    requires |lists| == |stack| + 1 && stack != []
    ensures Nest(stack, lists)
            == Render(lists[0]) + [Closer(stack[|stack| - 1])] + Nest(stack[..|stack| - 1], lists[1..])
  {
    hide Render;
  }

  /** The strict scanner accepts exactly the properly bracketed texts. */
  lemma StrictIsBracketed(s: string)
    ensures Bracketed(s) <==> StrictRun(Outside([]), s) == Outside([])
  {
    if Bracketed(s) {
      var items :| GoodItems(items) && s == Render(items);
      ItemsPass([], items);
    }
    if StrictRun(Outside([]), s) == Outside([]) {
      var lists := ReadItems([], s);
      assert GoodItems(lists[0]) && s == Render(lists[0]);
    }
  }

  // ------------------------------------------------------------------ the repair balances

  /** The lenient scanner agrees with the strict one as long as that one does not stop. */
  lemma {:induction false} ScannersAgree(st: Strict, s: string)
    requires StrictRun(st, s).At? && st.At?
    ensures var r := StrictRun(st, s);
            Run(Scan(st.inString, st.escape, st.stack), s) == Scan(r.inString, r.escape, r.stack)
    decreases |s|
  {
    if s != "" {
      if StrictNext(st, s[0]).Bad? { BadStays(s[1..]); }
      ScannersAgree(StrictNext(st, s[0]), s[1..]);
    }
  }

  ghost predicate Sound(st: Strict) {
    st.At? ==> Opens(st.stack) && (st.escape ==> st.inString)
  }

  lemma {:induction false} RunSound(st: Strict, s: string)
    requires Sound(st)
    ensures Sound(StrictRun(st, s))
    decreases |s|
  {
    if s != "" {
      RunSound(StrictNext(st, s[0]), s[1..]);
    }
  }

  /** Commas and whitespace change nothing, except that they may not be escaped. */
  lemma {:induction false} DullRun(st: Strict, w: string)
    requires forall i :: 0 <= i < |w| ==> w[i] == ',' || IsSpace(w[i])
    ensures StrictRun(st, w) == if st.At? && st.escape && w != "" then Bad else st
    decreases |w|
  {
    if w != "" {
      DullRun(StrictNext(st, w[0]), w[1..]);
    }
  }

  /** Stripping does not change where the strict scanner ends. */
  lemma {:induction false} StripKeepsRun(s: string)
    requires StrictRun(Outside([]), s).At?
    ensures StrictRun(Outside([]), Strip(s)) == StrictRun(Outside([]), s)
    decreases |s|
  {
    hide StrictNext, IsSpace;
    if s != "" && IsSpace(s[0]) {
      assert s == [s[0]] + s[1..];
      StrictAppend(Outside([]), [s[0]], s[1..]);
      DullRun(Outside([]), [s[0]]);
      StripKeepsRun(s[1..]);
    } else if s != "" && IsSpace(s[|s| - 1]) {
      var init, last := s[..|s| - 1], s[|s| - 1];
      assert s == init + [last];
      StrictAppend(Outside([]), init, [last]);
      DullRun(StrictRun(Outside([]), init), [last]);
      StripKeepsRun(init);
    }
  }

  /** A dangling comma may go. */
  lemma DropCommaKeepsRun(s: string, stack: seq<char>)
    requires StrictRun(Outside([]), s) == Outside(stack)
    ensures StrictRun(Outside([]), DropComma(s)) == Outside(stack)
  {
    hide StrictNext, StrictRun, TrimmedLength;
    var k := TrimmedLength(s);
    if k > 0 && s[k - 1] == ',' {
      var kept, gone := s[..k - 1], s[k - 1..];
      assert s == kept + gone;
      StrictAppend(Outside([]), kept, gone);
      DullRun(StrictRun(Outside([]), kept), gone);
    }
  }

  lemma QuoteStays(s: string)
    ensures DropComma(s + "\"") == s + "\""
  {
    hide StrictNext;
    var t := s + "\"";
    assert !IsSpace(t[|t| - 1]);
  }

  lemma {:induction false} ClosersClose(stack: seq<char>)
    requires Opens(stack)
    ensures StrictRun(Outside(stack), Closers(stack)) == Outside([])
    decreases |stack|
  {
    if stack != [] {
      var rest := stack[..|stack| - 1];
      ClosersClose(rest);
      assert Closers(stack)[1..] == Closers(rest);
    }
  }

  lemma {:induction false} ClosersInString(stack: seq<char>, any: seq<char>)
    ensures StrictRun(At(true, false, stack), Closers(any)) == At(true, false, stack)
    decreases |any|
  {
    if any != [] {
      ClosersInString(stack, any[..|any| - 1]);
      assert Closers(any)[1..] == Closers(any[..|any| - 1]);
    }
  }

  /** One matching closer per open bracket, in reverse order. */
  lemma {:induction false} ClosersMatch(stack: seq<char>)
    ensures |Closers(stack)| == |stack|
    ensures forall i :: 0 <= i < |stack| ==> Closers(stack)[i] == Closer(stack[|stack| - 1 - i])
    decreases |stack|
  {
    if stack != [] {
      ClosersMatch(stack[..|stack| - 1]);
    }
  }

  /** Some continuation of `p` is properly bracketed. */
  ghost predicate Truncated(p: string) {
    exists rest :: Bracketed(p + rest)
  }

  lemma TruncatedRuns(p: string)
    requires Truncated(p)
    ensures StrictRun(Outside([]), p).At?
  {
    var rest :| Bracketed(p + rest);
    StrictIsBracketed(p + rest);
    StrictAppend(Outside([]), p, rest);
    if StrictRun(Outside([]), p).Bad? { BadStays(rest); }
  }

  /** The trunk of a truncated text: outside strings with the same brackets open, unless cut mid-escape. */
  lemma TrunkRuns(p: string)
    requires StrictRun(Outside([]), p).At?
    ensures var st := Run(START, p);
            && Run(START, Strip(p)) == st && Opens(st.stack)
            && StrictRun(Outside([]), Trunk(p)) == if st.escape then At(true, false, st.stack) else Outside(st.stack)
  {
    var s, r := Strip(p), StrictRun(Outside([]), p);
    StripKeepsRun(p);
    ScannersAgree(Outside([]), p);
    ScannersAgree(Outside([]), s);
    RunSound(Outside([]), p);
    hide Strip, Run, StrictRun, DropComma;
    if r.inString {
      QuoteStays(s);
      StrictAppend(Outside([]), s, "\"");
      RunOne(r, '"');
    } else {
      DropCommaKeepsRun(s, r.stack);
    }
  }

  /**
    The repair of any prefix of a properly bracketed text is properly bracketed if and only if
    the prefix does not end in the middle of an escape.
   */
  lemma RepairBalances(p: string)
    requires Truncated(p)
    ensures Bracketed(Repair(p)) <==> !Run(START, p).escape
  {
    TruncatedRuns(p);
    TrunkRuns(p);
    var st := Run(START, p);
    StrictIsBracketed(Repair(p));
    if Strip(p) == "" {
      EmptyBalanced(p);
    } else {
      hide Strip, Run, StrictRun, Trunk, Bracketed, Opens;
      StrictAppend(Outside([]), Trunk(p), Closers(st.stack));
      ClosersClose(st.stack);
      ClosersInString(st.stack, st.stack);
    }
  }

  lemma EmptyBalanced(p: string)
    requires Strip(p) == "" && Run(START, Strip(p)) == Run(START, p)
    ensures StrictRun(Outside([]), Repair(p)) == Outside([]) && !Run(START, p).escape
  {
  }

  /** What the repair adds: a quote if a string is open, then exactly the closers of the open brackets. */
  lemma RepairAppends(p: string)
    requires Truncated(p) && !Run(START, p).escape && Strip(p) != ""
    ensures var st, s := Run(START, p), Strip(p);
            && Repair(p) == Trunk(p) + Closers(st.stack)
            && Trunk(p) == (if st.inString then s + "\"" else if s[|s| - 1] == ',' then s[..|s| - 1] else s)
  {
    TruncatedRuns(p);
    TrunkRuns(p);
    var s := Strip(p);
    QuoteStays(s);
    hide Strip, Run;
    assert TrimmedLength(s) == |s|;
  }

  /** A complete text is only stripped (and loses a dangling comma). */
  lemma CompleteUntouched(s: string)
    requires Bracketed(s)
    ensures Repair(s) == DropComma(Strip(s))
  {
    StrictIsBracketed(s);
    StripKeepsRun(s);
    ScannersAgree(Outside([]), Strip(s));
    hide Run, StrictRun, Bracketed, DropComma;
    assert Closers([]) == "";
    assert Run(START, Strip(s)) == START;
    assert Strip(s) != "" ==> Repair(s) == DropComma(Strip(s)) + "";
    EmptyDrop();
  }

  lemma EmptyDrop()
    ensures DropComma("") == ""
  {
  }

  // ------------------------------------------------------------------ the source's loops

  method RepairTruncatedJson(text: string) returns (r: string)
    ensures r == Repair(text)
  {
    hide Run, Strip, Next, Closers, DropComma;
    var s := Strip(text);
    if s == "" {
      return s;
    }
    var inString, escape, open := false, false, [];
    var i := 0;
    assert s[0..] == s;
    while i < |s|
      invariant 0 <= i <= |s|
      invariant Run(START, s) == Run(Scan(inString, escape, open), s[i..])
    {
      RunStep(Scan(inString, escape, open), s, i);
      inString, escape, open := Advance(inString, escape, open, s[i]);
      i := i + 1;
    }
    assert s[i..] == "";
    RunEnds(Scan(inString, escape, open));
    r := DropComma(if inString then s + "\"" else s);
    ghost var trunk := r;
    var j := |open|;
    assert open[..j] == open;
    NoClosers();
    while j > 0
      invariant 0 <= j <= |open| && trunk + Closers(open) == r + Closers(open[..j])
    {
      j := j - 1;
      CloserStep(open, j);
      assert r + ([Closer(open[j])] + Closers(open[..j])) == (r + [Closer(open[j])]) + Closers(open[..j]);
      r := r + [if open[j] == '{' then '}' else ']'];
    }
    assert open[..0] == [];
    assert r + "" == r;
  }

  /** The body of the scanning loop. */
  method Advance(inString: bool, escape: bool, open: seq<char>, c: char)
    returns (inString': bool, escape': bool, open': seq<char>)
    ensures Scan(inString', escape', open') == Next(Scan(inString, escape, open), c)
  {
    inString', escape', open' := inString, escape, open;
    if escape {
      escape' := false;
      return;
    }
    if c == '\\' {
      escape' := true;
      return;
    }
    if c == '"' {
      inString' := !inString;
      return;
    }
    if !inString {
      if c == '{' || c == '[' {
        open' := open + [c];
      } else if c == '}' {
        if open != [] && open[|open| - 1] == '{' {
          open' := open[..|open| - 1];
        }
      } else if c == ']' {
        if open != [] && open[|open| - 1] == '[' {
          open' := open[..|open| - 1];
        }
      }
    }
  }

  lemma RunStep(st: Scan, s: string, i: nat)
    requires i < |s|
    ensures Run(st, s[i..]) == Run(Next(st, s[i]), s[i + 1..])
  {
    hide Next;
    assert s[i..][1..] == s[i + 1..];
  }

  lemma RunEnds(st: Scan)
    ensures Run(st, "") == st
  {
  }

  lemma NoClosers()
    ensures Closers([]) == ""
  {
  }

  lemma CloserStep(open: seq<char>, j: nat)
    requires j < |open|
    ensures Closers(open[..j + 1]) == [Closer(open[j])] + Closers(open[..j])
  {
    assert open[..j + 1][..j] == open[..j];
  }
}
