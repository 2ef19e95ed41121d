/** Prometheus label sets: the agent prints them, the gateway parses them back. */
module PromLabels {
  import opened Text

  // ------------------------------------------------------------------ the agent's printer

  /** `str.replace` of a single character. */
  function Replace(s: string, c: char, rep: string): string {
    if s == "" then "" else (if s[0] == c then rep else [s[0]]) + Replace(s[1..], c, rep)
  }

  /** Backslashes first, then quotes, then newlines. */
  function Esc(v: string): string {
    Replace(Replace(Replace(v, '\\', "\\\\"), '"', "\\\""), '\n', "\\n")
  }

  function EscChar(c: char): string {
    if c == '\\' then "\\\\" else if c == '"' then "\\\"" else if c == '\n' then "\\n" else [c]
  }

  /** The escape of each character on its own. */
  function EscEach(v: string): string {
    if v == "" then "" else EscChar(v[0]) + EscEach(v[1..])
  }

  datatype Label = Label(key: string, value: string)

  function PrintLabel(l: Label): string {
    l.key + "=\"" + Esc(l.value) + "\""
  }

  /** The labels joined by commas. */
  function Print(labels: seq<Label>): string {
    if labels == [] then ""
    else if |labels| == 1 then PrintLabel(labels[0])
    else PrintLabel(labels[0]) + "," + Print(labels[1..])
  }

  /** The dictionary a list of labels makes. */
  function AsMap(labels: seq<Label>): map<string, string> {
    if labels == [] then map[]
    else AsMap(labels[..|labels| - 1])[labels[|labels| - 1].key := labels[|labels| - 1].value]
  }

  lemma {:induction false} ReplaceAppend(a: string, b: string, c: char, rep: string)
    ensures Replace(a + b, c, rep) == Replace(a, c, rep) + Replace(b, c, rep)
  {
    if a == "" {
      assert a + b == b;
    } else {
      assert (a + b)[1..] == a[1..] + b;
      ReplaceAppend(a[1..], b, c, rep);
    }
  }

  lemma ReplaceOne(x: char, c: char, rep: string)
    ensures Replace([x], c, rep) == if x == c then rep else [x]
  {
    assert [x][1..] == "";
  }

  lemma ReplaceTwo(x: char, y: char, c: char, rep: string)
    requires x != c && y != c
    ensures Replace([x, y], c, rep) == [x, y]
  {
    ReplaceAppend([x], [y], c, rep);
    ReplaceOne(x, c, rep);
    ReplaceOne(y, c, rep);
    assert [x] + [y] == [x, y];
  }

  lemma EscOne(x: char)
    ensures Esc([x]) == EscChar(x)
  {
    hide Replace;
    ReplaceOne(x, '\\', "\\\\");
    ReplaceOne(x, '"', "\\\"");
    ReplaceOne(x, '\n', "\\n");
    ReplaceTwo('\\', '\\', '"', "\\\"");
    ReplaceTwo('\\', '\\', '\n', "\\n");
    ReplaceTwo('\\', '"', '\n', "\\n");
  }

  lemma EscAppend(a: string, b: string)
    ensures Esc(a + b) == Esc(a) + Esc(b)
  {
    hide Replace;
    var a1, b1 := Replace(a, '\\', "\\\\"), Replace(b, '\\', "\\\\");
    var a2, b2 := Replace(a1, '"', "\\\""), Replace(b1, '"', "\\\"");
    ReplaceAppend(a, b, '\\', "\\\\");
    ReplaceAppend(a1, b1, '"', "\\\"");
    ReplaceAppend(a2, b2, '\n', "\\n");
  }

  /** The three successive replaces are one escape per character: none touches what another inserted. */
  lemma {:induction false} EscIsPerCharacter(v: string)
    ensures Esc(v) == EscEach(v)
  {
    if v == "" {
    } else {
      hide Esc;
      EscAppend([v[0]], v[1..]);
      EscOne(v[0]);
      EscIsPerCharacter(v[1..]);
      assert v == [v[0]] + v[1..];
    }
  }

  // ------------------------------------------------------------------ the gateway's parser

  datatype Error = BadSet | NotQuoted | UnterminatedValue | UnterminatedSet

  /** The labels read and the text after the closing brace, or the error raised. */
  datatype Parsed = Parsed(labels: map<string, string>, rest: string) | Malformed(error: Error)

  predicate IsSeparator(c: char) { c == ' ' || c == '\t' || c == ',' }

  function SkipSeparators(s: string): (t: string)
    ensures |t| <= |s| && (t != "" ==> !IsSeparator(t[0]))
  {
    if s != "" && IsSeparator(s[0]) then SkipSeparators(s[1..]) else s
  }

  predicate EndsKey(c: char) { c == '=' || c == '}' }

  /** Characters before the first `=` or `}`. */
  function KeyLength(s: string): (k: nat)
    ensures k <= |s| && (k < |s| ==> EndsKey(s[k]))
    ensures forall i :: 0 <= i < k ==> !EndsKey(s[i])
  {
    if s == "" || EndsKey(s[0]) then 0 else 1 + KeyLength(s[1..])
  }

  function Unescape(c: char): char { if c == 'n' then '\n' else c }

  /** The unescaped text up to the closing quote, and what follows from the quote on. */
  function ReadValue(s: string): (r: (string, string))
    ensures |r.1| <= |s|
  {
    if s == "" || s[0] == '"' then ("", s)
    else if s[0] == '\\' && |s| > 1 then
      var (v, rest) := ReadValue(s[2..]);
      ([Unescape(s[1])] + v, rest)
    else
      var (v, rest) := ReadValue(s[1..]);
      ([s[0]] + v, rest)
  }

  /** What follows the opening brace. */
  function ParseSet(labels: map<string, string>, s: string): Parsed
    decreases |s|
  {
    if s == "" then Malformed(UnterminatedSet) else
    var t := SkipSeparators(s);
    if t != "" && t[0] == '}' then Parsed(labels, t[1..]) else
    var k := KeyLength(t);
    if k >= |t| || t[k] != '=' then Malformed(BadSet)
    else if k + 1 >= |t| || t[k + 1] != '"' then Malformed(NotQuoted)
    else
      var (value, rest) := ReadValue(t[k + 2..]);
      if rest == "" then Malformed(UnterminatedValue)
      else ParseSet(labels[Strip(t[..k]) := value], rest[1..])
  }

  // ------------------------------------------------------------------ round trip

  /** Keys the parser reads back as they stand. */
  predicate WellFormed(key: string) {
    && (forall i :: 0 <= i < |key| ==> !EndsKey(key[i]))
    && Strip(key) == key && (key != "" ==> key[0] != ',')
  }

  lemma ReadPlain(c: char, s: string)
    requires c != '"' && c != '\\'
    ensures ReadValue([c] + s) == ([c] + ReadValue(s).0, ReadValue(s).1)
  {
    assert ([c] + s)[1..] == s;
  }

  lemma ReadEscape(c: char, s: string)
    ensures ReadValue(['\\', c] + s) == ([Unescape(c)] + ReadValue(s).0, ReadValue(s).1)
  {
    assert (['\\', c] + s)[2..] == s;
  }

  /** Reading an escaped value gives the value back, and stops at the quote after it. */
  lemma {:induction false} ReadEscaped(v: string, rest: string)
    ensures ReadValue(EscEach(v) + "\"" + rest) == (v, "\"" + rest)
  {
    if v == "" {
      assert EscEach(v) + "\"" + rest == "\"" + rest;
    } else {
      var tail := EscEach(v[1..]) + "\"" + rest;
      ReadEscaped(v[1..], rest);
      assert EscEach(v) + "\"" + rest == EscChar(v[0]) + tail;
      hide EscEach, ReadValue;
      if v[0] == '\\' || v[0] == '"' {
        ReadEscape(v[0], tail);
      } else if v[0] == '\n' {
        ReadEscape('n', tail);
      } else {
        ReadPlain(v[0], tail);
      }
      assert v == [v[0]] + v[1..];
    }
  }

  lemma {:induction false} KeyLengthOf(key: string, rest: string)
    requires forall i :: 0 <= i < |key| ==> !EndsKey(key[i])
    ensures KeyLength(key + "=" + rest) == |key|
  {
    var s := key + "=" + rest;
    assert s[|key|] == '=';
    assert forall i :: 0 <= i < |key| ==> s[i] == key[i];
    assert EndsKey(s[|key|]);
  }

  lemma {:induction false} SkipOf(key: string, body: string)
    requires body != "" && !IsSeparator(body[0])
    ensures SkipSeparators(key + body) == SkipSeparators(key) + body
    ensures exists m :: 0 <= m <= |key| && SkipSeparators(key) == key[m..]
  {
    hide IsSeparator;
    if key == "" {
      assert key + body == body && SkipSeparators(key) == key[0..];
    } else if IsSeparator(key[0]) {
      assert (key + body)[1..] == key[1..] + body;
      SkipOf(key[1..], body);
      var m :| 0 <= m <= |key[1..]| && SkipSeparators(key[1..]) == key[1..][m..];
      assert SkipSeparators(key) == key[m + 1..];
    } else {
      assert SkipSeparators(key) == key[0..];
    }
  }

  /** One printed label whose key holds no `=` or `}` is read back under the key's stripped rest. */
  lemma ParseOne(labels: map<string, string>, l: Label, rest: string)
    requires forall i :: 0 <= i < |l.key| ==> !EndsKey(l.key[i])
    ensures ParseSet(labels, PrintLabel(l) + rest)
            == ParseSet(labels[Strip(SkipSeparators(l.key)) := l.value], rest)
  {
    hide Esc, EscEach, Strip;
    EscIsPerCharacter(l.value);
    var quoted := EscEach(l.value) + "\"" + rest;
    var body := "=" + ("\"" + quoted);
    assert PrintLabel(l) + rest == l.key + body;
    SkipOf(l.key, body);
    var key := SkipSeparators(l.key);
    var m :| 0 <= m <= |l.key| && key == l.key[m..];
    ReadEscaped(l.value, rest);
    CutLabel(key, quoted);
    hide *;
    ParseRound(labels, l.key + body, key, l.value, quoted, "\"" + rest);
    assert ("\"" + rest)[1..] == rest;
  }

  lemma CutLabel(key: string, quoted: string)
    requires forall i :: 0 <= i < |key| ==> !EndsKey(key[i])
    ensures var t := key + ("=" + ("\"" + quoted));
            && KeyLength(t) == |key| && t[..|key|] == key
            && t[0] != '}' && t[|key|] == '=' && t[|key| + 1] == '"' && t[|key| + 2..] == quoted
  {
    var t := key + ("=" + ("\"" + quoted));
    assert t == key + "=" + ("\"" + quoted);
    KeyLengthOf(key, "\"" + quoted);
    assert t[0] == if key == "" then '=' else key[0];
  }

  /** One round of the parser that reads a key and its quoted value. */
  lemma ParseRound(labels: map<string, string>, s: string, key: string, value: string, quoted: string, rest: string)
    requires var t := key + ("=" + ("\"" + quoted));
             && s != "" && SkipSeparators(s) == t
             && KeyLength(t) == |key| && t[..|key|] == key
             && t[0] != '}' && t[|key|] == '=' && t[|key| + 1] == '"' && t[|key| + 2..] == quoted
    requires ReadValue(quoted) == (value, rest) && rest != ""
    ensures ParseSet(labels, s) == ParseSet(labels[Strip(key) := value], rest[1..])
  {
    hide Strip, KeyLength, ReadValue, SkipSeparators;
  }

  /** A well-formed key is its own stripped rest, and no other key is. */
  lemma WellFormedKeys(key: string)
    requires forall i :: 0 <= i < |key| ==> !EndsKey(key[i])
    ensures WellFormed(key) <==> Strip(SkipSeparators(key)) == key
  {
    hide Strip;
    SkipOf(key, "=");
    var rest := SkipSeparators(key);
    StripTwice(rest);
    if key != "" && IsSeparator(key[0]) {
      SkipOf(key[1..], "=");
      assert |rest| < |key|;
    }
  }

  lemma {:induction false} StripIsPart(s: string) returns (i: nat, j: nat)
    ensures i <= j <= |s| && Strip(s) == s[i..j]
  {
    hide IsSpace;
    if s != "" && IsSpace(s[0]) {
      i, j := StripIsPart(s[1..]);
      i, j := i + 1, j + 1;
    } else if s != "" && IsSpace(s[|s| - 1]) {
      i, j := StripIsPart(s[..|s| - 1]);
    } else {
      i, j := 0, |s|;
    }
  }

  lemma StripTwice(s: string)
    ensures Strip(Strip(s)) == Strip(s)
  {
    hide IsSpace;
  }

  lemma {:induction false} ParsePrinted(labels: map<string, string>, ls: seq<Label>, rest: string)
    requires forall i :: 0 <= i < |ls| ==> WellFormed(ls[i].key)
    ensures ParseSet(labels, Print(ls) + "}" + rest) == Parsed(Extend(labels, ls), rest)
    decreases |ls|
  {
    hide PrintLabel, Strip, SkipSeparators;
    if ls == [] {
      assert Print(ls) + "}" + rest == "}" + rest;
      BraceCloses(labels, rest);
    } else {
      var next := labels[ls[0].key := ls[0].value];
      var tail := Print(ls[1..]) + "}" + rest;
      ParsePrinted(next, ls[1..], rest);
      hide ParseSet;
      if |ls| == 1 {
        assert ls[1..] == [];
        assert Print(ls) + "}" + rest == PrintLabel(ls[0]) + tail;
        WellFormedKeys(ls[0].key);
        ParseOne(labels, ls[0], tail);
      } else {
        assert Print(ls) + "}" + rest == PrintLabel(ls[0]) + ("," + tail);
        WellFormedKeys(ls[0].key);
        ParseOne(labels, ls[0], "," + tail);
        CommaSkipped(next, tail);
      }
    }
  }

  lemma SkipComma(s: string)
    ensures SkipSeparators("," + s) == SkipSeparators(s)
  {
    assert ("," + s)[1..] == s;
  }

  lemma CommaSkipped(labels: map<string, string>, s: string)
    requires s != ""
    ensures ParseSet(labels, "," + s) == ParseSet(labels, s)
  {
    hide Strip, KeyLength, ReadValue;
    assert ("," + s)[1..] == s;
    SkipComma(s);
    hide SkipSeparators;
  }

  /** `labels` updated by each label in turn. */
  function Extend(labels: map<string, string>, ls: seq<Label>): map<string, string>
    decreases |ls|
  {
    if ls == [] then labels else Extend(labels[ls[0].key := ls[0].value], ls[1..])
  }

  lemma {:induction false} ExtendIsAsMap(labels: map<string, string>, ls: seq<Label>)
    ensures Extend(labels, ls) == labels + AsMap(ls)
    decreases |ls|
  {
    if ls != [] {
      var k := |ls| - 1;
      ExtendLast(labels, ls[..k], ls[k]);
      assert ls == ls[..k] + [ls[k]];
      ExtendIsAsMap(labels, ls[..k]);
    }
  }

  lemma {:induction false} ExtendLast(labels: map<string, string>, ls: seq<Label>, l: Label)
    ensures Extend(labels, ls + [l]) == Extend(labels, ls)[l.key := l.value]
    decreases |ls|
  {
    if ls == [] {
      assert ls + [l] == [l];
      assert [l][1..] == [];
    } else {
      assert (ls + [l])[1..] == ls[1..] + [l];
      ExtendLast(labels[ls[0].key := ls[0].value], ls[1..], l);
    }
  }

  /** With distinct keys the map holds exactly the listed labels. */
  lemma {:induction false} AsMapHolds(ls: seq<Label>)
    requires forall i, j :: 0 <= i < j < |ls| ==> ls[i].key != ls[j].key
    ensures forall k :: k in AsMap(ls) <==> exists i :: 0 <= i < |ls| && ls[i].key == k
    ensures forall i :: 0 <= i < |ls| ==> ls[i].key in AsMap(ls) && AsMap(ls)[ls[i].key] == ls[i].value
  {
    if ls != [] {
      var init, last := ls[..|ls| - 1], ls[|ls| - 1];
      AsMapHolds(init);
      assert AsMap(ls) == AsMap(init)[last.key := last.value];
      hide AsMap;
      forall i | 0 <= i < |init| ensures ls[i].key in AsMap(ls) && AsMap(ls)[ls[i].key] == ls[i].value {
        assert init[i] == ls[i] && ls[i].key != last.key;
      }
      forall k | k in AsMap(ls) ensures exists i :: 0 <= i < |ls| && ls[i].key == k {
        if k == last.key {
          assert ls[|ls| - 1].key == k;
        } else {
          var i :| 0 <= i < |init| && init[i].key == k;
          assert ls[i].key == k;
        }
      }
    }
  }

  // ------------------------------------------------------------------ exactly which keys survive

  /** Every key the parser adds is free of `=` and `}`, and stripped. */
  predicate Readable(key: string) {
    (forall i :: 0 <= i < |key| ==> !EndsKey(key[i])) && Strip(key) == key
  }

  lemma KeyReadable(text: string)
    requires forall i :: 0 <= i < |text| ==> !EndsKey(text[i])
    ensures Readable(Strip(text))
  {
    hide Strip;
    StripTwice(text);
    var i, j := StripIsPart(text);
    assert forall k :: 0 <= k < j - i ==> text[i..j][k] == text[i + k];
  }

  lemma {:induction false} KeysReadable(labels: map<string, string>, s: string)
    requires forall k :: k in labels ==> Readable(k)
    ensures var r := ParseSet(labels, s); r.Parsed? ==> forall k :: k in r.labels ==> Readable(k)
    decreases |s|
  {
    hide Strip, ReadValue, Readable, SkipSeparators, KeyLength, EndsKey;
    if s != "" {
      var t := SkipSeparators(s);
      var k := KeyLength(t);
      if k + 1 < |t| && t[k] == '=' && t[k + 1] == '"' {
        var (value, rest) := ReadValue(t[k + 2..]);
        if rest != "" {
          KeyReadable(t[..k]);
          KeysReadable(labels[Strip(t[..k]) := value], rest[1..]);
        }
      }
    }
  }

  /**
    A single label survives printing and parsing if and only if its key is well formed,
    whatever its value.
   */
  lemma KeySurvives(l: Label, rest: string)
    ensures ParseSet(map[], Print([l]) + "}" + rest) == Parsed(map[l.key := l.value], rest) <==> WellFormed(l.key)
  {
    hide Strip, Print, ParseSet, SkipSeparators;
    if exists i :: 0 <= i < |l.key| && EndsKey(l.key[i]) {
      KeyIsLost(l, Print([l]) + "}" + rest, rest);
    } else {
      WellFormedKeys(l.key);
      ParseLast(l, rest);
      var labels := map[l.key := l.value];
      assert l.key in labels;
    }
  }

  /** No text reads back as a label whose key holds a character that ends keys. */
  lemma KeyIsLost(l: Label, s: string, rest: string)
    requires exists i :: 0 <= i < |l.key| && EndsKey(l.key[i])
    ensures ParseSet(map[], s) != Parsed(map[l.key := l.value], rest)
  {
    hide Strip, ParseSet;
    KeysReadable(map[], s);
    var labels := map[l.key := l.value];
    assert l.key in labels && !Readable(l.key);
  }

  lemma ParseLast(l: Label, rest: string)
    requires forall i :: 0 <= i < |l.key| ==> !EndsKey(l.key[i])
    ensures var key := Strip(SkipSeparators(l.key));
            ParseSet(map[], Print([l]) + "}" + rest) == Parsed(map[key := l.value], rest)
  {
    hide PrintLabel, Strip, SkipSeparators;
    ParseOne(map[], l, "}" + rest);
    assert PrintLabel(l) + ("}" + rest) == Print([l]) + "}" + rest;
    BraceCloses(map[Strip(SkipSeparators(l.key)) := l.value], rest);
  }

  lemma BraceCloses(labels: map<string, string>, rest: string)
    ensures ParseSet(labels, "}" + rest) == Parsed(labels, rest)
  {
    assert ("}" + rest)[1..] == rest;
  }

  lemma AfterBrace(before: string, body: string, rest: string)
    ensures (before + "{" + body + "}" + rest)[|before| + 1..] == body + "}" + rest
  {
    assert before + "{" + body + "}" + rest == (before + "{") + (body + "}" + rest);
  }

  /**
    The round trip: wherever a printed label set stands in a line, parsing from its brace yields
    the labels, and leaves exactly the text after the closing brace.
   */
  lemma LabelsRoundTrip(before: string, ls: seq<Label>, rest: string, line: string)
    requires forall i :: 0 <= i < |ls| ==> WellFormed(ls[i].key)
    requires line == before + "{" + Print(ls) + "}" + rest
    ensures |before| < |line| && ParseSet(map[], line[|before| + 1..]) == Parsed(AsMap(ls), rest)
  {
    hide *;
    ParsePrinted(map[], ls, rest);
    ExtendIsAsMap(map[], ls);
    assert map[] + AsMap(ls) == AsMap(ls);
    AfterBrace(before, Print(ls), rest);
  }

  // ------------------------------------------------------------------ the parser's loops

  datatype Outcome = Done(labels: map<string, string>, next: nat) | Raised(error: Error)

  /** The inner loop over a quoted value, from just after its opening quote. */
  method ReadQuoted(line: string, start: nat) returns (value: string, j: nat)
    requires start <= |line|
    ensures start <= j <= |line| && ReadValue(line[start..]) == (value, line[j..])
  {
    hide ReadValue;
    var n := |line|;
    value, j := "", start;
    Assoc("", "", ReadValue(line[start..]).0);
    while j < n && line[j] != '"'
      invariant start <= j <= n
      invariant ReadValue(line[start..]) == (value + ReadValue(line[j..]).0, ReadValue(line[j..]).1)
    {
      var taken := if line[j] == '\\' && j + 1 < n then 2 else 1;
      var c := if taken == 2 then Unescape(line[j + 1]) else line[j];
      ReadRound(line[j..]);
      assert line[j..][taken..] == line[j + taken..];
      Assoc(value, [c], ReadValue(line[j + taken..]).0);
      value := value + [c];
      j := j + taken;
    }
    ReadStops(line[j..]);
    Assoc(value, "", "");
  }

  lemma Assoc(a: string, b: string, c: string)
    ensures a + (b + c) == (a + b) + c && "" + c == c == c + "" && a + "" == a
  {
  }

  lemma ReadRound(s: string)
    requires s != "" && s[0] != '"'
    ensures var taken := if s[0] == '\\' && |s| > 1 then 2 else 1;
            var c := if taken == 2 then Unescape(s[1]) else s[0];
            ReadValue(s) == ([c] + ReadValue(s[taken..]).0, ReadValue(s[taken..]).1)
  {
  }

  lemma ReadStops(s: string)
    requires s == "" || s[0] == '"'
    ensures ReadValue(s) == ("", s)
  {
  }

  /** The loop over separators. */
  method SkipLoop(line: string, start: nat) returns (i: nat)
    requires start <= |line|
    ensures start <= i <= |line| && line[i..] == SkipSeparators(line[start..])
  {
    i := start;
    while i < |line| && IsSeparator(line[i])
      invariant start <= i <= |line| && SkipSeparators(line[start..]) == SkipSeparators(line[i..])
    {
      assert line[i..][1..] == line[i + 1..];
      i := i + 1;
    }
  }

  /** The loop to the end of a key. */
  method KeyLoop(line: string, start: nat) returns (j: nat)
    requires start <= |line|
    ensures start <= j <= |line| && KeyLength(line[start..]) == j - start
  {
    j := start;
    while j < |line| && !EndsKey(line[j])
      invariant start <= j <= |line| && KeyLength(line[start..]) == j - start + KeyLength(line[j..])
    {
      assert line[j..][1..] == line[j + 1..];
      j := j + 1;
    }
  }

  /** One round of the parser, in terms of the separator-free text `t` and its key length `k`. */
  lemma ParseSetRound(labels: map<string, string>, s: string, t: string, k: nat)
    requires s != "" && t == SkipSeparators(s) && k == KeyLength(t)
    ensures ParseSet(labels, s) ==
              if t != "" && t[0] == '}' then Parsed(labels, t[1..])
              else if k >= |t| || t[k] != '=' then Malformed(BadSet)
              else if k + 1 >= |t| || t[k + 1] != '"' then Malformed(NotQuoted)
              else
                var (value, rest) := ReadValue(t[k + 2..]);
                if rest == "" then Malformed(UnterminatedValue)
                else ParseSet(labels[Strip(t[..k]) := value], rest[1..])
  {
    hide Strip, KeyLength, ReadValue, SkipSeparators;
  }

  lemma Slices(line: string, i: nat, j: nat)
    requires i <= j <= |line|
    ensures line[i..][j - i..] == line[j..] && line[i..][..j - i] == line[i..j]
    ensures j < |line| ==> line[i..][j - i] == line[j] && line[j..][0] == line[j] && line[j..][1..] == line[j + 1..]
  {
  }

  /** The outcome raised or returned for a parse, as an index into the line. */
  ghost predicate Reports(r: Outcome, p: Parsed, line: string) {
    match p
    case Parsed(labels, rest) => r.Done? && r.labels == labels && r.next <= |line| && line[r.next..] == rest
    case Malformed(error) => r == Raised(error)
  }

  /** Where a round of the parser stands: past the separators at `i`, at the end of the key at `j`. */
  ghost predicate Scanned(line: string, start: nat, i: nat, j: nat) {
    && start < |line| && start <= i <= j <= |line|
    && line[i..] == SkipSeparators(line[start..]) && KeyLength(line[i..]) == j - i
  }

  lemma RoundFails(labels: map<string, string>, line: string, start: nat, i: nat, j: nat)
    requires Scanned(line, start, i, j) && !(i < |line| && line[i] == '}')
    ensures j >= |line| || line[j] != '=' ==>
              Reports(Raised(BadSet), ParseSet(labels, line[start..]), line)
    ensures j + 1 == |line| || (j + 1 < |line| && line[j + 1] != '"') ==> line[j] == '=' ==>
              Reports(Raised(NotQuoted), ParseSet(labels, line[start..]), line)
  {
    hide Strip, KeyLength, ReadValue, SkipSeparators;
    Slices(line, i, j);
    if j + 1 <= |line| { Slices(line, i, j + 1); }
  }

  lemma RoundReads(labels: map<string, string>, line: string, start: nat, i: nat, j: nat, value: string, end: nat)
    requires Scanned(line, start, i, j) && line[i..] != "" && line[i] != '}'
    requires j + 1 < |line| && line[j] == '=' && line[j + 1] == '"'
    requires end <= |line| && ReadValue(line[j + 2..]) == (value, line[end..])
    ensures end == |line| ==> Reports(Raised(UnterminatedValue), ParseSet(labels, line[start..]), line)
    ensures end < |line| ==>
              ParseSet(labels, line[start..]) == ParseSet(labels[Strip(line[i..j]) := value], line[end + 1..])
  {
    ParseSetRound(labels, line[start..], line[i..], j - i);
    hide *;
    Slices(line, i, j);
    Slices(line, i, j + 1);
    Slices(line, i, j + 2);
    Slices(line, i, i);
    Slices(line, end, end);
    RaisedIs(UnterminatedValue, line);
  }

  /** One round of the outer loop: either an outcome, or one more label and the index after its quote. */
  method ParseLabel(line: string, start: nat, labels: map<string, string>)
    returns (outcome: Outcome, more: bool, key: string, value: string, next: nat)
    requires start < |line|
    ensures if more then start < next <= |line|
                         && ParseSet(labels, line[start..]) == ParseSet(labels[key := value], line[next..])
            else Reports(outcome, ParseSet(labels, line[start..]), line)
  {
    hide *;
    var n := |line|;
    outcome, more, key, value, next := Raised(UnterminatedSet), false, "", "", start;
    var i := SkipLoop(line, start);
    if i < n && line[i] == '}' {
      RoundCloses(labels, line, start, i);
      return Done(labels, i + 1), false, key, value, next;
    }
    var j := KeyLoop(line, i);
    assert Scanned(line, start, i, j) by { ScannedIs(line, start, i, j); }
    RoundFails(labels, line, start, i, j);
    if j >= n || line[j] != '=' {
      return Raised(BadSet), false, key, value, next;
    }
    if j + 1 >= n || line[j + 1] != '"' {
      return Raised(NotQuoted), false, key, value, next;
    }
    value, next := ReadQuoted(line, j + 2);
    RoundReads(labels, line, start, i, j, value, next);
    if next >= n {
      return Raised(UnterminatedValue), false, key, value, next;
    }
    key := Strip(line[i..j]);
    more, next := true, next + 1;
  }

  lemma ScannedIs(line: string, start: nat, i: nat, j: nat)
    requires start < |line| && start <= i <= j <= |line|
    requires line[i..] == SkipSeparators(line[start..]) && KeyLength(line[i..]) == j - i
    ensures Scanned(line, start, i, j)
  {
  }

  lemma RoundCloses(labels: map<string, string>, line: string, start: nat, i: nat)
    requires start <= i < |line| && line[i..] == SkipSeparators(line[start..]) && line[i] == '}'
    ensures Reports(Done(labels, i + 1), ParseSet(labels, line[start..]), line)
  {
    hide Strip, KeyLength, ReadValue, SkipSeparators;
    Slices(line, i, i);
  }

  lemma RaisedIs(error: Error, line: string)
    ensures Reports(Raised(error), Malformed(error), line)
  {
  }

  /** Parse the label set whose brace is `line[start]`. */
  method ParseLabels(line: string, start: nat) returns (r: Outcome)
    requires start < |line|
    ensures Reports(r, ParseSet(map[], line[start + 1..]), line)
  {
    hide *;
    var labels := map[];
    var i := start + 1;
    while i < |line|
      invariant start < i <= |line|
      invariant ParseSet(map[], line[start + 1..]) == ParseSet(labels, line[i..])
      decreases |line| - i
    {
      var outcome, more, key, value, next := ParseLabel(line, i, labels);
      if !more {
        return outcome;
      }
      labels := labels[key := value];
      i := next;
    }
    assert line[i..] == "";
    EndOfLine(labels);
    RaisedIs(UnterminatedSet, line);
    return Raised(UnterminatedSet);
  }

  lemma EndOfLine(labels: map<string, string>)
    ensures ParseSet(labels, "") == Malformed(UnterminatedSet)
  {
  }
}
