/** The label sets the gateway's parser reads, and the errors it raises, for any text at all. */
module LabelGrammar {
  import opened Text
  import opened PromLabels

  // ------------------------------------------------------------------ quoted values

  /** A character of a value as written: itself, or one after a backslash. */
  datatype Mark = Plain(c: char) | Escaped(c: char)

  predicate GoodMarks(marks: seq<Mark>) {
    forall i :: 0 <= i < |marks| && marks[i].Plain? ==> marks[i].c != '"' && marks[i].c != '\\'
  }

  function Spell(marks: seq<Mark>): string {
    if marks == [] then ""
    else (match marks[0]
          case Plain(c) => [c]
          case Escaped(c) => ['\\', c]) + Spell(marks[1..])
  }

  /** `\n` means a newline, and a backslash before anything else goes. */
  function Mean(marks: seq<Mark>): string {
    if marks == [] then ""
    else [if marks[0] == Escaped('n') then '\n' else marks[0].c] + Mean(marks[1..])
  }

  /** A value is read mark by mark up to the closing quote; only at the end of the text can a backslash stand alone. */
  lemma {:induction false} ValueIsMarks(s: string) returns (marks: seq<Mark>, lone: string)
    ensures GoodMarks(marks) && s == Spell(marks) + lone + ReadValue(s).1 && ReadValue(s).0 == Mean(marks) + lone
    ensures ReadValue(s).1 != "" ==> ReadValue(s).1[0] == '"' && lone == ""
    ensures lone == "" || lone == "\\"
    decreases |s|
  {
    if s == "" || s[0] == '"' {
      marks, lone := [], "";
      assert s == "" + "" + s;
    } else if s[0] == '\\' && |s| > 1 {
      var rest;
      rest, lone := ValueIsMarks(s[2..]);
      marks := [Escaped(s[1])] + rest;
      AddMark(Escaped(s[1]), rest, lone, ReadValue(s[2..]).1);
      assert s == ['\\', s[1]] + s[2..];
    } else if s[0] == '\\' {
      marks, lone := [], "\\";
      assert s == "\\" && s[1..] == "";
      assert ReadValue(s[1..]) == ("", "");
    } else {
      var rest;
      rest, lone := ValueIsMarks(s[1..]);
      marks := [Plain(s[0])] + rest;
      AddMark(Plain(s[0]), rest, lone, ReadValue(s[1..]).1);
      assert s == [s[0]] + s[1..];
    }
  }

  lemma AddMark(m: Mark, marks: seq<Mark>, lone: string, after: string)
    requires GoodMarks(marks) && (m.Plain? ==> m.c != '"' && m.c != '\\')
    ensures GoodMarks([m] + marks)
    ensures var w := match m
                     case Plain(c) => [c]
                     case Escaped(c) => ['\\', c];
            Spell([m] + marks) + lone + after == w + (Spell(marks) + lone + after)
    ensures Mean([m] + marks) + lone == [if m == Escaped('n') then '\n' else m.c] + (Mean(marks) + lone)
  {
    assert ([m] + marks)[1..] == marks;
  }

  // ------------------------------------------------------------------ label sets

  /** A label as written, with the blanks and commas before it. */
  datatype Item = Item(blanks: string, key: string, marks: seq<Mark>)

  predicate AllBlank(s: string) { forall i :: 0 <= i < |s| ==> s[i] in " \t," }

  /** A key as written: no `=` or `}` in it, and no blank or comma at its beginning. */
  predicate KeyText(key: string) {
    (forall i :: 0 <= i < |key| ==> key[i] != '=' && key[i] != '}') && (key != "" ==> key[0] !in " \t,")
  }

  predicate GoodItem(item: Item) { AllBlank(item.blanks) && KeyText(item.key) && GoodMarks(item.marks) }

  function Written(item: Item): string { item.blanks + item.key + "=\"" + Spell(item.marks) + "\"" }

  function AllWritten(items: seq<Item>): string {
    if items == [] then "" else Written(items[0]) + AllWritten(items[1..])
  }

  /** The labels they stand for, a later one of the same key taking the place of an earlier. */
  function Meant(labels: map<string, string>, items: seq<Item>): map<string, string>
    decreases |items|
  {
    if items == [] then labels else Meant(labels[Strip(items[0].key) := Mean(items[0].marks)], items[1..])
  }

  /** What may follow the labels: the closing brace; or what makes each error. */
  ghost predicate Ends(tail: string, blanks: string, key: string, marks: seq<Mark>, more: string,
                       labels: map<string, string>, outcome: Parsed) {
    && AllBlank(blanks) && KeyText(key) && GoodMarks(marks)
    && match outcome
       case Parsed(found, rest) => tail == blanks + "}" + rest && found == labels
       case Malformed(UnterminatedSet) => tail == ""
       case Malformed(BadSet) =>
         tail == blanks + key + more && tail != "" && (more == "" || (more[0] == '}' && key != ""))
       case Malformed(NotQuoted) => tail == blanks + key + "=" + more && (more == "" || more[0] != '"')
       case Malformed(UnterminatedValue) =>
         tail == blanks + key + "=\"" + Spell(marks) + more && (more == "" || more == "\\")
  }

  lemma {:induction false} BlanksOf(s: string) returns (blanks: string)
    ensures AllBlank(blanks) && s == blanks + SkipSeparators(s)
  {
    if s != "" && IsSeparator(s[0]) {
      var rest := BlanksOf(s[1..]);
      blanks := [s[0]] + rest;
    } else {
      blanks := "";
    }
  }

  lemma BlankIs(c: char)
    ensures c in " \t," <==> IsSeparator(c)
  {
  }

  lemma KeyOf(s: string)
    ensures var t := SkipSeparators(s);
            && KeyText(t[..KeyLength(t)])
            && (KeyLength(t) < |t| ==> t[KeyLength(t)] == '=' || t[KeyLength(t)] == '}')
  {
    var t := SkipSeparators(s);
    var k := KeyLength(t);
    var key := t[..k];
    if t != "" {
      BlankIs(t[0]);
    }
    forall i | 0 <= i < k ensures key[i] != '=' && key[i] != '}' {
      assert !EndsKey(t[i]);
    }
    hide SkipSeparators, KeyLength;
    assert k < |t| ==> EndsKey(t[k]);
    if key != "" {
      assert key[0] == t[0] && !IsSeparator(t[0]);
    }
    KeyTextIs(key);
  }

  lemma KeyTextIs(key: string)
    requires forall i :: 0 <= i < |key| ==> key[i] != '=' && key[i] != '}'
    requires key != "" ==> !IsSeparator(key[0])
    ensures KeyText(key)
  {
    if key != "" {
      BlankIs(key[0]);
    }
  }

  /**
    Any text after the opening brace is some labels as written and then what ends them, and the parser's
    outcome is what that says: the labels meant and the text after the brace, or the error.
   */
  lemma {:induction false} OutcomeIsWritten(labels: map<string, string>, s: string)
    returns (items: seq<Item>, tail: string, blanks: string, key: string, marks: seq<Mark>, more: string)
    ensures s == AllWritten(items) + tail && forall i :: 0 <= i < |items| ==> GoodItem(items[i])
    ensures Ends(tail, blanks, key, marks, more, Meant(labels, items), ParseSet(labels, s))
    decreases |s|
  {
    hide *;
    items, tail, blanks, key, marks, more := [], s, "", "", [], "";
    if s == "" {
      NothingWritten(labels);
      return;
    }
    var t := SkipSeparators(s);
    var k := KeyLength(t);
    ParseSetRound(labels, s, t, k);
    blanks := BlanksOf(s);
    KeyOf(s);
    assert "" + s == s;
    if t != "" && t[0] == '}' {
      assert t == "}" + t[1..];
      Closed(labels, s, blanks, t[1..]);
      return;
    }
    key := t[..k];
    if k >= |t| || t[k] != '=' {
      more := t[k..];
      assert t == key + more;
      BadlyEnded(labels, s, blanks, key, more);
      return;
    }
    if k + 1 >= |t| || t[k + 1] != '"' {
      more := t[k + 1..];
      assert t == key + "=" + more;
      Unquoted(labels, s, blanks, key, more);
      return;
    }
    assert t == key + "=\"" + t[k + 2..];
    var rest := ReadValue(t[k + 2..]).1;
    marks, more := ValueIsMarks(t[k + 2..]);
    if rest == "" {
      Unclosed(labels, s, blanks, key, marks, more, t[k + 2..]);
      return;
    }
    var item, next := Item(blanks, key, marks), labels[Strip(key) := Mean(marks)];
    assert Mean(marks) + "" == Mean(marks);
    assert ParseSet(labels, s) == ParseSet(next, rest[1..]);
    var later;
    later, tail, blanks, key, marks, more := OutcomeIsWritten(next, rest[1..]);
    items := [item] + later;
    GoodOne(item);
    MoreWritten(item, later, tail, s, t[k + 2..], rest);
    MoreMeant(labels, item, later);
  }

  lemma GoodOne(item: Item)
    ensures GoodItem(item) <==> AllBlank(item.blanks) && KeyText(item.key) && GoodMarks(item.marks)
  {
    hide AllBlank, KeyText, GoodMarks;
  }

  lemma NothingWritten(labels: map<string, string>)
    ensures "" == AllWritten([]) + "" && ParseSet(labels, "") == Malformed(UnterminatedSet)
    ensures Ends("", "", "", [], "", Meant(labels, []), ParseSet(labels, ""))
  {
  }

  lemma Closed(labels: map<string, string>, s: string, blanks: string, rest: string)
    requires AllBlank(blanks) && s == blanks + ("}" + rest)
    ensures s == AllWritten([]) + s && Ends(s, blanks, "", [], "", Meant(labels, []), Parsed(labels, rest))
  {
    assert blanks + ("}" + rest) == blanks + "}" + rest;
    assert "" + s == s;
  }

  lemma BadlyEnded(labels: map<string, string>, s: string, blanks: string, key: string, more: string)
    requires AllBlank(blanks) && KeyText(key) && s == blanks + (key + more) && s != ""
    requires more == "" || (more[0] == '}' && key != "")
    ensures s == AllWritten([]) + s && Ends(s, blanks, key, [], more, Meant(labels, []), Malformed(BadSet))
  {
    assert blanks + (key + more) == blanks + key + more;
    assert "" + s == s;
  }

  lemma Unquoted(labels: map<string, string>, s: string, blanks: string, key: string, more: string)
    requires AllBlank(blanks) && KeyText(key) && s == blanks + (key + "=" + more) && (more == "" || more[0] != '"')
    ensures s == AllWritten([]) + s && Ends(s, blanks, key, [], more, Meant(labels, []), Malformed(NotQuoted))
  {
    assert blanks + (key + "=" + more) == blanks + key + "=" + more;
    assert "" + s == s;
  }

  lemma Unclosed(labels: map<string, string>, s: string, blanks: string, key: string, marks: seq<Mark>, more: string,
                 value: string)
    requires AllBlank(blanks) && KeyText(key) && GoodMarks(marks) && s == blanks + (key + "=\"" + value)
    requires value == Spell(marks) + more + "" && (more == "" || more == "\\")
    ensures s == AllWritten([]) + s
    ensures Ends(s, blanks, key, marks, more, Meant(labels, []), Malformed(UnterminatedValue))
  {
    hide Spell;
    assert value == Spell(marks) + more;
    assert blanks + (key + "=\"" + (Spell(marks) + more)) == blanks + key + "=\"" + Spell(marks) + more;
    assert "" + s == s;
  }

  lemma MoreWritten(item: Item, later: seq<Item>, tail: string, s: string, value: string, rest: string)
    requires s == item.blanks + (item.key + "=\"" + value) && value == Spell(item.marks) + "" + rest
    requires rest != "" && rest[0] == '"' && rest[1..] == AllWritten(later) + tail
    ensures s == AllWritten([item] + later) + tail
  {
    hide *;
    AllWrittenUnfolds(item, later);
    WrittenIs(item);
    var marks, more := Spell(item.marks), AllWritten(later) + tail;
    assert rest == "\"" + more;
    assert value == marks + ("\"" + more);
    Assemble(item.blanks, item.key, marks, more);
    assert Written(item) + AllWritten(later) + tail == Written(item) + more;
  }

  lemma AllWrittenUnfolds(item: Item, later: seq<Item>)
    ensures AllWritten([item] + later) == Written(item) + AllWritten(later)
  {
    hide Written;
    assert ([item] + later)[1..] == later;
  }

  lemma WrittenIs(item: Item)
    ensures Written(item) == item.blanks + item.key + "=\"" + Spell(item.marks) + "\""
  {
    hide Spell;
  }

  lemma Assemble(blanks: string, key: string, marks: string, more: string)
    ensures blanks + (key + "=\"" + (marks + ("\"" + more))) == (blanks + key + "=\"" + marks + "\"") + more
  {
  }

  lemma MoreMeant(labels: map<string, string>, item: Item, later: seq<Item>)
    ensures Meant(labels, [item] + later) == Meant(labels[Strip(item.key) := Mean(item.marks)], later)
  {
    hide Strip, Mean;
    assert ([item] + later)[1..] == later;
  }
}
