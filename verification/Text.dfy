/** String searching as the source's `str.find` does it. */
module Text {

  predicate StartsWith(s: string, prefix: string) {
    |prefix| <= |s| && s[..|prefix|] == prefix
  }

  /** `pat` stands in `s` at index `k`. */
  predicate OccursAt(s: string, pat: string, k: int) {
    0 <= k && k + |pat| <= |s| && s[k..k + |pat|] == pat
  }

  /** `pat` stands somewhere in `s`. */
  ghost predicate Contains(s: string, pat: string) {
    exists k :: OccursAt(s, pat, k)
  }

  /** The least index at or after `i` at which `pat` stands in `s`, or -1. */
  function Find(s: string, pat: string, i: nat): (r: int)
    ensures r == -1 || i <= r <= |s| - |pat|
    ensures r != -1 ==> OccursAt(s, pat, r)
    ensures forall k :: i <= k && (r == -1 || k < r) ==> !OccursAt(s, pat, k)
    decreases |s| - i
  {
    if i + |pat| > |s| then -1
    else if s[i..i + |pat|] == pat then i
    else Find(s, pat, i + 1)
  }

  /** `Find` is pinned down by its contract. */
  lemma FindIs(s: string, pat: string, i: nat, r: int)
    requires r == -1 || (i <= r && OccursAt(s, pat, r))
    requires forall k :: i <= k && (r == -1 || k < r) ==> !OccursAt(s, pat, k)
    ensures Find(s, pat, i) == r
  {
    hide Find;
    var q := Find(s, pat, i);
    assert q != -1 ==> OccursAt(s, pat, q);
  }

  lemma FindMeansContains(s: string, pat: string)
    ensures Find(s, pat, 0) == -1 <==> !Contains(s, pat)
  {
    hide Find;
    assert Find(s, pat, 0) != -1 ==> OccursAt(s, pat, Find(s, pat, 0));
  }

  lemma OccursInSuffix(s: string, pat: string, i: nat, k: nat)
    requires i <= k && i <= |s|
    ensures OccursAt(s, pat, k) == OccursAt(s[i..], pat, k - i)
  {
    if k + |pat| <= |s| {
      assert s[k..k + |pat|] == s[i..][k - i..k - i + |pat|];
    }
  }

  /** Searching from `i` is searching the suffix that starts at `i`. */
  lemma FindInSuffix(s: string, pat: string, i: nat)
    requires i <= |s|
    ensures Find(s, pat, i) == (var r := Find(s[i..], pat, 0); if r == -1 then -1 else i + r)
  {
    hide Find;
    var r := Find(s[i..], pat, 0);
    var q := if r == -1 then -1 else i + r;
    forall k: int | i <= k && (q == -1 || k < q) ensures !OccursAt(s, pat, k) {
      OccursInSuffix(s, pat, i, k);
    }
    if q != -1 {
      OccursInSuffix(s, pat, i, q);
    }
    FindIs(s, pat, i, q);
  }

  /** The first occurrence stays first when more text follows. */
  lemma FindExtends(a: string, b: string, pat: string)
    requires Find(a, pat, 0) != -1
    ensures Find(a + b, pat, 0) == Find(a, pat, 0)
  {
    hide Find;
    var r := Find(a, pat, 0);
    OccursExtends(a, b, pat, r);
    forall k | 0 <= k < r ensures !OccursAt(a + b, pat, k) {
      OccursExtends(a, b, pat, k);
    }
    FindIs(a + b, pat, 0, r);
  }

  lemma OccursExtends(a: string, b: string, pat: string, k: nat)
    requires k + |pat| <= |a|
    ensures OccursAt(a + b, pat, k) == OccursAt(a, pat, k)
  {
    assert (a + b)[k..k + |pat|] == a[k..k + |pat|];
  }

  /** `s` ends with the first `k` characters of `pat`. */
  predicate EndsWithPrefix(s: string, pat: string, k: nat) {
    k <= |s| && k <= |pat| && s[|s| - k..] == pat[..k]
  }

  /** Length of the longest prefix of `pat`, of at most `k` characters, that ends `s`. */
  function LongestHeld(s: string, pat: string, k: nat): (r: nat)
    requires k < |pat|
    ensures r <= k && EndsWithPrefix(s, pat, r)
    ensures forall j :: r < j <= k ==> !EndsWithPrefix(s, pat, j)
  {
    if k == 0 || EndsWithPrefix(s, pat, k) then k else LongestHeld(s, pat, k - 1)
  }

  /** An occurrence that reaches from `a` into `b` leaves a prefix of `pat` at the end of `a`. */
  lemma StraddleIsHeld(a: string, b: string, pat: string, j: nat)
    requires j < |a| < j + |pat|
    requires OccursAt(a + b, pat, j)
    ensures EndsWithPrefix(a, pat, |a| - j)
  {
    var n := |a| - j;
    assert pat[..n] == (a + b)[j..j + |pat|][..n] == a[j..];
  }

  /** Where `pat` can neither stand in `a` nor begin in its first `k` characters, search the rest. */
  lemma FindAfterRelease(a: string, b: string, pat: string, k: nat)
    requires k <= |a| && Find(a, pat, 0) == -1
    requires forall n :: |a| - k < n < |pat| ==> !EndsWithPrefix(a, pat, n)
    ensures Find(a + b, pat, 0) == (var r := Find(a[k..] + b, pat, 0); if r == -1 then -1 else k + r)
  {
    hide Find;
    assert (a + b)[k..] == a[k..] + b;
    FindInSuffix(a + b, pat, k);
    forall j: int | 0 <= j < k ensures !OccursAt(a + b, pat, j) {
      if j + |pat| <= |a| {
        OccursExtends(a, b, pat, j);
      } else if OccursAt(a + b, pat, j) {
        StraddleIsHeld(a, b, pat, j);
      }
    }
    var r := Find(a + b, pat, k);
    FindIs(a + b, pat, 0, r);
  }

  lemma EndsInSuffix(s: string, k: nat, pat: string, j: nat)
    requires k <= |s| && j <= |s| - k
    ensures EndsWithPrefix(s, pat, j) == EndsWithPrefix(s[k..], pat, j)
  {
    assert s[|s| - j..] == s[k..][|s| - k - j..];
  }

  lemma EndsInPrefix(a: string, b: string, pat: string, j: nat)
    requires |b| <= j && EndsWithPrefix(a + b, pat, j)
    ensures EndsWithPrefix(a, pat, j - |b|)
  {
    var n := j - |b|;
    assert pat[..n] == pat[..j][..n] == (a + b)[|a + b| - j..][..n] == a[|a| - n..];
  }

  lemma HeldAfterRelease(a: string, b: string, pat: string, k: nat, m: nat)
    requires k <= |a| && m < |pat|
    requires forall n :: |a| - k < n < |pat| ==> !EndsWithPrefix(a, pat, n)
    ensures LongestHeld(a + b, pat, m) == LongestHeld(a[k..] + b, pat, m)
  {
    hide LongestHeld;
    forall j: nat | j <= m
      ensures EndsWithPrefix(a + b, pat, j) == EndsWithPrefix(a[k..] + b, pat, j)
    {
      if j <= |a| - k + |b| {
        assert (a + b)[k..] == a[k..] + b;
        EndsInSuffix(a + b, k, pat, j);
      } else if EndsWithPrefix(a + b, pat, j) {
        EndsInPrefix(a, b, pat, j);
      }
    }
    var u, v := LongestHeld(a + b, pat, m), LongestHeld(a[k..] + b, pat, m);
    assert EndsWithPrefix(a + b, pat, u) && EndsWithPrefix(a[k..] + b, pat, v);
  }

  /** Whitespace as the source's `str.strip` sees it, for the ASCII range and no-break space. */
  predicate IsSpace(c: char) {
    c in " \t\n\r" || 0x0b as char <= c <= 0x0c as char || 0x1c as char <= c <= 0x1f as char
    || c == 0x85 as char || c == 0xa0 as char
  }

  /** `str.strip`: drop whitespace at both ends. */
  function Strip(s: string): (r: string)
    ensures r != "" ==> !IsSpace(r[0]) && !IsSpace(r[|r| - 1])
    ensures |r| <= |s|
  {
    if s != "" && IsSpace(s[0]) then Strip(s[1..])
    else if s != "" && IsSpace(s[|s| - 1]) then Strip(s[..|s| - 1])
    else s
  }

  /** What is dropped is whitespace, and nothing else. */
  lemma {:induction false} StripDrops(s: string) returns (front: string, back: string)
    ensures s == front + Strip(s) + back
    ensures forall i :: 0 <= i < |front| ==> IsSpace(front[i])
    ensures forall i :: 0 <= i < |back| ==> IsSpace(back[i])
    decreases |s|
  {
    hide *;
    StripUnfolds(s);
    front, back := "", "";
    if s != "" && IsSpace(s[0]) {
      front, back := StripDrops(s[1..]);
      front := [s[0]] + front;
      assert s == [s[0]] + s[1..];
    } else if s != "" && IsSpace(s[|s| - 1]) {
      front, back := StripDrops(s[..|s| - 1]);
      back := back + [s[|s| - 1]];
      assert s == s[..|s| - 1] + [s[|s| - 1]];
    }
  }

  lemma StripUnfolds(s: string)
    ensures Strip(s)
            == if s != "" && IsSpace(s[0]) then Strip(s[1..])
               else if s != "" && IsSpace(s[|s| - 1]) then Strip(s[..|s| - 1]) else s
  {
    hide IsSpace;
  }
}
