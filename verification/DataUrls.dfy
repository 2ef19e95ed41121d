/** Base64 data URLs (section 3 of RFC 2397), as the two translators build and split them. */
module DataUrls {
  import opened Text

  const SCHEME := "data:"
  const BASE64 := ";base64,"

  function Build(mediaType: string, data: string): string {
    SCHEME + mediaType + BASE64 + data
  }

  /** `str.replace(pat, "")`. */
  function RemoveAll(s: string, pat: string): (r: string)
    requires pat != ""
    ensures |r| <= |s|
    decreases |s|
  {
    var at := Find(s, pat, 0);
    if at == -1 then s else s[..at] + RemoveAll(s[at + |pat|..], pat)
  }

  datatype Split = NotTwo | Two(header: string, data: string)

  /** `url.split(";base64,")` unpacked into two. */
  function SplitUrl(url: string): Split {
    var at := Find(url, BASE64, 0);
    if at == -1 then NotTwo
    else
      var rest := url[at + |BASE64|..];
      if Find(rest, BASE64, 0) != -1 then NotTwo else Two(url[..at], rest)
  }

  datatype Image = NoImage | Image(mediaType: string, data: string)

  /** The image a URL holds, or none when the translator skips it. */
  function Parse(url: string): Image {
    if !StartsWith(url, "data:image/") then NoImage
    else match SplitUrl(url)
         case NotTwo => NoImage
         case Two(header, data) => Image(RemoveAll(header, SCHEME), data)
  }

  /** The images that survive: an `image/` type without the two markers, and data without the separator. */
  ghost predicate Clean(mediaType: string, data: string) {
    && StartsWith(mediaType, "image/") && !Contains(mediaType, BASE64) && !Contains(mediaType, SCHEME)
    && !Contains(data, BASE64)
  }

  lemma {:induction false} RemoveNothing(s: string, pat: string)
    requires pat != ""
    ensures RemoveAll(s, pat) == s <==> !Contains(s, pat)
  {
    FindMeansContains(s, pat);
    hide Find, Contains;
    var at := Find(s, pat, 0);
    if at != -1 {
      assert |RemoveAll(s, pat)| < |s|;
    }
  }

  /** No occurrence of `pat` begins inside `a` when `pat`'s first character is neither there nor repeated in it. */
  lemma BeginsLater(a: string, b: string, pat: string, k: int)
    requires pat != "" && pat[0] !in a && OccursAt(a + b, pat, k)
    ensures k >= |a|
  {
    assert (a + b)[k] == (a + b)[k..k + |pat|][0];
  }

  lemma ContainsAfter(a: string, b: string, pat: string)
    requires pat != "" && pat[0] !in a
    ensures Contains(a + b, pat) <==> Contains(b, pat)
  {
    if Contains(a + b, pat) {
      var k :| OccursAt(a + b, pat, k);
      BeginsLater(a, b, pat, k);
      OccursInSuffix(a + b, pat, |a|, k);
      assert (a + b)[|a|..] == b;
      assert OccursAt(b, pat, k - |a|);
    }
    if Contains(b, pat) {
      var k :| OccursAt(b, pat, k);
      assert (a + b)[|a|..] == b;
      OccursInSuffix(a + b, pat, |a|, |a| + k);
      assert OccursAt(a + b, pat, |a| + k);
    }
  }

  lemma OccursChar(s: string, pat: string, k: int, i: nat)
    requires OccursAt(s, pat, k) && i < |pat|
    ensures s[k + i] == pat[i]
  {
    assert s[k + i] == s[k..k + |pat|][i];
  }

  /** A separator in `head + BASE64 + data` lies in the head, is the one between, or lies in the data. */
  lemma SeparatorPlaces(head: string, data: string, k: int)
    requires OccursAt(head + BASE64 + data, BASE64, k)
    ensures k + |BASE64| <= |head| || k == |head| || k >= |head| + |BASE64|
    ensures k + |BASE64| <= |head| ==> OccursAt(head, BASE64, k)
  {
    var url := head + BASE64 + data;
    assert url == head + (BASE64 + data);
    if k + |BASE64| <= |head| {
      OccursExtends(head, BASE64 + data, BASE64, k);
    } else if |head| < k < |head| + |BASE64| {
      OccursChar(url, BASE64, k, 0);
    } else if k < |head| {
      OccursChar(url, BASE64, k, |head| - k);
    }
  }

  lemma SeparatorStands(head: string, data: string)
    ensures var url := head + BASE64 + data;
            OccursAt(url, BASE64, |head|) && url[|head| + |BASE64|..] == data && url[..|head|] == head
  {
    var url := head + BASE64 + data;
    assert url[|head|..|head| + |BASE64|] == BASE64;
  }

  lemma SplitCleanHead(head: string, data: string)
    requires !Contains(head, BASE64)
    ensures Find(head + BASE64 + data, BASE64, 0) == |head|
  {
    var url := head + BASE64 + data;
    SeparatorStands(head, data);
    forall k: int | 0 <= k < |head| ensures !OccursAt(url, BASE64, k) {
      if OccursAt(url, BASE64, k) { SeparatorPlaces(head, data, k); }
    }
    hide OccursAt;
    FindIs(url, BASE64, 0, |head|);
  }

  /** A separator in the head comes first, and leaves another one after it. */
  lemma SplitDirtyHead(head: string, data: string)
    requires Contains(head, BASE64)
    ensures SplitUrl(head + BASE64 + data) == NotTwo
  {
    hide *;
    var url := head + BASE64 + data;
    SeparatorStands(head, data);
    FindMeansContains(head, BASE64);
    assert url == head + (BASE64 + data);
    FindExtends(head, BASE64 + data, BASE64);
    var at := Find(url, BASE64, 0);
    OccursInSuffix(url, BASE64, at + |BASE64|, |head|);
    SecondSeparator(url, at, |head|);
  }

  /** A separator after the first one makes the split yield more than two parts. */
  lemma SecondSeparator(url: string, at: int, next: nat)
    requires Find(url, BASE64, 0) == at != -1 && at + |BASE64| <= next
    requires OccursAt(url[at + |BASE64|..], BASE64, next - (at + |BASE64|))
    ensures SplitUrl(url) == NotTwo
  {
    hide Find, OccursAt;
    FindMeansContains(url[at + |BASE64|..], BASE64);
  }

  /** Splitting a built URL finds its parts exactly when neither holds the separator. */
  lemma SplitBuilt(head: string, data: string)
    ensures SplitUrl(head + BASE64 + data)
            == if !Contains(head, BASE64) && !Contains(data, BASE64) then Two(head, data) else NotTwo
  {
    if Contains(head, BASE64) {
      SplitDirtyHead(head, data);
    } else {
      SplitCleanHead(head, data);
      SeparatorStands(head, data);
      FindMeansContains(data, BASE64);
    }
  }

  /** Building and parsing a data URL gives the image back exactly when it is clean. */
  lemma DataUrlRoundTrip(mediaType: string, data: string)
    ensures Parse(Build(mediaType, data)) == Image(mediaType, data) <==> Clean(mediaType, data)
  {
    var head := SCHEME + mediaType;
    var url := Build(mediaType, data);
    SplitBuilt(head, data);
    ContainsAfter(SCHEME, mediaType, BASE64);
    RemoveScheme(mediaType);
    RemoveNothing(mediaType, SCHEME);
    StartsAfterScheme(mediaType, data);
    hide SplitUrl, RemoveAll, Contains, StartsWith;
  }

  // ------------------------------------------------------------------ any URL

  /** The pieces with `pat` between them. */
  function Between(pieces: seq<string>, pat: string): string {
    if pieces == [] then "" else if |pieces| == 1 then pieces[0] else pieces[0] + pat + Between(pieces[1..], pat)
  }

  function Concat(pieces: seq<string>): string {
    if pieces == [] then "" else pieces[0] + Concat(pieces[1..])
  }

  /** Removing takes out exactly the markers between pieces that hold none. */
  lemma {:induction false} RemoveAllMeans(s: string, pat: string) returns (pieces: seq<string>)
    requires pat != ""
    ensures pieces != [] && s == Between(pieces, pat) && RemoveAll(s, pat) == Concat(pieces)
    ensures forall i :: 0 <= i < |pieces| ==> !Contains(pieces[i], pat)
    decreases |s|
  {
    FindMeansContains(s, pat);
    hide Find;
    var at := Find(s, pat, 0);
    if at == -1 {
      pieces := [s];
      assert [s][1..] == [] && s + "" == s;
    } else {
      var more := RemoveAllMeans(s[at + |pat|..], pat);
      pieces := [s[..at]] + more;
      NothingBefore(s, pat, at);
      assert pieces[1..] == more;
      assert s == s[..at] + s[at..at + |pat|] + s[at + |pat|..];
    }
  }

  lemma NothingBefore(s: string, pat: string, at: nat)
    requires pat != "" && OccursAt(s, pat, at) && forall k :: 0 <= k < at ==> !OccursAt(s, pat, k)
    ensures !Contains(s[..at], pat)
  {
    assert s[..at] + s[at..] == s;
    forall k: int ensures !OccursAt(s[..at], pat, k) {
      if 0 <= k && k + |pat| <= at {
        OccursExtends(s[..at], s[at..], pat, k);
      }
    }
  }

  /**
    A URL holds an image exactly when it begins with `data:image/` and has one separator; the data
    is what follows it, the media type what precedes it without the scheme wherever it stands.
   */
  lemma ParseMeans(url: string, head: string, data: string)
    ensures (StartsWith(url, "data:image/") && url == head + BASE64 + data
             && !Contains(head, BASE64) && !Contains(data, BASE64)) ==>
              Parse(url) == Image(RemoveAll(head, SCHEME), data)
    ensures Parse(url).Image? ==>
              StartsWith(url, "data:image/")
              && exists h, d :: url == h + BASE64 + d && !Contains(h, BASE64) && !Contains(d, BASE64)
  {
    SplitBuilt(head, data);
    if SplitUrl(url).Two? {
      SplitIsTwo(url);
    }
    hide SplitUrl, RemoveAll, Contains, StartsWith;
  }

  lemma SplitIsTwo(url: string)
    requires SplitUrl(url).Two?
    ensures var t := SplitUrl(url);
            url == t.header + BASE64 + t.data && !Contains(t.header, BASE64) && !Contains(t.data, BASE64)
  {
    var at := Find(url, BASE64, 0);
    FindMeansContains(url[at + |BASE64|..], BASE64);
    hide Find;
    NothingBefore(url, BASE64, at);
    assert url == url[..at] + url[at..at + |BASE64|] + url[at + |BASE64|..];
  }

  lemma RemoveScheme(mediaType: string)
    ensures RemoveAll(SCHEME + mediaType, SCHEME) == RemoveAll(mediaType, SCHEME)
  {
    var s := SCHEME + mediaType;
    assert s[0..|SCHEME|] == SCHEME;
    FindIs(s, SCHEME, 0, 0);
    assert s[|SCHEME|..] == mediaType;
    hide Find;
    assert s[..0] + RemoveAll(mediaType, SCHEME) == RemoveAll(mediaType, SCHEME);
  }

  lemma StartsAfterScheme(mediaType: string, data: string)
    ensures StartsWith(Build(mediaType, data), "data:image/") <==> StartsWith(mediaType, "image/")
  {
    var tail := mediaType + BASE64 + data;
    var url := Build(mediaType, data);
    assert url == SCHEME + tail;
    assert |tail| >= 6 ==> url[..11] == SCHEME + tail[..6];
    assert "data:image/" == SCHEME + "image/";
    assert tail[|mediaType|] == ';';
    if StartsWith(url, "data:image/") {
      assert tail[..6] == url[..11][5..] == "image/";
      assert tail[..6] == mediaType[..6];
    }
    if StartsWith(mediaType, "image/") {
      assert tail[..6] == mediaType[..6];
    }
  }
}
