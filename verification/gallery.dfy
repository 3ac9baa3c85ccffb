/**
  Image URL normalisation and the Bayut gallery filter of app.py:
  `strip_query`, `find_all_image_urls`, `filter_property_images` and
  `extract_gallery_images`.

  The regular expression that finds candidate URLs in the raw page is not
  modelled: its matches, in the order `findall` returns them, are the input.
*/
module Gallery {
  import opened PyStr
  import opened StrOrder

  // ---------------------------------------------------------------------
  // strip_query: urlsplit then urlunsplit without query and fragment

  /** The characters `urlsplit` accepts in a scheme. */
  predicate IsSchemeChar(c: char) {
    IsAsciiLetter(c) || IsDigit(c) || c == '+' || c == '-' || c == '.'
  }

  function SchemeRun(u: string): (n: nat)
    ensures n <= |u|
    ensures forall i :: 0 <= i < n ==> IsSchemeChar(u[i])
    ensures n < |u| ==> !IsSchemeChar(u[n])
  {
    if u != [] && IsSchemeChar(u[0]) then 1 + SchemeRun(u[1..]) else 0
  }

  /**
    Length of the scheme `urlsplit` recognises: the text before the first
    ':' when it starts with an ASCII letter and has only scheme characters;
    0 when there is none.
  */
  function SchemeLen(u: string): (n: nat)
    ensures n <= |u|
    ensures n > 0 ==> n < |u| && u[n] == ':' && IsAsciiLetter(u[0])
    ensures forall i :: 0 <= i < n ==> IsSchemeChar(u[i])
  {
    var k := SchemeRun(u);
    if 0 < k < |u| && u[k] == ':' && IsAsciiLetter(u[0]) then k else 0
  }

  /** Index of the first '?' or '#', or the length when there is neither. */
  function QueryStart(s: string): (n: nat)
    ensures n <= |s|
    ensures forall i :: 0 <= i < n ==> s[i] != '?' && s[i] != '#'
    ensures n < |s| ==> s[n] == '?' || s[n] == '#'
  {
    if s != [] && s[0] != '?' && s[0] != '#' then 1 + QueryStart(s[1..]) else 0
  }

  /** Free of the characters that start a query or a fragment. */
  predicate QueryFree(s: string) {
    forall i :: 0 <= i < |s| ==> s[i] != '?' && s[i] != '#'
  }

  /**
    `strip_query(u)`: the URL up to its first '?' or '#', with the scheme
    lower-cased as `urlsplit` returns it.
  */
  function StripQuery(u: string): (r: string)
    ensures QueryFree(r)
    ensures SchemeLen(u) <= |r| <= |u|
    ensures r[..SchemeLen(u)] == Lower(u[..SchemeLen(u)])
    ensures r[SchemeLen(u)..] == u[SchemeLen(u)..|r|]
    ensures |r| < |u| ==> u[|r|] == '?' || u[|r|] == '#'
  {
    var n := SchemeLen(u);
    var rest := u[n..];
    Lower(u[..n]) + rest[..QueryStart(rest)]
  }

  /** Normalising twice is normalising once. */
  lemma StripQueryIdempotent(u: string)
    ensures StripQuery(StripQuery(u)) == StripQuery(u)
  {
    var n := SchemeLen(u);
    var rest := u[n..];
    var tail := rest[..QueryStart(rest)];
    var r := Lower(u[..n]) + tail;
    assert r == StripQuery(u);
    StrippedSchemeLen(u);
    assert r[..n] == Lower(u[..n]) && r[n..] == tail;
    LowerIdempotent(u[..n]);
    QueryStartOfFree(tail);
    assert tail[..|tail|] == tail;
  }

  /** Normalising keeps the length of the scheme. */
  lemma StrippedSchemeLen(u: string)
    ensures SchemeLen(StripQuery(u)) == SchemeLen(u)
  {
    if SchemeLen(u) > 0 {
      SchemeKept(u);
    } else {
      NoSchemeKept(u);
    }
  }

  lemma SchemeKept(u: string)
    requires SchemeLen(u) > 0
    ensures SchemeLen(StripQuery(u)) == SchemeLen(u)
  {
    var n := SchemeLen(u);
    var rest := u[n..];
    var scheme, tail := Lower(u[..n]), rest[..QueryStart(rest)];
    var r := scheme + tail;
    assert r == StripQuery(u);
    assert QueryStart(rest) > 0;
    assert r[n] == ':';
    assert forall i :: 0 <= i < n ==> r[i] == scheme[i] && IsSchemeChar(r[i]);
    SchemeRunPrefix(r, n);
  }

  lemma NoSchemeKept(u: string)
    requires SchemeLen(u) == 0
    ensures SchemeLen(StripQuery(u)) == 0
  {
    var tail := u[..QueryStart(u)];
    assert Lower(u[..0]) + tail == tail;
    assert StripQuery(u) == tail;
    var k := SchemeRun(u);
    assert QueryStart(u) >= k;
    if k < |tail| {
      SchemeRunPrefix(tail, k);
      assert tail[k] == u[k];
    } else {
      SchemeRunPrefix(tail, |tail|);
    }
  }

  lemma {:induction false} SchemeRunPrefix(s: string, n: nat)
    requires n <= |s|
    requires forall i :: 0 <= i < n ==> IsSchemeChar(s[i])
    requires n < |s| ==> !IsSchemeChar(s[n])
    ensures SchemeRun(s) == n
  {
    if n > 0 {
      SchemeRunPrefix(s[1..], n - 1);
    }
  }

  lemma {:induction false} QueryStartOfFree(s: string)
    requires QueryFree(s)
    ensures QueryStart(s) == |s|
  {
    if s != [] {
      QueryStartOfFree(s[1..]);
    }
  }

  /** Two URLs that differ only in their query string normalise to the same value. */
  lemma QueryIgnored(u: string, q: string)
    requires QueryFree(u)
    ensures StripQuery(u + "?" + q) == StripQuery(u)
    ensures StripQuery(u + "#" + q) == StripQuery(u)
  {
    QueryIgnoredAfter(u, '?', q);
    QueryIgnoredAfter(u, '#', q);
  }

  /** A URL `strip_query` leaves alone: no query or fragment, and a lower-case scheme. */
  predicate CleanUrl(u: string) {
    QueryFree(u) && Lower(u[..SchemeLen(u)]) == u[..SchemeLen(u)]
  }

  /** Scheme, host and path are kept: a URL without query or fragment comes back unchanged. */
  lemma StripQueryKeepsClean(u: string)
    requires CleanUrl(u)
    ensures StripQuery(u) == u
  {
    var n := SchemeLen(u);
    QueryStartOfFree(u[n..]);
    assert u[n..][..|u| - n] == u[n..];
    assert u[..n] + u[n..] == u;
  }

  /** Only the query and the fragment are dropped from a URL with a lower-case scheme. */
  lemma StripQueryDropsOnlyQuery(u: string, q: string)
    requires CleanUrl(u)
    ensures StripQuery(u + "?" + q) == u
    ensures StripQuery(u + "#" + q) == u
  {
    QueryIgnored(u, q);
    StripQueryKeepsClean(u);
  }

  lemma QueryIgnoredAfter(u: string, c: char, q: string)
    requires QueryFree(u)
    requires c == '?' || c == '#'
    ensures StripQuery(u + [c] + q) == StripQuery(u)
  {
    var v := u + [c] + q;
    assert v[..|u|] == u && v[|u|] == c;
    QueryIgnoredInExtension(u, v);
  }

  /** A URL that continues a query-free one with '?' or '#' normalises as that one does. */
  lemma QueryIgnoredInExtension(u: string, v: string)
    requires QueryFree(u)
    requires |v| > |u| && v[..|u|] == u && (v[|u|] == '?' || v[|u|] == '#')
    ensures StripQuery(v) == StripQuery(u)
  {
    SchemeLenOfExtension(u, v);
    var n := SchemeLen(u);
    QueryStartOfExtension(u, v, n);
    QueryStartOfFree(u[n..]);
    StripQueryCut(v, |u|);
    StripQueryCut(u, |u|);
    assert v[..n] == u[..n] && v[n..|u|] == u[n..|u|];
  }

  /** `strip_query` keeps the scheme, lower-cased, and the text up to the cut `QueryStart` finds. */
  lemma StripQueryCut(u: string, m: nat)
    requires SchemeLen(u) <= m <= |u| && QueryStart(u[SchemeLen(u)..]) == m - SchemeLen(u)
    ensures StripQuery(u) == Lower(u[..SchemeLen(u)]) + u[SchemeLen(u)..m]
  {
  }

  /** Appending a query or fragment does not change the scheme `urlsplit` sees. */
  lemma SchemeLenOfExtension(u: string, v: string)
    requires QueryFree(u)
    requires |v| > |u| && v[..|u|] == u && (v[|u|] == '?' || v[|u|] == '#')
    ensures SchemeLen(v) == SchemeLen(u)
  {
    var k := SchemeRun(u);
    assert forall i :: 0 <= i < |u| ==> v[i] == u[i];
    SchemeRunPrefix(v, k);
  }

  lemma QueryStartOfExtension(u: string, v: string, n: nat)
    requires QueryFree(u) && n <= |u|
    requires |v| > |u| && v[..|u|] == u && (v[|u|] == '?' || v[|u|] == '#')
    ensures QueryStart(v[n..]) == |u| - n
  {
    var w := v[n..];
    assert forall i :: 0 <= i < |u| - n ==> w[i] == u[n + i];
    assert w[|u| - n] == v[|u|];
    QueryStartAt(w, |u| - n);
  }

  lemma {:induction false} QueryStartAt(s: string, n: nat)
    requires n < |s| && (s[n] == '?' || s[n] == '#')
    requires forall i :: 0 <= i < n ==> s[i] != '?' && s[i] != '#'
    ensures QueryStart(s) == n
  {
    if n > 0 {
      QueryStartAt(s[1..], n - 1);
    }
  }

  // ---------------------------------------------------------------------
  // find_all_image_urls

  /** `strip_query` applied to every match. */
  function Normalize(matches: seq<string>): (r: seq<string>)
    ensures |r| == |matches|
    ensures forall i :: 0 <= i < |r| ==> r[i] == StripQuery(matches[i])
  {
    if matches == [] then []
    else Normalize(matches[..|matches| - 1]) + [StripQuery(matches[|matches| - 1])]
  }

  /** The list with every repeated element dropped after its first occurrence. */
  function Dedup(s: seq<string>): (r: seq<string>)
    ensures NoDup(r)
    ensures forall x :: x in r <==> x in s
  {
    if s == [] then []
    else
      var d := Dedup(s[..|s| - 1]);
      var x := s[|s| - 1];
      assert forall y :: y in s <==> y in s[..|s| - 1] || y == x by {
        assert s == s[..|s| - 1] + [x];
      }
      if x in d then d else d + [x]
  }

  /** `find_all_image_urls`, given the regular expression's matches in order. */
  method FindAllImageUrls(matches: seq<string>) returns (normalized: seq<string>)
    ensures normalized == Dedup(Normalize(matches))
  {
    normalized := [];
    var seen: set<string> := {};
    for i := 0 to |matches|
      invariant normalized == Dedup(Normalize(matches[..i]))
      invariant forall x :: x in seen <==> x in normalized
    {
      assert matches[..i + 1][..i] == matches[..i];
      var clean := StripQuery(matches[i]);
      if clean !in seen {
        seen := seen + {clean};
        normalized := normalized + [clean];
      }
    }
    assert matches[..|matches|] == matches;
  }

  /**
    The URLs `find_all_image_urls` returns are free of queries and
    fragments, listed once each, and include the normalised form of every
    match (and nothing else).
  */
  lemma FindAllFacts(matches: seq<string>)
    ensures var r := Dedup(Normalize(matches));
      && NoDup(r)
      && (forall i :: 0 <= i < |r| ==> QueryFree(r[i]))
      && (forall u :: u in r <==> exists m :: m in matches && StripQuery(m) == u)
  {
    var all := Normalize(matches);
    var r := Dedup(all);
    forall u ensures u in r <==> exists m :: m in matches && StripQuery(m) == u {
      if u in r {
        var i :| 0 <= i < |all| && all[i] == u;
        assert matches[i] in matches;
      }
      if exists m :: m in matches && StripQuery(m) == u {
        var m :| m in matches && StripQuery(m) == u;
        var i :| 0 <= i < |matches| && matches[i] == m;
        assert all[i] == u;
      }
    }
    forall i | 0 <= i < |r| ensures QueryFree(r[i]) {
      assert r[i] in all;
    }
  }

  /** Index of the first occurrence of `x` in `s`. */
  function FirstIndex(s: seq<string>, x: string): (i: nat)
    requires x in s
    ensures i < |s| && s[i] == x
    ensures forall j :: 0 <= j < i ==> s[j] != x
  {
    if s[0] == x then 0 else 1 + FirstIndex(s[1..], x)
  }

  lemma {:induction false} FirstIndexInPrefix(s: seq<string>, n: nat, x: string)
    requires n <= |s| && x in s[..n]
    ensures FirstIndex(s, x) == FirstIndex(s[..n], x)
  {
    var i := FirstIndex(s[..n], x);
    assert s[i] == x;
    FirstIndexAt(s, i, x);
  }

  lemma {:induction false} FirstIndexAt(s: seq<string>, i: nat, x: string)
    requires i < |s| && s[i] == x
    requires forall j :: 0 <= j < i ==> s[j] != x
    ensures FirstIndex(s, x) == i
  {
    if i > 0 {
      FirstIndexAt(s[1..], i - 1, x);
    }
  }

  /**
    Deduplication keeps first-seen order: an element listed earlier in the
    result first occurs earlier in the input.
  */
  lemma {:induction false} DedupFirstSeenOrder(s: seq<string>)
    ensures forall i, j :: 0 <= i < j < |Dedup(s)| ==>
      FirstIndex(s, Dedup(s)[i]) < FirstIndex(s, Dedup(s)[j])
  {
    if s != [] {
      var p := s[..|s| - 1];
      var x := s[|s| - 1];
      var d := Dedup(p);
      DedupFirstSeenOrder(p);
      forall y | y in d ensures FirstIndex(s, y) == FirstIndex(p, y) && FirstIndex(s, y) < |p| {
        FirstIndexInPrefix(s, |p|, y);
      }
      if x !in d {
        assert x !in p;
        FirstIndexAt(s, |p|, x);
      }
    }
  }

  /** A list without repetitions is its own deduplication. */
  lemma {:induction false} DedupOfNoDup(s: seq<string>)
    requires NoDup(s)
    ensures Dedup(s) == s
  {
    if s != [] {
      var p := s[..|s| - 1];
      DedupOfNoDup(p);
      assert s[|s| - 1] !in p;
      assert p + [s[|s| - 1]] == s;
    }
  }

  // ---------------------------------------------------------------------
  // filter_property_images

  /** Everything between `//` and the next '/', '?' or '#', after the scheme: `urlsplit(u).netloc`. */
  function Netloc(u: string): string {
    var n := SchemeLen(u);
    var rest := if n > 0 then u[n + 1..] else u;
    if |rest| >= 2 && rest[..2] == "//" then
      var h := rest[2..];
      h[..HostEnd(h)]
    else ""
  }

  /** Index of the first '/', '?' or '#', or the length when there is none. */
  function HostEnd(s: string): (n: nat)
    ensures n <= |s|
  {
    if s != [] && s[0] != '/' && s[0] != '?' && s[0] != '#' then 1 + HostEnd(s[1..]) else 0
  }

  const GallerySuffix: string := "-800x600.webp"

  /** `s` ends with a text that `re.IGNORECASE` matches against the literal `p`. */
  predicate EndsWithFolded(s: string, p: string) {
    |s| >= |p| && FoldsAll(s[|s| - |p|..], p)
  }

  /**
    `re.search(r"-800x600\.webp$", u, re.I)`: `$` matches at the very end and
    also just before a final newline.
  */
  predicate HasGallerySuffix(u: string) {
    || EndsWithFolded(u, GallerySuffix)
    || (|u| > 0 && u[|u| - 1] == '\n' && EndsWithFolded(u[..|u| - 1], GallerySuffix))
  }

  /** The test `filter_property_images` applies to each URL. */
  predicate IsPropertyImage(u: string) {
    Contains(Lower(Netloc(u)), "bayut") && HasGallerySuffix(u)
  }

  /** `a` is `b` with some elements removed, the rest kept in order. */
  predicate Subseq(a: seq<string>, b: seq<string>)
    decreases |b|
  {
    || a == []
    || (&& b != []
        && (|| Subseq(a, b[..|b| - 1])
            || (a[|a| - 1] == b[|b| - 1] && Subseq(a[..|a| - 1], b[..|b| - 1]))))
  }

  /** The URLs that pass the test, in their original order. */
  function KeepGallery(urls: seq<string>): (r: seq<string>)
    ensures forall x :: x in r <==> x in urls && IsPropertyImage(x)
    ensures Subseq(r, urls)
  {
    if urls == [] then []
    else
      var p := urls[..|urls| - 1];
      var x := urls[|urls| - 1];
      assert urls == p + [x];
      var k := KeepGallery(p);
      if IsPropertyImage(x) then
        assert (k + [x])[..|k|] == k;
        k + [x]
      else k
  }

  /** `filter_property_images(urls)` */
  method FilterPropertyImages(urls: seq<string>) returns (kept: seq<string>)
    ensures kept == KeepGallery(urls)
  {
    kept := [];
    for i := 0 to |urls|
      invariant kept == KeepGallery(urls[..i])
    {
      assert urls[..i + 1][..i] == urls[..i];
      var u := urls[i];
      if !Contains(Lower(Netloc(u)), "bayut") {
        continue;
      }
      if HasGallerySuffix(u) {
        kept := kept + [u];
      }
    }
    assert urls[..|urls|] == urls;
  }

  /** Filtering a list every element of which passes gives it back. */
  lemma {:induction false} KeepGalleryOfKept(urls: seq<string>)
    requires forall x :: x in urls ==> IsPropertyImage(x)
    ensures KeepGallery(urls) == urls
  {
    if urls != [] {
      var p, x := urls[..|urls| - 1], urls[|urls| - 1];
      assert urls == p + [x];
      assert forall y :: y in p ==> y in urls;
      KeepGalleryOfKept(p);
      assert IsPropertyImage(x);
    }
  }

  // ---------------------------------------------------------------------
  // extract_gallery_images

  /**
    `extract_gallery_images`: sorted, without repetition, and holding exactly
    the normalised matches that pass the gallery test.
  */
  function ExtractGalleryImages(matches: seq<string>): (r: seq<string>)
    ensures StrictlySorted(r)
    ensures forall u :: u in r <==>
      IsPropertyImage(u) && exists m :: m in matches && StripQuery(m) == u
  {
    var all := Normalize(matches);
    assert forall u :: u in all <==> exists m :: m in matches && StripQuery(m) == u by {
      forall u ensures u in all <==> exists m :: m in matches && StripQuery(m) == u {
        if u in all {
          var i :| 0 <= i < |all| && all[i] == u;
          assert matches[i] in matches;
        }
        if exists m :: m in matches && StripQuery(m) == u {
          var m :| m in matches && StripQuery(m) == u;
          var i :| 0 <= i < |matches| && matches[i] == m;
          assert all[i] == u;
        }
      }
    }
    SortedSet(KeepGallery(Dedup(all)))
  }

  /** Running the gallery extraction on its own output changes nothing. */
  lemma GalleryIdempotent(matches: seq<string>)
    ensures ExtractGalleryImages(ExtractGalleryImages(matches)) == ExtractGalleryImages(matches)
  {
    var r := ExtractGalleryImages(matches);
    NormalizeOfNormalized(matches, r);
    StrictlySortedNoDup(r);
    DedupOfNoDup(r);
    KeepGalleryOfKept(r);
    SortedSetOfSorted(r);
  }

  /** A list of already normalised URLs normalises to itself. */
  lemma NormalizeOfNormalized(matches: seq<string>, r: seq<string>)
    requires forall u :: u in r ==> exists m :: m in matches && StripQuery(m) == u
    ensures Normalize(r) == r
  {
    forall i | 0 <= i < |r| ensures Normalize(r)[i] == r[i] {
      assert r[i] in r;
      var m :| m in matches && StripQuery(m) == r[i];
      StripQueryIdempotent(m);
    }
  }
}
