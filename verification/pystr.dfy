/**
  The Python `str` operations the extractor relies on: `strip`, `split`,
  `lower`, `upper`, `title`, `rstrip(c)`, `replace`, `in`, and the way
  `re.IGNORECASE` matches a lower-case ASCII pattern letter.

  Case mapping covers ASCII letters only (Python maps all of Unicode).
  Whitespace is Python's `str.isspace`, which is also what `\s` and the
  argument-less `split()` use.
*/
module PyStr {

  /** Python's `str.isspace()`: the characters `strip()`, `split()` and `\s` treat as blank. */
  predicate IsSpace(c: char) {
    || c == ' '
    || ('\t' <= c <= '\r')
    || ('\U{1C}' <= c <= '\U{1F}')
    || c == '\U{85}' || c == '\U{A0}' || c == '\U{1680}'
    || ('\U{2000}' <= c <= '\U{200A}')
    || c == '\U{2028}' || c == '\U{2029}' || c == '\U{202F}' || c == '\U{205F}' || c == '\U{3000}'
  }

  /** `\d` restricted to the ASCII digits. */
  predicate IsDigit(c: char) {
    '0' <= c <= '9'
  }

  predicate IsAsciiLetter(c: char) {
    ('a' <= c <= 'z') || ('A' <= c <= 'Z')
  }

  function LowerChar(c: char): (d: char)
    ensures IsAsciiLetter(c) <==> IsAsciiLetter(d)
    ensures !('A' <= d <= 'Z')
  {
    if 'A' <= c <= 'Z' then (c as int + 32) as char else c
  }

  function UpperChar(c: char): (d: char)
    ensures IsAsciiLetter(c) <==> IsAsciiLetter(d)
    ensures !('a' <= d <= 'z')
  {
    if 'a' <= c <= 'z' then (c as int - 32) as char else c
  }

  /** `s.lower()` */
  function Lower(s: string): (r: string)
    ensures |r| == |s|
    ensures forall i :: 0 <= i < |s| ==> r[i] == LowerChar(s[i])
  {
    seq(|s|, i requires 0 <= i < |s| => LowerChar(s[i]))
  }

  /** `s.upper()` */
  function Upper(s: string): (r: string)
    ensures |r| == |s|
    ensures forall i :: 0 <= i < |s| ==> r[i] == UpperChar(s[i])
  {
    seq(|s|, i requires 0 <= i < |s| => UpperChar(s[i]))
  }

  /**
    `s.title()`: a letter that follows a cased character is lower-cased,
    every other character is title-cased (upper-cased).
  */
  function Title(s: string): (r: string)
    ensures |r| == |s|
    ensures forall i :: 0 <= i < |s| ==>
      r[i] == if i > 0 && IsAsciiLetter(s[i - 1]) then LowerChar(s[i]) else UpperChar(s[i])
  {
    seq(|s|, i requires 0 <= i < |s| =>
      if i > 0 && IsAsciiLetter(s[i - 1]) then LowerChar(s[i]) else UpperChar(s[i]))
  }

  /** `s.replace(a, b)` for single characters. */
  function ReplaceChar(s: string, a: char, b: char): (r: string)
    ensures |r| == |s|
    ensures forall i :: 0 <= i < |s| ==> r[i] == if s[i] == a then b else s[i]
  {
    seq(|s|, i requires 0 <= i < |s| => if s[i] == a then b else s[i])
  }

  /** `s.rstrip(c)` for a single character `c`. */
  function RStripChar(s: string, c: char): (r: string)
    ensures r <= s
    ensures r == [] || r[|r| - 1] != c
    ensures forall i :: |r| <= i < |s| ==> s[i] == c
  {
    if |s| > 0 && s[|s| - 1] == c then RStripChar(s[..|s| - 1], c) else s
  }

  /** `needle in s` */
  predicate Contains(s: string, needle: string)
    decreases |s|
  {
    needle <= s || (|s| > 0 && Contains(s[1..], needle))
  }

  /** Number of blank characters at the start of `s`. */
  function LeadingSpaces(s: string): (n: nat)
    ensures n <= |s|
    ensures forall i :: 0 <= i < n ==> IsSpace(s[i])
    ensures n < |s| ==> !IsSpace(s[n])
  {
    if s == [] || !IsSpace(s[0]) then 0 else 1 + LeadingSpaces(s[1..])
  }

  /** Number of blank characters at the end of `s`. */
  function TrailingSpaces(s: string): (n: nat)
    ensures n <= |s|
    ensures forall i :: |s| - n <= i < |s| ==> IsSpace(s[i])
    ensures n < |s| ==> !IsSpace(s[|s| - n - 1])
  {
    if s == [] || !IsSpace(s[|s| - 1]) then 0 else 1 + TrailingSpaces(s[..|s| - 1])
  }

  /** All characters blank. */
  predicate Blank(s: string) {
    forall i :: 0 <= i < |s| ==> IsSpace(s[i])
  }

  /** `t` is `s[a..b]`, and only blanks lie outside it. */
  predicate TrimsAt(s: string, t: string, a: nat, b: nat) {
    a <= b <= |s| && t == s[a..b] && Blank(s[..a]) && Blank(s[b..])
  }

  /** `t` is `s` with some blanks, and only blanks, removed from each end. */
  ghost predicate Trims(s: string, t: string) {
    exists a: nat, b: nat :: TrimsAt(s, t, a, b)
  }

  /** `s.strip()` */
  function Strip(s: string): (t: string)
    ensures t == [] || (!IsSpace(t[0]) && !IsSpace(t[|t| - 1]))
    ensures t == [] <==> Blank(s)
  {
    var a := LeadingSpaces(s);
    var rest := s[a..];
    var t := rest[..|rest| - TrailingSpaces(rest)];
    t
  }

  /** `strip()` removes blanks, and only blanks, from the two ends. */
  lemma StripTrims(s: string)
    ensures Trims(s, Strip(s))
  {
    var a := LeadingSpaces(s);
    var rest := s[a..];
    var n := TrailingSpaces(rest);
    var t := rest[..|rest| - n];
    var b := a + |rest| - n;
    assert Strip(s) == t;
    assert t == s[a..b];
    LeadingBlank(s);
    assert s[b..] == rest[|t|..];
    assert TrimsAt(s, t, a, b);
  }

  /** Length of the run of non-blank characters at the start of `s`. */
  function TokenLen(s: string): (n: nat)
    ensures n <= |s|
    ensures forall i :: 0 <= i < n ==> !IsSpace(s[i])
    ensures n < |s| ==> IsSpace(s[n])
  {
    if s == [] || IsSpace(s[0]) then 0 else 1 + TokenLen(s[1..])
  }

  /** A token of `split()`: non-empty and free of blanks. */
  predicate IsWord(w: string) {
    |w| > 0 && forall j :: 0 <= j < |w| ==> !IsSpace(w[j])
  }

  /**
    `s.split()` with no argument: the maximal runs of non-blank characters,
    in order (`WordsSplitInput` puts them back together with the blanks).
  */
  function Words(s: string): (ws: seq<string>)
    ensures forall i :: 0 <= i < |ws| ==> IsWord(ws[i])
    decreases |s|
  {
    var a := LeadingSpaces(s);
    if a == |s| then []
    else
      var t := s[a..];
      var k := TokenLen(t);
      [t[..k]] + Words(t[k..])
  }

  /** `split()` is empty exactly on an all-blank string. */
  lemma WordsNone(s: string)
    ensures Words(s) == [] <==> Blank(s)
  {
    var a := LeadingSpaces(s);
    if a < |s| {
      assert !IsSpace(s[a]);
    }
  }

  /** A non-empty run of ASCII letters is a word. */
  lemma LettersWord(w: string)
    requires |w| > 0 && forall j :: 0 <= j < |w| ==> IsAsciiLetter(w[j])
    ensures IsWord(w)
  {
  }

  /** One step of `split()`: the first word, then the words of what follows it. */
  lemma WordsUnfold(s: string)
    requires LeadingSpaces(s) < |s|
    ensures var t := s[LeadingSpaces(s)..];
      Words(s) == [t[..TokenLen(t)]] + Words(t[TokenLen(t)..])
  {
  }

  /** The words joined by the gaps: `gaps[0] + ws[0] + gaps[1] + ... + ws[n-1] + gaps[n]`. */
  function Interleave(gaps: seq<string>, ws: seq<string>): string
    requires |gaps| == |ws| + 1
    decreases ws
  {
    if ws == [] then gaps[0] else gaps[0] + ws[0] + Interleave(gaps[1..], ws[1..])
  }

  /** Interleaving with one more gap and word in front. */
  lemma InterleaveCons(g0: string, w: string, gaps: seq<string>, ws: seq<string>)
    requires |gaps| == |ws| + 1
    ensures Interleave([g0] + gaps, [w] + ws) == g0 + w + Interleave(gaps, ws)
  {
    assert ([g0] + gaps)[1..] == gaps;
    assert ([w] + ws)[1..] == ws;
  }

  /** With an empty first gap, the joined string starts with the first word. */
  lemma InterleaveStartsWithWord(gaps: seq<string>, ws: seq<string>)
    requires |gaps| == |ws| + 1 && ws != [] && gaps[0] == [] && IsWord(ws[0])
    ensures Interleave(gaps, ws) != [] && Interleave(gaps, ws)[0] == ws[0][0]
  {
    var r := Interleave(gaps, ws);
    var tail := Interleave(gaps[1..], ws[1..]);
    assert r == [] + ws[0] + tail;
    assert r == ws[0] + tail;
  }

  /**
    `s` is its words with blank gaps between and around them, each inner gap
    non-empty: together with `IsWord`, this is what makes the words the
    maximal non-blank runs of `s`, in order.
  */
  lemma {:induction false} WordsSplitInput(s: string) returns (gaps: seq<string>)
    ensures |gaps| == |Words(s)| + 1
    ensures s == Interleave(gaps, Words(s))
    ensures forall k :: 0 <= k < |gaps| ==> Blank(gaps[k])
    ensures forall k :: 0 < k < |gaps| - 1 ==> gaps[k] != []
    decreases |s|
  {
    var a := LeadingSpaces(s);
    if a == |s| {
      gaps := [s];
      assert Blank(s);
    } else {
      var t := s[a..];
      var k := TokenLen(t);
      var rest := t[k..];
      var ws := Words(rest);
      var g := WordsSplitInput(rest);
      gaps := [s[..a]] + g;
      assert Words(s) == [t[..k]] + ws;
      SplitAt(s, a, k);
      InterleaveCons(s[..a], t[..k], g, ws);
      LeadingBlank(s);
      forall j | 0 <= j < |gaps|
        ensures Blank(gaps[j])
      {
        if j > 0 {
          assert gaps[j] == g[j - 1];
        }
      }
      forall j | 0 < j < |gaps| - 1
        ensures gaps[j] != []
      {
        assert gaps[j] == g[j - 1];
        if j == 1 {
          FirstGapNonEmpty(t, k, g, ws);
        }
      }
    }
  }

  /** The leading blanks are blank. */
  lemma LeadingBlank(s: string)
    ensures Blank(s[..LeadingSpaces(s)])
  {
    var a := LeadingSpaces(s);
    assert forall i :: 0 <= i < a ==> s[..a][i] == s[i];
  }

  /** Cutting `s` at `a` and then its suffix at `k` loses nothing. */
  lemma SplitAt(s: string, a: nat, k: nat)
    requires a + k <= |s|
    ensures s == s[..a] + s[a..][..k] + s[a..][k..]
  {
    assert s[a..] == s[a..][..k] + s[a..][k..];
  }

  /** After a word, the next gap starts with the blank that ends the word. */
  lemma FirstGapNonEmpty(t: string, k: nat, g: seq<string>, ws: seq<string>)
    requires k <= |t| && (k < |t| ==> IsSpace(t[k]))
    requires |g| == |ws| + 1 && ws != [] && IsWord(ws[0]) && t[k..] == Interleave(g, ws)
    ensures g[0] != []
  {
    if g[0] == [] {
      InterleaveStartsWithWord(g, ws);
    }
  }

  /**
    `w` lies at `p` in `s`, starts `s` or follows a blank, and is followed
    only by blanks.
  */
  predicate LastWordAt(w: string, s: string, p: nat) {
    p + |w| <= |s| && s[p..p + |w|] == w
    && (p == 0 || IsSpace(s[p - 1])) && Blank(s[p + |w|..])
  }

  /** `w` is the last word of `s`: a non-blank run ending where only blanks follow. */
  ghost predicate IsLastWord(w: string, s: string) {
    IsWord(w) && exists p: nat :: LastWordAt(w, s, p)
  }

  /** `s.split()[-1]` is the last word of `s`. */
  lemma WordsLast(s: string)
    requires !Blank(s)
    ensures Words(s) != [] && IsLastWord(Words(s)[|Words(s)| - 1], s)
  {
    WordsNone(s);
    var gaps := WordsSplitInput(s);
    var p := InterleaveLastWord(gaps, Words(s));
  }

  /** In words joined by blank gaps, inner gaps non-empty, the last word is the last word. */
  lemma {:induction false} InterleaveLastWord(gaps: seq<string>, ws: seq<string>) returns (p: nat)
    requires |gaps| == |ws| + 1 && ws != []
    requires forall k :: 0 <= k < |ws| ==> IsWord(ws[k])
    requires forall k :: 0 <= k < |gaps| ==> Blank(gaps[k])
    requires forall k :: 0 < k < |gaps| - 1 ==> gaps[k] != []
    ensures LastWordAt(ws[|ws| - 1], Interleave(gaps, ws), p)
    decreases ws
  {
    var head := gaps[0] + ws[0];
    var r := Interleave(gaps[1..], ws[1..]);
    assert Interleave(gaps, ws) == head + r;
    if |ws| == 1 {
      assert r == gaps[1];
      LastWordAlone(gaps[0], ws[0], gaps[1]);
      p := |gaps[0]|;
    } else {
      assert forall k :: 0 < k < |gaps[1..]| - 1 ==> gaps[1..][k] == gaps[k + 1];
      var q := InterleaveLastWord(gaps[1..], ws[1..]);
      assert ws[1..][|ws[1..]| - 1] == ws[|ws| - 1];
      InterleaveStartsWithGap(gaps[1..], ws[1..]);
      LastWordAfter(head, r, ws[|ws| - 1], q);
      p := |head| + q;
    }
  }

  /** A word between two blank gaps is the last word of the three joined. */
  lemma LastWordAlone(g0: string, w: string, g1: string)
    requires Blank(g0) && IsWord(w) && Blank(g1)
    ensures LastWordAt(w, g0 + w + g1, |g0|)
  {
    var s := g0 + w + g1;
    assert s[|g0|..|g0| + |w|] == w;
    assert s[|g0| + |w|..] == g1;
    if |g0| > 0 {
      assert s[|g0| - 1] == g0[|g0| - 1];
    }
  }

  /** A joined string whose first gap is not empty starts with a blank. */
  lemma InterleaveStartsWithGap(gaps: seq<string>, ws: seq<string>)
    requires |gaps| == |ws| + 1 && gaps[0] != [] && Blank(gaps[0])
    ensures Interleave(gaps, ws) != [] && IsSpace(Interleave(gaps, ws)[0])
  {
    if ws != [] {
      assert Interleave(gaps, ws) == gaps[0] + (ws[0] + Interleave(gaps[1..], ws[1..]));
    }
  }

  /** The last word of a string that starts with a blank stays the last word behind any prefix. */
  lemma LastWordAfter(x: string, r: string, w: string, q: nat)
    requires r != [] && IsSpace(r[0]) && IsWord(w) && LastWordAt(w, r, q)
    ensures LastWordAt(w, x + r, |x| + q)
  {
    var s := x + r;
    assert q > 0;
    assert s[|x| + q..|x| + q + |w|] == r[q..q + |w|];
    assert s[|x| + q - 1] == r[q - 1];
    assert s[|x| + q + |w|..] == r[q + |w|..];
  }

  /**
    `c` matches the pattern character `p` under `re.IGNORECASE`, for a pattern
    written with lower-case ASCII letters: Python compares simple lower-case
    forms and adds the equivalences i/dotless i and s/long s, so besides
    upper case, U+0130 and U+0131 match `i`, U+017F matches `s` and the
    Kelvin sign U+212A matches `k`.
  */
  predicate FoldsTo(c: char, p: char) {
    || c == p
    || ('a' <= p <= 'z' && c == UpperChar(p))
    || (p == 'i' && (c == '\U{130}' || c == '\U{131}'))
    || (p == 's' && c == '\U{17F}')
    || (p == 'k' && c == '\U{212A}')
  }

  /** `s` matches the literal pattern `p` under `re.IGNORECASE`. */
  predicate FoldsAll(s: string, p: string) {
    |s| == |p| && forall i :: 0 <= i < |s| ==> FoldsTo(s[i], p[i])
  }

  // ---------------------------------------------------------------------
  // Facts about these operations

  /** Lower-casing a title-cased string gives the lower-cased original. */
  lemma LowerOfTitle(s: string)
    ensures Lower(Title(s)) == Lower(s)
  {
    forall i | 0 <= i < |s| ensures Lower(Title(s))[i] == Lower(s)[i] {
      LowerAbsorbs(s[i]);
    }
  }

  /** Lower-casing undoes upper-casing and is idempotent, character by character. */
  lemma LowerAbsorbs(c: char)
    ensures LowerChar(UpperChar(c)) == LowerChar(c)
    ensures LowerChar(LowerChar(c)) == LowerChar(c)
  {
  }

  /** `s.lower().lower() == s.lower()` */
  lemma LowerIdempotent(s: string)
    ensures Lower(Lower(s)) == Lower(s)
  {
    forall i | 0 <= i < |s| ensures Lower(Lower(s))[i] == Lower(s)[i] {
      LowerAbsorbs(s[i]);
    }
  }

  /** A string containing a needle that has a non-blank character is not blank. */
  lemma {:induction false} ContainsNonBlank(s: string, needle: string, k: nat)
    requires Contains(s, needle)
    requires k < |needle| && !IsSpace(needle[k])
    ensures exists i :: 0 <= i < |s| && !IsSpace(s[i])
    decreases |s|
  {
    if needle <= s {
      assert s[k] == needle[k];
    } else {
      ContainsNonBlank(s[1..], needle, k);
      var i :| 0 <= i < |s[1..]| && !IsSpace(s[1..][i]);
      assert s[i + 1] == s[1..][i];
    }
  }
}
