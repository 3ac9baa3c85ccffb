/**
  The two raw-text scans of `extract_bayut_fields`:
  `re.search(r'"KEY"\s*:\s*"([^"]+)"', html, re.I)` for KEY `property_type`
  and `completion_status`, returning the captured group.
*/
module RawScan {
  import opened Outcomes
  import opened PyStr

  /** Length of the run of characters other than '"' at the start of `s`. */
  function NonQuoteRun(s: string): (n: nat)
    ensures n <= |s|
    ensures forall i :: 0 <= i < n ==> s[i] != '"'
    ensures n < |s| ==> s[n] == '"'
  {
    if s != [] && s[0] != '"' then 1 + NonQuoteRun(s[1..]) else 0
  }

  /**
    The group of a match of `"KEY"\s*:\s*"([^"]+)"` that starts at position
    `i`, if there is one. Each `\s*` can only take the whole blank run in
    front of it, and `[^"]+` the whole run up to the next quote, so a match
    at `i` is unique.
  */
  function QuotedAt(s: string, key: string, i: nat): (g: Option<string>)
    requires i <= |s|
    ensures g.Some? ==> |g.value| > 0 && forall j :: 0 <= j < |g.value| ==> g.value[j] != '"'
  {
    if !(i < |s| && s[i] == '"') then None
    else
      var k := i + 1;
      if !(k + |key| <= |s| && FoldsAll(s[k..k + |key|], key)) then None
      else
        var c := k + |key|;
        if !(c < |s| && s[c] == '"') then None
        else
          var d := c + 1 + LeadingSpaces(s[c + 1..]);
          if !(d < |s| && s[d] == ':') then None
          else
            var e := d + 1 + LeadingSpaces(s[d + 1..]);
            if !(e < |s| && s[e] == '"') then None
            else
              var n := NonQuoteRun(s[e + 1..]);
              if n > 0 && e + 1 + n < |s| then Some(s[e + 1..e + 1 + n]) else None
  }

  /** `re.search` from position `i` on: the match that starts leftmost. */
  function SearchFrom(s: string, key: string, i: nat): (g: Option<string>)
    requires i <= |s|
    ensures g.Some? ==> |g.value| > 0 && forall j :: 0 <= j < |g.value| ==> g.value[j] != '"'
    decreases |s| - i
  {
    match QuotedAt(s, key, i)
    case Some(v) => Some(v)
    case None => if i == |s| then None else SearchFrom(s, key, i + 1)
  }

  /** `m = re.search(...)`; `m.group(1)` when it matched. */
  function SearchQuoted(s: string, key: string): (g: Option<string>)
    ensures g.Some? ==> |g.value| > 0 && forall j :: 0 <= j < |g.value| ==> g.value[j] != '"'
  {
    SearchFrom(s, key, 0)
  }

  /** The search reports the group of the leftmost match. */
  lemma {:induction false} SearchFindsLeftmost(s: string, key: string, i: nat, p: nat)
    requires i <= p <= |s|
    requires QuotedAt(s, key, p).Some?
    requires forall j :: i <= j < p ==> QuotedAt(s, key, j).None?
    ensures SearchFrom(s, key, i) == QuotedAt(s, key, p)
    decreases p - i
  {
    if i < p {
      SearchFindsLeftmost(s, key, i + 1, p);
    }
  }

  /** The search finds nothing exactly when no position starts a match. */
  lemma {:induction false} SearchFindsNothing(s: string, key: string, i: nat)
    requires i <= |s|
    ensures SearchFrom(s, key, i).None? <==> forall j :: i <= j <= |s| ==> QuotedAt(s, key, j).None?
    decreases |s| - i
  {
    if i < |s| {
      SearchFindsNothing(s, key, i + 1);
    }
  }
}
