/**
  The JSON-LD helpers of app.py: `_first`, `_jsonlds` and `_get_residence`.

  A `<script type="application/ld+json">` block reaches the model as the
  outcome of `json.loads` on its text: `Some(value)` when it parsed, `None`
  when the call raised (bad JSON, or a script whose `.string` is `None`).
*/
module JsonLd {
  import opened Outcomes
  import opened PyStr
  import opened JsonValues

  /** An argument `_first` accepts: a string that is not blank. */
  predicate NonBlank(v: Json) {
    v.JStr? && Strip(v.s) != ""
  }

  /** `_first(*vals)`: the first non-blank string argument, stripped, or "" when there is none. */
  function First(vals: seq<Json>): (r: string)
    ensures r != "" ==> !IsSpace(r[0]) && !IsSpace(r[|r| - 1])
  {
    if vals == [] then ""
    else if NonBlank(vals[0]) then Strip(vals[0].s)
    else First(vals[1..])
  }

  /** `_first` gives "" exactly when no argument is a non-blank string. */
  lemma {:induction false} FirstEmpty(vals: seq<Json>)
    ensures First(vals) == "" <==> forall i :: 0 <= i < |vals| ==> !NonBlank(vals[i])
  {
    if vals != [] && !NonBlank(vals[0]) {
      FirstEmpty(vals[1..]);
      assert forall i :: 1 <= i < |vals| ==> vals[i] == vals[1..][i - 1];
    }
  }

  /** `_first` returns the stripped form of the earliest non-blank string, whatever follows it. */
  lemma {:induction false} FirstPicksEarliest(vals: seq<Json>, k: nat)
    requires k < |vals| && NonBlank(vals[k])
    requires forall j :: 0 <= j < k ==> !NonBlank(vals[j])
    ensures First(vals) == Strip(vals[k].s)
  {
    if k > 0 {
      FirstPicksEarliest(vals[1..], k - 1);
    }
  }

  /** What one block contributes: nothing if it failed, the elements of a list, or the value itself. */
  function Entries(block: Option<Json>): seq<Json> {
    match block
    case None => []
    case Some(JArr(xs)) => xs
    case Some(j) => [j]
  }

  /** The entries of all blocks, in document order. */
  function Flatten(blocks: seq<Option<Json>>): seq<Json> {
    if blocks == [] then []
    else Flatten(blocks[..|blocks| - 1]) + Entries(blocks[|blocks| - 1])
  }

  /** `_jsonlds(soup)`, given the parse outcome of every JSON-LD block in document order. */
  method JsonLds(blocks: seq<Option<Json>>) returns (data: seq<Json>)
    ensures data == Flatten(blocks)
  {
    data := [];
    for i := 0 to |blocks|
      invariant data == Flatten(blocks[..i])
    {
      assert blocks[..i + 1][..i] == blocks[..i];
      match blocks[i]
      case None =>
      case Some(blob) =>
        if blob.JArr? {
          data := data + blob.items;
        } else {
          data := data + [blob];
        }
    }
    assert blocks[..|blocks|] == blocks;
  }

  /** The entries of two runs of blocks are the entries of each, one after the other. */
  lemma {:induction false} FlattenAppend(a: seq<Option<Json>>, b: seq<Option<Json>>)
    ensures Flatten(a + b) == Flatten(a) + Flatten(b)
    decreases |b|
  {
    if b == [] {
      assert a + b == a;
    } else {
      var b', x := b[..|b| - 1], b[|b| - 1];
      assert (a + b)[..|a + b| - 1] == a + b';
      assert (a + b)[|a + b| - 1] == x;
      assert Flatten(a + b) == Flatten(a + b') + Entries(x);
      assert Flatten(b) == Flatten(b') + Entries(x);
      FlattenAppend(a, b');
    }
  }

  /**
    Every block that parsed contributes its entries at its own place, whatever
    the other blocks are: block i's entries sit between those of the blocks
    before it and those of the blocks after it.
  */
  lemma {:induction false} BlockEntriesInPlace(blocks: seq<Option<Json>>, i: nat)
    requires i < |blocks|
    ensures Flatten(blocks) == Flatten(blocks[..i]) + Entries(blocks[i]) + Flatten(blocks[i + 1..])
  {
    var before, block, after := blocks[..i], [blocks[i]], blocks[i + 1..];
    assert blocks == before + block + after;
    FlattenAppend(before + block, after);
    FlattenAppend(before, block);
    assert Flatten(block) == Entries(blocks[i]) by {
      assert block[..0] == [];
    }
  }

  /** A block that fails to parse changes nothing about what the others yield. */
  lemma {:induction false} FailedBlockSkipped(a: seq<Option<Json>>, b: seq<Option<Json>>)
    ensures Flatten(a + [None] + b) == Flatten(a + b)
  {
    FlattenAppend(a + [None], b);
    var failed: seq<Option<Json>> := [None];
    FlattenAppend(a, failed);
    assert Flatten(failed) == [] by {
      assert failed[..0] == [];
    }
    FlattenAppend(a, b);
  }

  /** `o.get("@type") == "Residence"`, for an entry that is a dict. */
  predicate IsResidence(o: Json) {
    o.JObj? && Lookup(o.fields, "@type", JNull) == JStr("Residence")
  }

  /**
    `_get_residence(lds)`: the first entry typed exactly "Residence". Calling
    `.get` on an entry that is not a dict raises before the scan gets further.
  */
  function GetResidence(lds: seq<Json>): (r: Result<Option<map<string, Json>>>)
    ensures r.Err? ==> r.error == AttributeError
    ensures r.Ok? && r.value.Some? ==> IsResidence(JObj(r.value.value))
  {
    if lds == [] then Ok(None)
    else if !lds[0].JObj? then Err(AttributeError)
    else if IsResidence(lds[0]) then Ok(Some(lds[0].fields))
    else GetResidence(lds[1..])
  }

  /**
    The outcome of `_get_residence` is decided by the first entry that is not
    a dict or is a residence: the latter is returned, the former raises, and
    when there is none the result is `None`.
  */
  lemma {:induction false} GetResidenceFirst(lds: seq<Json>, k: nat)
    requires k <= |lds|
    requires forall j :: 0 <= j < k ==> lds[j].JObj? && !IsResidence(lds[j])
    requires k < |lds| ==> !lds[k].JObj? || IsResidence(lds[k])
    ensures GetResidence(lds) ==
      if k == |lds| then Ok(None)
      else if lds[k].JObj? then Ok(Some(lds[k].fields))
      else Err(AttributeError)
  {
    if k > 0 {
      GetResidenceFirst(lds[1..], k - 1);
    }
  }
}
