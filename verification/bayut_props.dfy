/**
  What `extract_bayut_fields` promises about its row: how a handover date is
  split, which element wins when several write the same column, how a
  regulatory label is routed, and how the columns of the finished row follow
  from the page.
*/
module BayutProps {
  import opened Outcomes
  import opened PyStr
  import opened JsonValues
  import opened JsonLd
  import opened RawScan
  import opened BayutRow
  import opened Bayut

  // ---------------------------------------------------------------------
  // Handover dates

  /** `split()` of a single word is that word. */
  lemma WordsOfWord(w: string)
    requires IsWord(w)
    ensures Words(w) == [w]
  {
    assert LeadingSpaces(w) == 0;
    assert TokenLen(w) == |w|;
    assert w[..|w|] == w;
    assert w[|w|..] == [];
    assert Words(w) == [w[..|w|]] + Words(w[|w|..]);
  }

  /** `split()` of two words joined by a blank is those two words. */
  lemma WordsOfPair(q: string, y: string)
    requires IsWord(q) && IsWord(y)
    ensures Words(q + " " + y) == [q, y]
  {
    var s := q + " " + y;
    var rest := s[|q|..];
    assert s[..|q|] == q && rest == " " + y && rest[1..] == y;
    WordsOfLeadingWord(s, |q|);
    WordsOfBlankWord(y);
  }

  /** A leading run of `n` non-blanks ended by a blank is the first word. */
  lemma WordsOfLeadingWord(s: string, n: nat)
    requires 0 < n < |s| && IsSpace(s[n])
    requires forall i :: 0 <= i < n ==> !IsSpace(s[i])
    ensures Words(s) == [s[..n]] + Words(s[n..])
  {
    assert LeadingSpaces(s) == 0;
    TokenLenOfPrefix(s, n);
    assert s[0..] == s;
  }

  /** `split()` of a word behind one blank is that word. */
  lemma WordsOfBlankWord(y: string)
    requires IsWord(y)
    ensures Words(" " + y) == [y]
  {
    var s := " " + y;
    assert s[1..] == y;
    assert LeadingSpaces(s) == 1 by {
      assert s[1] == y[0];
    }
    WordsOfWord(y);
    WordsUnfold(y);
    WordsUnfold(s);
  }

  /** A run of `n` non-blanks followed by a blank is a token of length `n`. */
  lemma {:induction false} TokenLenOfPrefix(s: string, n: nat)
    requires n < |s| && IsSpace(s[n])
    requires forall i :: 0 <= i < n ==> !IsSpace(s[i])
    ensures TokenLen(s) == n
  {
    if n > 0 {
      TokenLenOfPrefix(s[1..], n - 1);
    }
  }

  /**
    The date "Qd yyyy..." with one blank and a single year word sets the
    quarter to "Qd" and the year to that word.
  */
  lemma QuarterDateSplits(row: Row, d: char, y: string)
    requires IsDigit(d) && FourDigits(y) && IsWord(y)
    ensures HandoverStep(row, ['Q', d] + " " + y) == Ok(row.(handoverQuarter := ['Q', d], handoverYear := y))
  {
    var val := ['Q', d] + " " + y;
    assert val[2..] == " " + y;
    assert LeadingSpaces(val[2..]) == 1 by {
      assert val[2..][1..] == y;
    }
    assert val[3..] == y;
    assert QuarterShaped(val);
    WordsOfPair(['Q', d], y);
    assert val[..2] == ['Q', d];
  }

  /** A date that starts with a year and is not quarter-shaped sets the year to the whole date and leaves the quarter. */
  lemma YearDateKept(row: Row, val: string)
    requires FourDigits(val)
    ensures HandoverStep(row, val) == Ok(row.(handoverYear := val))
  {
  }

  /** The year column only ever receives text that starts with four digits. */
  lemma {:induction false} SpecsYearDigits(row: Row, spans: seq<Span>)
    requires ApplySpecs(row, spans).Ok?
    ensures ApplySpecs(row, spans).value.handoverYear == row.handoverYear
         || FourDigits(ApplySpecs(row, spans).value.handoverYear)
  {
    var y := LastSome(spans, SpanYear);
    if y.Some? {
      var i := LastSomeWitness(spans, SpanYear);
      assert FourDigits(SpanYear(spans[i]).value);
    }
  }

  // ---------------------------------------------------------------------
  // Residence fallbacks

  /**
    An address dict without `addressCountry` gives "UAE", and a room count
    held as `{"value": 3}` gives the bedrooms "3"; the rest is kept.
  */
  lemma ResidenceDefaults(row: Row)
    ensures var address := JObj(map[]);
      var rooms := JObj(map["value" := JNum("3")]);
      LdFallbacks(row, Some(map["address" := address, "numberOfRooms" := rooms]))
        == Ok(row.(country := JStr("UAE"), bedrooms := "3"))
  {
    var fields := map["address" := JObj(map[]), "numberOfRooms" := JObj(map["value" := JNum("3")])];
    assert "floorSize" !in fields && "numberOfBathroomsTotal" !in fields;
    assert HeldText(fields, "numberOfRooms") == "3";
  }

  /** A room count held as a bare text raises AttributeError. */
  lemma BareRoomCountRaises(row: Row)
    ensures LdFallbacks(row, Some(map["numberOfRooms" := JStr("3")])) == Err(AttributeError)
  {
    assert HoldsNonDict(map["numberOfRooms" := JStr("3")], "numberOfRooms");
  }

  // ---------------------------------------------------------------------
  // Offers

  /** An ItemPage whose first offer has a price specification yields that price. */
  lemma ItemPagePrice()
    ensures var spec := JObj(map["price" := JStr("1500000")]);
      var offer := JObj(map["priceSpecification" := spec]);
      var main := JObj(map["offers" := JArr([offer])]);
      OfferPrice(JObj(map["@type" := JStr("ItemPage"), "mainEntity" := main])) == Ok(Some(JStr("1500000")))
  {
    var spec := JObj(map["price" := JStr("1500000")]);
    var offer := JObj(map["priceSpecification" := spec]);
    var main := JObj(map["offers" := JArr([offer])]);
    var fields := map["@type" := JStr("ItemPage"), "mainEntity" := main];
    assert FirstOffer(fields) == Some(offer);
  }

  /**
    The seller an ItemPage names is its parent organisation's name when that
    is a non-blank string, else the offerer's name when that is one, else "".
  */
  lemma {:induction false} SellerPrefersOrganisation(o: Json)
    requires o.JObj? && Lookup(o.fields, "@type", JNull) == JStr("ItemPage")
    requires OfferSeller(o).Ok?
    ensures var org := OrgName(o.fields).value; var offerer := OffererName(o.fields).value;
      && (NonBlank(org) ==> OfferSeller(o) == Ok(Some(Strip(org.s))))
      && (!NonBlank(org) && NonBlank(offerer) ==> OfferSeller(o) == Ok(Some(Strip(offerer.s))))
      && (!NonBlank(org) && !NonBlank(offerer) ==> OfferSeller(o) == Ok(Some("")))
  {
    var org := OrgName(o.fields).value;
    var offerer := OffererName(o.fields).value;
    if NonBlank(org) {
      FirstPicksEarliest([org, offerer], 0);
    } else if NonBlank(offerer) {
      FirstPicksEarliest([org, offerer], 1);
    } else {
      FirstEmpty([org, offerer]);
    }
  }

  // ---------------------------------------------------------------------
  // Features

  /** `_grab_feature` takes the text of the first span whose label matches. */
  lemma {:induction false} GrabFeatureFirst(spans: seq<Span>, word: string, k: nat)
    requires k < |spans| && LabelIs(spans[k].aria, word)
    requires forall j :: 0 <= j < k ==> !LabelIs(spans[j].aria, word)
    ensures GrabFeature(spans, word) == SpanText(spans[k])
  {
    if k > 0 {
      GrabFeatureFirst(spans[1..], word, k - 1);
    }
  }

  // ---------------------------------------------------------------------
  // Furnishing

  /** A needle found at position `k` is contained. */
  lemma {:induction false} ContainsAt(s: string, needle: string, k: nat)
    requires k <= |s| && needle <= s[k..]
    ensures Contains(s, needle)
    decreases k
  {
    if k > 0 {
      assert s[1..][k - 1..] == s[k..];
      ContainsAt(s[1..], needle, k - 1);
    }
  }

  /** "Fully Furnished" is cut down to its last word. */
  lemma FullyFurnished()
    ensures FurnishingText("Fully Furnished") == "Furnished"
  {
    var val := "Fully Furnished";
    assert val == "Fully" + " " + "Furnished";
    assert val[6..] == "Furnish" + "ed";
    ContainsAt(val, "Furnish", 6);
    LettersWord("Fully");
    LettersWord("Furnished");
    WordsOfPair("Fully", "Furnished");
  }

  // ---------------------------------------------------------------------
  // Regulatory routing

  /**
    The four short codes are matched only by the whole label: a label goes
    to DED, RERA, ARRA or BRN exactly when, lower-cased, it is that code in
    lower case.
  */
  lemma RegCodesExact(caption: string)
    ensures RegColumn(caption) == Some(DED) <==> caption == "ded"
    ensures RegColumn(caption) == Some(RERA) <==> caption == "rera"
    ensures RegColumn(caption) == Some(ARRA) <==> caption == "arra"
    ensures RegColumn(caption) == Some(BRN) <==> caption == "brn"
  {
    if |caption| <= 4 {
      NotContainsLonger(caption, "permit number");
      NotContainsLonger(caption, "zone name");
      NotContainsLonger(caption, "registered agency");
    }
  }

  /** The three long labels only need to occur in the label. */
  lemma RegLongLabels(caption: string)
    ensures RegColumn(caption) == Some(PermitNumber) <==> Contains(caption, "permit number")
    ensures RegColumn(caption) == Some(ZoneName) <==>
      !Contains(caption, "permit number") && Contains(caption, "zone name")
    ensures RegColumn(caption) == Some(RegisteredAgency) <==>
      !Contains(caption, "permit number") && !Contains(caption, "zone name") && Contains(caption, "registered agency")
  {
  }

  /** A needle longer than the text does not occur in it. */
  lemma {:induction false} NotContainsLonger(s: string, needle: string)
    requires |needle| > |s|
    ensures !Contains(s, needle)
    decreases |s|
  {
    if |s| > 0 {
      NotContainsLonger(s[1..], needle);
    }
  }

  /** A regulatory column holds what the last item routed to it holds, or keeps its value. */
  lemma {:induction false} RegulatoryLastWins(row: Row, items: seq<RegItem>, f: Field)
    ensures RegValue(ApplyRegulatory(row, items), f) == LastSome(items, it => RegText(it, f)).GetOr(RegValue(row, f))
    decreases items
  {
    if items != [] {
      LastSomeFold(items, it => RegText(it, f), RegValue(row, f));
      RegStepValue(row, items[0], f);
      RegulatoryLastWins(RegStep(row, items[0]), items[1..], f);
    }
  }

  /** One item writes its value into the column it is routed to and into no other. */
  lemma RegStepValue(row: Row, item: RegItem, f: Field)
    ensures RegValue(RegStep(row, item), f) == RegText(item, f).GetOr(RegValue(row, f))
  {
    if item.name.Some? && item.value.Some? {
      var g := RegColumn(Lower(item.name.value));
      if g.Some? {
        assert RegStep(row, item) == SetRegulatory(row, g.value, item.value.value);
        SetRegulatoryValue(row, g.value, item.value.value, f);
      }
    }
  }

  /** Writing a regulatory column changes that column and no other. */
  lemma SetRegulatoryValue(row: Row, g: Field, v: string, f: Field)
    requires IsRegulatory(g)
    ensures RegValue(SetRegulatory(row, g, v), f) == if f == g then v else RegValue(row, f)
  {
  }

  /** An item whose label or value element is missing changes nothing. */
  lemma IncompleteItemSkipped(row: Row, a: seq<RegItem>, item: RegItem, b: seq<RegItem>)
    requires item.name.None? || item.value.None?
    ensures ApplyRegulatory(row, a + [item] + b) == ApplyRegulatory(row, a + b)
  {
    SkippedInColumn(row, a, item, b, PermitNumber);
    SkippedInColumn(row, a, item, b, ZoneName);
    SkippedInColumn(row, a, item, b, RegisteredAgency);
    SkippedInColumn(row, a, item, b, DED);
    SkippedInColumn(row, a, item, b, RERA);
    SkippedInColumn(row, a, item, b, ARRA);
    SkippedInColumn(row, a, item, b, BRN);
    SameRegulatory(row, ApplyRegulatory(row, a + [item] + b), ApplyRegulatory(row, a + b));
  }

  lemma SkippedInColumn(row: Row, a: seq<RegItem>, item: RegItem, b: seq<RegItem>, f: Field)
    requires item.name.None? || item.value.None?
    ensures RegValue(ApplyRegulatory(row, a + [item] + b), f) == RegValue(ApplyRegulatory(row, a + b), f)
  {
    RegulatoryLastWins(row, a + [item] + b, f);
    RegulatoryLastWins(row, a + b, f);
    LastSomeSkip(a, item, b, it => RegText(it, f));
  }

  /** Two rows that differ from `row` only in the regulatory columns, and agree on those, are equal. */
  lemma SameRegulatory(row: Row, x: Row, y: Row)
    requires x.(permitNumber := row.permitNumber, zoneName := row.zoneName,
                registeredAgency := row.registeredAgency, ded := row.ded,
                rera := row.rera, arra := row.arra, brn := row.brn) == row
    requires y.(permitNumber := row.permitNumber, zoneName := row.zoneName,
                registeredAgency := row.registeredAgency, ded := row.ded,
                rera := row.rera, arra := row.arra, brn := row.brn) == row
    requires RegValue(x, PermitNumber) == RegValue(y, PermitNumber)
    requires RegValue(x, ZoneName) == RegValue(y, ZoneName)
    requires RegValue(x, RegisteredAgency) == RegValue(y, RegisteredAgency)
    requires RegValue(x, DED) == RegValue(y, DED)
    requires RegValue(x, RERA) == RegValue(y, RERA)
    requires RegValue(x, ARRA) == RegValue(y, ARRA)
    requires RegValue(x, BRN) == RegValue(y, BRN)
    ensures x == y
  {
  }
}
