/**
  The finished row of `extract_bayut_fields`, column group by column group:
  where each column's value comes from on the page.
*/
module BayutPipeline {
  import opened Outcomes
  import opened PyStr
  import opened JsonValues
  import opened JsonLd
  import opened RawScan
  import opened BayutRow
  import opened Bayut
  import opened BayutProps

  /** The columns no step before the completion status writes. */
  predicate Untouched(row: Row) {
    && row.googleMapUrl == "" && row.latitude == "" && row.longitude == ""
    && row.plotArea == "" && row.instantBuy == ""
    && row.downPaymentType == "" && row.downPaymentValue == "" && row.downPaymentPrice == ""
    && row.serviceCharge == "" && row.completionStatus == "" && row.furnishingStatus == ""
    && row.permitNumber == "" && row.zoneName == "" && row.registeredAgency == ""
    && row.ded == "" && row.rera == "" && row.arra == "" && row.brn == ""
  }

  /** The header fields and the residence's fallbacks, before the features. */
  lemma PrefillFacts(page: Page, res: Option<map<string, Json>>)
    requires LdFallbacks(HeaderFields(InitialRow(), page), res).Ok?
    ensures var row := LdFallbacks(HeaderFields(InitialRow(), page), res).value;
      && Untouched(row)
      && row.propertyName == page.heading.GetOr("")
      && row.description == page.description.GetOr("")
      && row.location == page.header.GetOr("")
      && row.sellerName == "" && row.propertyType == "" && row.purchasePrice == JStr("")
      && row.referenceNumber == "" && row.totalFloors == "" && row.yearBuild == ""
      && row.handoverQuarter == "" && row.handoverYear == ""
  {
    var init := Row("", "", "", "", "", JStr("UAE"), "", "", "", "", "", "", "", "", "", JStr(""),
                    "", "", "", "", "", "", "", "", "", "", "", "", "", "", "", "", "");
    assert InitialRow() == init;
    var h := init.(propertyName := page.heading.GetOr(""), description := page.description.GetOr(""),
                   location := page.header.GetOr(""));
    assert HeaderFields(init, page) == h;
    var row := LdFallbacks(h, res).value;
    assert row.(country := h.country, bedrooms := h.bedrooms, bathrooms := h.bathrooms,
                propertyArea := h.propertyArea) == h;
  }

  /**
    After the fallbacks, country, bedrooms, bathrooms and area are the
    residence's, or "UAE" and "" without a residence.
  */
  lemma FallbackColumns(page: Page, res: Option<map<string, Json>>)
    requires LdFallbacks(HeaderFields(InitialRow(), page), res).Ok?
    ensures var row := LdFallbacks(HeaderFields(InitialRow(), page), res).value;
      && row.country == (if res.Some? then ResidenceCountry(res.value).GetOr(JStr("UAE")) else JStr("UAE"))
      && row.bedrooms == (if res.Some? then HeldText(res.value, "numberOfRooms") else "")
      && row.bathrooms == (if res.Some? then BathsText(res.value) else "")
      && row.propertyArea == (if res.Some? then HeldText(res.value, "floorSize") else "")
  {
    var h := HeaderFields(InitialRow(), page);
    assert h.country == JStr("UAE") && h.bedrooms == "" && h.bathrooms == "" && h.propertyArea == "";
  }

  /** `a or b` on two texts, as the feature overrides apply it. */
  function FeatureOr(feature: string, fallback: string): (r: string)
    ensures feature != "" ==> r == feature
    ensures feature == "" ==> r == fallback
  {
    if feature != "" then feature else fallback
  }

  /**
    The row when the seller loop ends: the header columns hold the found
    elements' texts; the features override the residence's values; each of
    the spec, price and seller columns holds what the last element that
    writes it wrote, or its initial value; the rest is as initialised.
  */
  lemma ScrapeFacts(page: Page, res: Option<map<string, Json>>, lds: seq<Json>)
    requires Scrape(page, res, lds).Ok?
    ensures var fb := LdFallbacks(HeaderFields(InitialRow(), page), res);
      fb.Ok? &&
      var row := Scrape(page, res, lds).value;
      && Untouched(row)
      && row.propertyName == page.heading.GetOr("")
      && row.description == page.description.GetOr("")
      && row.location == page.header.GetOr("")
      && row.country == fb.value.country
      && row.bedrooms == FeatureOr(GrabFeature(page.spans, "beds"), fb.value.bedrooms)
      && row.bathrooms == FeatureOr(GrabFeature(page.spans, "baths"), fb.value.bathrooms)
      && row.propertyArea == FeatureOr(GrabFeature(page.spans, "area"), fb.value.propertyArea)
      && row.referenceNumber == LastSome(page.spans, ReferenceText).GetOr("")
      && row.totalFloors == LastSome(page.spans, FloorsText).GetOr("")
      && row.yearBuild == LastSome(page.spans, BuiltText).GetOr("")
      && row.handoverQuarter == LastSome(page.spans, SpanQuarter).GetOr("")
      && row.handoverYear == LastSome(page.spans, SpanYear).GetOr("")
      && row.purchasePrice == LastSome(lds, PriceOrNone).GetOr(JStr(""))
      && row.sellerName == LastSome(lds, SellerOrNone).GetOr("")
      && row.propertyType == TypeText(page.html).GetOr("")
  {
    var fb := LdFallbacks(HeaderFields(InitialRow(), page), res);
    assert fb.Ok?;
    PrefillFacts(page, res);
    var p := FeatureOverrides(fb.value, page.spans);
    FeatureColumns(fb.value, page.spans);
    assert Prefill(page, res) == Ok(p);
    var s := ApplySpecs(p, page.spans).value;
    var q := ApplyPrices(s, lds).value;
    var t := PropertyTypeStep(q, page.html);
    assert t == q.(propertyType := TypeText(page.html).GetOr(q.propertyType));
    var row := ApplySellers(t, lds).value;
    assert Scrape(page, res, lds) == Ok(row);
    assert row == t.(sellerName := LastSome(lds, SellerOrNone).GetOr(t.sellerName));
  }

  /** The three features override the residence's values when they are not empty. */
  lemma FeatureColumns(row: Row, spans: seq<Span>)
    ensures FeatureOverrides(row, spans) == row.(
      bedrooms := FeatureOr(GrabFeature(spans, "beds"), row.bedrooms),
      bathrooms := FeatureOr(GrabFeature(spans, "baths"), row.bathrooms),
      propertyArea := FeatureOr(GrabFeature(spans, "area"), row.propertyArea))
  {
  }

  /** The page declares the property under construction: its completion status, dashes read as blanks, is "under construction" in any case. */
  predicate UnderConstruction(html: string) {
    match SearchQuoted(html, "completion_status")
    case Some(g) => Lower(ReplaceChar(g, '-', ' ')) == "under construction"
    case None => false
  }

  /** Title-casing the status does not change whether it reads "under construction". */
  lemma StatusReading(html: string)
    ensures Lower(StatusText(html).GetOr("")) == "under construction" <==> UnderConstruction(html)
  {
    match SearchQuoted(html, "completion_status")
    case Some(g) =>
      LowerOfTitle(ReplaceChar(g, '-', ' '));
    case None =>
      assert Lower("") == "";
  }

  /** The status steps, on a row whose completion status is still empty. */
  lemma StatusFacts(row: Row, page: Page)
    requires row.completionStatus == ""
    ensures StatusSteps(row, page) == row.(
      completionStatus := StatusText(page.html).GetOr(""),
      instantBuy := if UnderConstruction(page.html) then "" else "Yes",
      furnishingStatus := if page.furnishing.Some? then FurnishingText(page.furnishing.value) else row.furnishingStatus)
  {
    var c := CompletionStep(row, page.html);
    assert c == row.(completionStatus := StatusText(page.html).GetOr(""));
    StatusReading(page.html);
  }

  /** The location steps: the coordinates, then the link built from them when both are set. */
  lemma LocationFacts(row: Row, res: Option<map<string, Json>>, lds: seq<Json>)
    ensures var coords := LatLonStep(row, res, lds);
      LocationSteps(row, res, lds) == row.(
        latitude := coords.latitude, longitude := coords.longitude,
        googleMapUrl := if coords.latitude != "" && coords.longitude != ""
                        then MapsPrefix + coords.latitude + "," + coords.longitude
                        else row.googleMapUrl)
  {
    LatLonOnlyCoords(row, row, res, lds);
  }

  /**
    The steps after the seller loop write the completion status, Instant
    Buy, the furnishing status, the regulatory columns, the coordinates and
    the map link, and nothing else.
  */
  lemma FinishFacts(row: Row, page: Page, res: Option<map<string, Json>>, lds: seq<Json>)
    requires Untouched(row)
    ensures var r := Finish(row, page, res, lds);
      var coords := LatLonStep(row, res, lds);
      && r.completionStatus == StatusText(page.html).GetOr("")
      && r.instantBuy == (if UnderConstruction(page.html) then "" else "Yes")
      && r.furnishingStatus == (if page.furnishing.Some? then FurnishingText(page.furnishing.value) else "")
      && r.latitude == coords.latitude && r.longitude == coords.longitude
      && r.googleMapUrl == (if coords.latitude != "" && coords.longitude != ""
                            then MapsPrefix + coords.latitude + "," + coords.longitude else "")
      && r.(completionStatus := "", instantBuy := "", furnishingStatus := "",
            latitude := "", longitude := "", googleMapUrl := "",
            permitNumber := "", zoneName := "", registeredAgency := "",
            ded := "", rera := "", arra := "", brn := "") == row
  {
    StatusFacts(row, page);
    var st := StatusSteps(row, page);
    var g := ApplyRegulatory(st, page.regulatory);
    LatLonOnlyCoords(row, g, res, lds);
    LocationFacts(g, res, lds);
  }

  /**
    The coordinates step writes the two coordinates and nothing else, and
    what it writes depends only on the coordinates it starts from.
  */
  lemma LatLonOnlyCoords(a: Row, b: Row, res: Option<map<string, Json>>, lds: seq<Json>)
    requires a.latitude == b.latitude && a.longitude == b.longitude
    ensures var ra, rb := LatLonStep(a, res, lds), LatLonStep(b, res, lds);
      rb == b.(latitude := ra.latitude, longitude := ra.longitude)
  {
  }

  // ---------------------------------------------------------------------
  // The finished row

  /** A row the extractor returns comes from the JSON-LD entries, the residence among them, and the row the seller loop left. */
  lemma Unpack(page: Page) returns (lds: seq<Json>, res: Option<map<string, Json>>, scraped: Row)
    requires BayutFields(page).Ok?
    ensures lds == Flatten(page.ldBlocks)
    ensures GetResidence(lds) == Ok(res)
    ensures Scrape(page, res, lds) == Ok(scraped)
    ensures BayutFields(page).value == Finish(scraped, page, res, lds)
  {
    lds := Flatten(page.ldBlocks);
    res := GetResidence(lds).value;
    scraped := Scrape(page, res, lds).value;
  }

  /** Name, description and location are the texts of the elements found, or "". */
  lemma RowHeaderColumns(page: Page)
    requires BayutFields(page).Ok?
    ensures var row := BayutFields(page).value;
      && row.propertyName == page.heading.GetOr("")
      && row.description == page.description.GetOr("")
      && row.location == page.header.GetOr("")
  {
    var lds, res, scraped := Unpack(page);
    ScrapeFacts(page, res, lds);
    FinishFacts(scraped, page, res, lds);
  }

  /**
    Each spec column holds what the last labelled span routed to it wrote,
    and is "" when there is none.
  */
  lemma RowSpecColumns(page: Page)
    requires BayutFields(page).Ok?
    ensures var row := BayutFields(page).value;
      && row.referenceNumber == LastSome(page.spans, ReferenceText).GetOr("")
      && row.totalFloors == LastSome(page.spans, FloorsText).GetOr("")
      && row.yearBuild == LastSome(page.spans, BuiltText).GetOr("")
      && row.handoverQuarter == LastSome(page.spans, SpanQuarter).GetOr("")
      && row.handoverYear == LastSome(page.spans, SpanYear).GetOr("")
  {
    var lds, res, scraped := Unpack(page);
    ScrapeFacts(page, res, lds);
    FinishFacts(scraped, page, res, lds);
  }

  /**
    The purchase price and the seller are those of the last ItemPage entry
    that gives one, and "" when none does.
  */
  lemma RowOfferColumns(page: Page)
    requires BayutFields(page).Ok?
    ensures var row := BayutFields(page).value;
      var lds := Flatten(page.ldBlocks);
      && row.purchasePrice == LastSome(lds, PriceOrNone).GetOr(JStr(""))
      && row.sellerName == LastSome(lds, SellerOrNone).GetOr("")
  {
    var lds, res, scraped := Unpack(page);
    ScrapeFacts(page, res, lds);
    FinishFacts(scraped, page, res, lds);
  }

  /**
    Bedrooms, bathrooms and area are the features found on the page when
    they are not empty, and the residence's values otherwise.
  */
  lemma RowFeatureColumns(page: Page)
    requires BayutFields(page).Ok?
    ensures var row := BayutFields(page).value;
      var res := GetResidence(Flatten(page.ldBlocks)).value;
      && (res.Some? ==> !HoldsNonDict(res.value, "numberOfRooms") && !HoldsNonDict(res.value, "floorSize"))
      && row.bedrooms == FeatureOr(GrabFeature(page.spans, "beds"),
                                   if res.Some? then HeldText(res.value, "numberOfRooms") else "")
      && row.bathrooms == FeatureOr(GrabFeature(page.spans, "baths"),
                                    if res.Some? then BathsText(res.value) else "")
      && row.propertyArea == FeatureOr(GrabFeature(page.spans, "area"),
                                       if res.Some? then HeldText(res.value, "floorSize") else "")
      && row.country == (if res.Some? then ResidenceCountry(res.value).GetOr(JStr("UAE")) else JStr("UAE"))
  {
    var lds, res, scraped := Unpack(page);
    ScrapeFacts(page, res, lds);
    FallbackColumns(page, res);
    FinishFacts(scraped, page, res, lds);
  }

  /**
    Property type and completion status come from the raw-text searches;
    Instant Buy is "" exactly for a property under construction and "Yes"
    otherwise; the furnishing status is the furnishing text found, or "".
  */
  lemma RowStatusColumns(page: Page)
    requires BayutFields(page).Ok?
    ensures var row := BayutFields(page).value;
      && row.propertyType == TypeText(page.html).GetOr("")
      && row.completionStatus == StatusText(page.html).GetOr("")
      && (row.instantBuy == "" <==> UnderConstruction(page.html))
      && (row.instantBuy != "" ==> row.instantBuy == "Yes")
      && row.furnishingStatus == (if page.furnishing.Some? then FurnishingText(page.furnishing.value) else "")
  {
    var lds, res, scraped := Unpack(page);
    ScrapeFacts(page, res, lds);
    FinishFacts(scraped, page, res, lds);
  }

  /** Each regulatory column holds the value of the last complete item routed to it, or "". */
  lemma RowRegulatoryColumn(page: Page, f: Field)
    requires BayutFields(page).Ok?
    requires IsRegulatory(f)
    ensures RegValue(BayutFields(page).value, f) == LastSome(page.regulatory, it => RegText(it, f)).GetOr("")
  {
    var lds, res, scraped := Unpack(page);
    ScrapedUntouched(page, res, lds);
    StatusKeepsRegulatory(scraped, page, f);
    var st := StatusSteps(scraped, page);
    RegulatoryLastWins(st, page.regulatory, f);
    LocationKeepsRegulatory(ApplyRegulatory(st, page.regulatory), res, lds, f);
  }

  /** The seller loop leaves the later columns as initialised. */
  lemma ScrapedUntouched(page: Page, res: Option<map<string, Json>>, lds: seq<Json>)
    requires Scrape(page, res, lds).Ok?
    ensures Untouched(Scrape(page, res, lds).value)
  {
    ScrapeFacts(page, res, lds);
  }

  /** The status steps leave the regulatory columns empty. */
  lemma StatusKeepsRegulatory(row: Row, page: Page, f: Field)
    requires Untouched(row) && IsRegulatory(f)
    ensures RegValue(StatusSteps(row, page), f) == ""
  {
    StatusFacts(row, page);
  }

  /** The location steps leave the regulatory columns alone. */
  lemma LocationKeepsRegulatory(row: Row, res: Option<map<string, Json>>, lds: seq<Json>, f: Field)
    ensures RegValue(LocationSteps(row, res, lds), f) == RegValue(row, f)
  {
    LocationFacts(row, res, lds);
  }

  /**
    The map link is the Google Maps URL of the coordinates when both are
    set, and "" otherwise.
  */
  lemma RowMapLink(page: Page)
    requires BayutFields(page).Ok?
    ensures var row := BayutFields(page).value;
      row.googleMapUrl == (if row.latitude != "" && row.longitude != ""
                           then MapsPrefix + row.latitude + "," + row.longitude else "")
  {
    var lds, res, scraped := Unpack(page);
    ScrapeFacts(page, res, lds);
    FinishFacts(scraped, page, res, lds);
  }

  /** Plot area, the three down-payment columns and the service charge are never filled. */
  lemma RowUnfilledColumns(page: Page)
    requires BayutFields(page).Ok?
    ensures var row := BayutFields(page).value;
      && row.plotArea == "" && row.serviceCharge == ""
      && row.downPaymentType == "" && row.downPaymentValue == "" && row.downPaymentPrice == ""
  {
    var lds, res, scraped := Unpack(page);
    ScrapeFacts(page, res, lds);
    FinishFacts(scraped, page, res, lds);
  }

  // ---------------------------------------------------------------------
  // When the extractor raises

  /**
    A JSON-LD entry that is not an object makes the extraction raise: the
    residence scan or, if that stops earlier, the price loop calls `.get`
    on it, unless an earlier step has raised already.
  */
  lemma NonObjectEntryRaises(page: Page, k: nat)
    requires k < |Flatten(page.ldBlocks)| && !Flatten(page.ldBlocks)[k].JObj?
    ensures BayutFields(page).Err?
  {
    var lds := Flatten(page.ldBlocks);
    if GetResidence(lds).Ok? {
      var res := GetResidence(lds).value;
      assert OfferPrice(lds[k]).Err?;
      if Prefill(page, res).Ok? {
        var p := Prefill(page, res).value;
        if ApplySpecs(p, page.spans).Ok? {
          assert ApplyPrices(ApplySpecs(p, page.spans).value, lds).Err?;
        }
      }
    }
  }

  /**
    A handover date that is quarter-shaped but has more than two words
    makes the extraction raise, with ValueError unless the JSON-LD steps
    before the spec loop raised first.
  */
  lemma BadHandoverRaises(page: Page, k: nat)
    requires k < |page.spans| && SpanRaises(page.spans[k])
    ensures BayutFields(page).Err?
    ensures var lds := Flatten(page.ldBlocks);
      GetResidence(lds).Ok? && Prefill(page, GetResidence(lds).value).Ok? ==> BayutFields(page) == Err(ValueError)
  {
    var lds := Flatten(page.ldBlocks);
    if GetResidence(lds).Ok? {
      ScrapeRaises(page, GetResidence(lds).value, lds, k);
    }
  }

  /** A raising span stops the scrape, with ValueError once the prefill succeeds. */
  lemma ScrapeRaises(page: Page, res: Option<map<string, Json>>, lds: seq<Json>, k: nat)
    requires k < |page.spans| && SpanRaises(page.spans[k])
    ensures Scrape(page, res, lds).Err?
    ensures Prefill(page, res).Ok? ==> Scrape(page, res, lds) == Err(ValueError)
  {
    var pre := Prefill(page, res);
    if pre.Ok? {
      var specs := ApplySpecs(pre.value, page.spans);
      assert specs.Err? && specs.error == ValueError by {
        assert 0 <= k < |page.spans| && SpanRaises(page.spans[k]);
      }
      assert Scrape(page, res, lds) == specs.PropagateFailure();
    } else {
      assert Scrape(page, res, lds) == pre.PropagateFailure();
    }
  }
}
