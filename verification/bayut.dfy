/**
  `extract_bayut_fields(html)`: fills one spreadsheet row from a saved Bayut
  listing page, from its DOM, its JSON-LD blocks and two raw-text searches.

  HTML parsing is not modelled: a `Page` carries what BeautifulSoup's lookups
  return for the page (the texts of the elements the extractor asks for, in
  document order) and the outcome of `json.loads` on each JSON-LD block.
*/
module Bayut {
  import opened Outcomes
  import opened PyStr
  import opened JsonValues
  import opened JsonLd
  import opened RawScan
  import opened BayutRow

  // ---------------------------------------------------------------------
  // The page as the extractor sees it

  /**
    A `<span>` with an `aria-label` attribute: the attribute's value, the
    text of its first inner `span._3458a9d4` if it has one, and its own text
    (both as `get_text(" ", strip=True)` gives them).
  */
  datatype Span = Span(aria: string, inner: Option<string>, text: string)

  /**
    An `li` of `ul._7d2126bd`: the texts of its `div._52bcc5bc` label and of
    its `span._677f9d24` value, each absent when the element is missing.
  */
  datatype RegItem = RegItem(name: Option<string>, value: Option<string>)

  datatype Page = Page(
    html: string,                   // the raw page text
    heading: Option<string>,        // the first `h1`
    description: Option<string>,    // the description element
    header: Option<string>,         // `div[aria-label="Property header"]`
    furnishing: Option<string>,     // `li[aria-label="Property furnishing status"]`
    spans: seq<Span>,               // every `span` with an `aria-label`
    regulatory: seq<RegItem>,       // every `ul._7d2126bd li`
    ldBlocks: seq<Option<Json>>)    // every JSON-LD block, parsed or failed

  /** The text a span yields: that of its inner value span, or its own. */
  function SpanText(sp: Span): string {
    sp.inner.GetOr(sp.text)
  }

  // ---------------------------------------------------------------------
  // Name, description and location

  /** An element that was found sets its column, even to the empty string. */
  function HeaderFields(row: Row, page: Page): Row {
    var row := if page.heading.Some? then row.(propertyName := page.heading.value) else row;
    var row := if page.description.Some? then row.(description := page.description.value) else row;
    if page.header.Some? then row.(location := page.header.value) else row
  }

  // ---------------------------------------------------------------------
  // Country, bedrooms, bathrooms and area from the residence

  /** `str(v) or old` */
  function StrOr(s: string, prev: string): (r: string)
    ensures r == s || r == prev
    ensures r == "" <==> s == "" && prev == ""
  {
    if s != "" then s else prev
  }

  /** `fields[key]` is a true value that is not a dict, so `(x or {}).get` raises. */
  predicate HoldsNonDict(fields: map<string, Json>, key: string) {
    key in fields && Truthy(fields[key]) && !fields[key].JObj?
  }

  /** `str(fields[key]["value"])` when `fields[key]` is a dict holding "value", and "" otherwise. */
  function HeldText(fields: map<string, Json>, key: string): string {
    if key in fields && fields[key].JObj? && "value" in fields[key].fields
    then ToStr(fields[key].fields["value"]) else ""
  }

  /** `str(fields.get("numberOfBathroomsTotal", ""))` */
  function BathsText(fields: map<string, Json>): string {
    ToStr(Lookup(fields, "numberOfBathroomsTotal", JStr("")))
  }

  /**
    The country the residence names: the address's `addressCountry`, "UAE"
    for an address dict without one, and none without an address dict.
  */
  function ResidenceCountry(fields: map<string, Json>): Option<Json> {
    if "address" in fields && fields["address"].JObj? then
      if "addressCountry" in fields["address"].fields then Some(fields["address"].fields["addressCountry"])
      else Some(JStr("UAE"))
    else None
  }

  /**
    The residence's fallbacks. `(x or {}).get(...)` raises AttributeError
    when `x` is a true value that is not a dict: that happens exactly when
    `numberOfRooms` or `floorSize` holds one. Otherwise the country becomes
    the one the residence names, and bedrooms, bathrooms and area become the
    residence's texts when these are not empty.
  */
  function LdFallbacks(row: Row, res: Option<map<string, Json>>): (r: Result<Row>)
    ensures res.None? ==> r == Ok(row)
    ensures r.Err? ==> r.error == AttributeError
    ensures res.Some? ==>
      (r.Err? <==> HoldsNonDict(res.value, "numberOfRooms") || HoldsNonDict(res.value, "floorSize"))
    ensures r.Ok? && res.Some? ==>
      var fields := res.value;
      && r.value.country == ResidenceCountry(fields).GetOr(row.country)
      && r.value.bedrooms == StrOr(HeldText(fields, "numberOfRooms"), row.bedrooms)
      && r.value.bathrooms == StrOr(BathsText(fields), row.bathrooms)
      && r.value.propertyArea == StrOr(HeldText(fields, "floorSize"), row.propertyArea)
    ensures r.Ok? ==> r.value.(country := row.country, bedrooms := row.bedrooms,
                              bathrooms := row.bathrooms, propertyArea := row.propertyArea) == row
  {
    if res.None? then Ok(row)
    else
      var fields := res.value;
      var address := Lookup(fields, "address", JNull);
      var row := if address.JObj? then row.(country := Lookup(address.fields, "addressCountry", JStr("UAE"))) else row;
      var rooms :- Get(Or(Lookup(fields, "numberOfRooms", JNull), EmptyObj), "value", JStr(""));
      var row := row.(bedrooms := StrOr(ToStr(rooms), row.bedrooms));
      var baths := Lookup(fields, "numberOfBathroomsTotal", JStr(""));
      var row := row.(bathrooms := StrOr(ToStr(baths), row.bathrooms));
      var area :- Get(Or(Lookup(fields, "floorSize", JNull), EmptyObj), "value", JStr(""));
      Ok(row.(propertyArea := StrOr(ToStr(area), row.propertyArea)))
  }

  // ---------------------------------------------------------------------
  // `_grab_feature`: beds, baths and area from the labelled spans

  /**
    `re.search("^WORD$", label, re.I)` for a lower-case WORD: the label is
    WORD up to case, optionally followed by one final newline (which `$`
    accepts).
  */
  predicate LabelIs(caption: string, word: string) {
    || FoldsAll(caption, word)
    || (|caption| == |word| + 1 && caption[|word|] == '\n' && FoldsAll(caption[..|word|], word))
  }

  /** `_grab_feature`: the text of the first span whose label is WORD, or "". */
  function GrabFeature(spans: seq<Span>, word: string): (r: string)
    ensures (forall i :: 0 <= i < |spans| ==> !LabelIs(spans[i].aria, word)) ==> r == ""
  {
    if spans == [] then ""
    else if LabelIs(spans[0].aria, word) then SpanText(spans[0])
    else GrabFeature(spans[1..], word)
  }

  /** A feature found with a non-empty text overrides the JSON-LD value. */
  function FeatureOverrides(row: Row, spans: seq<Span>): Row {
    var beds := GrabFeature(spans, "beds");
    var baths := GrabFeature(spans, "baths");
    var area := GrabFeature(spans, "area");
    var row := if beds != "" then row.(bedrooms := beds) else row;
    var row := if baths != "" then row.(bathrooms := baths) else row;
    if area != "" then row.(propertyArea := area) else row
  }

  // ---------------------------------------------------------------------
  // The other specs: reference, floors, year built, handover date

  datatype SpecKind = ReferenceSpec | FloorsSpec | CompletionYearSpec | HandoverSpec | OtherSpec

  /** Routing on the stripped, lower-cased label: the first substring test that holds wins. */
  function SpecKindOf(caption: string): SpecKind {
    var l := Lower(Strip(caption));
    if Contains(l, "reference") then ReferenceSpec
    else if Contains(l, "total floors") then FloorsSpec
    else if Contains(l, "year of completion") then CompletionYearSpec
    else if Contains(l, "handover date") then HandoverSpec
    else OtherSpec
  }

  /** `re.match(r"\d{4}", s)`: four digits at the start. */
  predicate FourDigits(s: string) {
    |s| >= 4 && IsDigit(s[0]) && IsDigit(s[1]) && IsDigit(s[2]) && IsDigit(s[3])
  }

  /** `re.match(r"Q\d\s+\d{4}", s)`: a quarter, blanks, then a year, at the start. */
  predicate QuarterShaped(s: string) {
    && |s| >= 2 && s[0] == 'Q' && IsDigit(s[1])
    && var n := LeadingSpaces(s[2..]);
       n >= 1 && FourDigits(s[2 + n..])
  }

  /**
    A date of the form "Qn yyyy...": its first word is the quarter "Qn", its
    second starts with the four digits of the year.
  */
  lemma QuarterWords(val: string)
    requires QuarterShaped(val)
    ensures |Words(val)| >= 2
    ensures Words(val)[0] == val[..2]
    ensures FourDigits(Words(val)[1])
  {
    assert LeadingSpaces(val) == 0;
    assert TokenLen(val) == 2;
    var rest := val[2..];
    assert Words(val) == [val[..2]] + Words(rest);
    WordsOfYear(rest);
  }

  /** After the quarter: blanks, then a word that starts with four digits. */
  lemma WordsOfYear(rest: string)
    requires LeadingSpaces(rest) >= 1 && FourDigits(rest[LeadingSpaces(rest)..])
    ensures |Words(rest)| >= 1 && FourDigits(Words(rest)[0])
  {
    var t := rest[LeadingSpaces(rest)..];
    var k := TokenLen(t);
    assert k >= 4;
    assert Words(rest) == [t[..k]] + Words(t[k..]);
  }

  /** The quarter an upper-cased handover date gives: "Qn" of a two-word "Qn yyyy" date. */
  function QuarterOf(val: string): Option<string> {
    if QuarterShaped(val) && |Words(val)| == 2 then Some(val[..2]) else None
  }

  /**
    The year an upper-cased handover date gives: the second word of a
    two-word "Qn yyyy" date, or, for a date that is not of that shape but
    starts with four digits, the whole date.
  */
  function YearOf(val: string): (y: Option<string>)
    ensures y.Some? ==> FourDigits(y.value)
  {
    if QuarterShaped(val) then
      QuarterWords(val);
      if |Words(val)| == 2 then Some(Words(val)[1]) else None
    else if FourDigits(val) then Some(val)
    else None
  }

  /** The handover step raises on a "Qn yyyy" date with more than two words. */
  predicate HandoverRaises(val: string) {
    QuarterShaped(val) && |Words(val)| != 2
  }

  /**
    A handover date, upper-cased. A "Qn yyyy" date is unpacked with
    `q, y = val.split()`, which raises ValueError unless it has exactly two
    words; a date that starts with a year is kept whole.
  */
  function HandoverStep(row: Row, val: string): (r: Result<Row>)
    ensures r.Err? <==> HandoverRaises(val)
    ensures r.Err? ==> r.error == ValueError
    ensures r.Ok? ==> r.value == row.(
      handoverQuarter := QuarterOf(val).GetOr(row.handoverQuarter),
      handoverYear := YearOf(val).GetOr(row.handoverYear))
  {
    if QuarterShaped(val) then
      var parts := Words(val);
      if |parts| != 2 then Err(ValueError)
      else
        QuarterWords(val);
        Ok(row.(handoverQuarter := parts[0]).(handoverYear := parts[1]))
    else if FourDigits(val) then Ok(row.(handoverYear := val))
    else Ok(row)
  }

  /** The text a span writes into the column its label routes it to, if that is `kind`'s. */
  function RoutedText(sp: Span, kind: SpecKind): Option<string> {
    if SpecKindOf(sp.aria) == kind then Some(SpanText(sp)) else None
  }

  /** What a span writes into the reference, total floors and year built columns. */
  function ReferenceText(sp: Span): Option<string> {
    RoutedText(sp, ReferenceSpec)
  }

  function FloorsText(sp: Span): Option<string> {
    RoutedText(sp, FloorsSpec)
  }

  function BuiltText(sp: Span): Option<string> {
    RoutedText(sp, CompletionYearSpec)
  }

  /** The handover quarter and year a span writes. */
  function SpanQuarter(sp: Span): Option<string> {
    if SpecKindOf(sp.aria) == HandoverSpec then QuarterOf(Upper(SpanText(sp))) else None
  }

  function SpanYear(sp: Span): Option<string> {
    if SpecKindOf(sp.aria) == HandoverSpec then YearOf(Upper(SpanText(sp))) else None
  }

  predicate SpanRaises(sp: Span) {
    SpecKindOf(sp.aria) == HandoverSpec && HandoverRaises(Upper(SpanText(sp)))
  }

  /** One labelled span, routed by its label. */
  function SpanStep(row: Row, sp: Span): (r: Result<Row>)
    ensures r.Err? <==> SpanRaises(sp)
    ensures r.Err? ==> r.error == ValueError
    ensures r.Ok? ==> r.value == row.(
      referenceNumber := ReferenceText(sp).GetOr(row.referenceNumber),
      totalFloors := FloorsText(sp).GetOr(row.totalFloors),
      yearBuild := BuiltText(sp).GetOr(row.yearBuild),
      handoverQuarter := SpanQuarter(sp).GetOr(row.handoverQuarter),
      handoverYear := SpanYear(sp).GetOr(row.handoverYear))
  {
    var value := SpanText(sp);
    match SpecKindOf(sp.aria)
    case ReferenceSpec => Ok(row.(referenceNumber := value))
    case FloorsSpec => Ok(row.(totalFloors := value))
    case CompletionYearSpec => Ok(row.(yearBuild := value))
    case HandoverSpec => HandoverStep(row, Upper(value))
    case OtherSpec => Ok(row)
  }

  /**
    The spec loop over every labelled span, in document order. It raises
    exactly when some span raises; otherwise each of its five columns holds
    what the last span that writes it wrote, and keeps its value when none
    does.
  */
  function ApplySpecs(row: Row, spans: seq<Span>): (r: Result<Row>)
    ensures r.Err? <==> exists i :: 0 <= i < |spans| && SpanRaises(spans[i])
    ensures r.Err? ==> r.error == ValueError
    ensures r.Ok? ==> r.value == row.(
      referenceNumber := LastSome(spans, ReferenceText).GetOr(row.referenceNumber),
      totalFloors := LastSome(spans, FloorsText).GetOr(row.totalFloors),
      yearBuild := LastSome(spans, BuiltText).GetOr(row.yearBuild),
      handoverQuarter := LastSome(spans, SpanQuarter).GetOr(row.handoverQuarter),
      handoverYear := LastSome(spans, SpanYear).GetOr(row.handoverYear))
    decreases spans
  {
    if spans == [] then Ok(row)
    else
      RaisingSpanShift(spans);
      LastSomeFold(spans, ReferenceText, row.referenceNumber);
      LastSomeFold(spans, FloorsText, row.totalFloors);
      LastSomeFold(spans, BuiltText, row.yearBuild);
      LastSomeFold(spans, SpanQuarter, row.handoverQuarter);
      LastSomeFold(spans, SpanYear, row.handoverYear);
      var row :- SpanStep(row, spans[0]);
      ApplySpecs(row, spans[1..])
  }

  /** Some span raises exactly when the first does or one of the rest does. */
  lemma RaisingSpanShift(spans: seq<Span>)
    requires spans != []
    ensures (exists i :: 0 <= i < |spans| && SpanRaises(spans[i])) <==>
      SpanRaises(spans[0]) || exists i :: 0 <= i < |spans[1..]| && SpanRaises(spans[1..][i])
  {
    SomeShift(spans, SpanRaises);
  }


  // ---------------------------------------------------------------------
  // Price and seller from the ItemPage entries

  /**
    The first offer of an entry's fields: there is one when the entry is an
    ItemPage whose `mainEntity` is a dict with a non-empty list of offers.
  */
  function FirstOffer(fields: map<string, Json>): Option<Json> {
    if && Lookup(fields, "@type", JNull) == JStr("ItemPage")
       && "mainEntity" in fields && fields["mainEntity"].JObj?
       && "offers" in fields["mainEntity"].fields
       && fields["mainEntity"].fields["offers"].JArr?
       && fields["mainEntity"].fields["offers"].items != []
    then Some(fields["mainEntity"].fields["offers"].items[0])
    else None
  }

  /**
    The price one JSON-LD entry yields: `None` when it has no first offer;
    otherwise the offer's `priceSpecification.price`, each level defaulting
    to `{}` and "" when absent. `o.get` raises on an entry that is not a
    dict, and so do the `.get`s on a first offer or a price specification
    that is not one.
  */
  function OfferPrice(o: Json): (r: Result<Option<Json>>)
    ensures !o.JObj? ==> r == Err(AttributeError)
    ensures r.Err? ==> r.error == AttributeError
    ensures o.JObj? && FirstOffer(o.fields).None? ==> r == Ok(None)
    ensures o.JObj? && FirstOffer(o.fields).Some? ==>
      var offer := FirstOffer(o.fields).value;
      var ps := if offer.JObj? then Lookup(offer.fields, "priceSpecification", EmptyObj) else JNull;
      && (r.Ok? <==> offer.JObj? && ps.JObj?)
      && (r.Ok? ==> r.value == Some(Lookup(ps.fields, "price", JStr(""))))
  {
    if !o.JObj? then Err(AttributeError)
    else
      var main := Lookup(o.fields, "mainEntity", JNull);
      if !(Lookup(o.fields, "@type", JNull) == JStr("ItemPage") && main.JObj?) then Ok(None)
      else
        var offers := Or(Lookup(main.fields, "offers", JNull), JArr([]));
        if !(offers.JArr? && offers.items != []) then Ok(None)
        else
          var ps :- Get(offers.items[0], "priceSpecification", EmptyObj);
          var price :- Get(ps, "price", JStr(""));
          Ok(Some(price))
  }

  /** The price an entry sets, counting an entry that raises as setting none. */
  function PriceOrNone(o: Json): Option<Json> {
    match OfferPrice(o)
    case Ok(p) => p
    case Err(_) => None
  }

  /**
    The price loop: it raises exactly when some entry raises; otherwise the
    price is that of the last ItemPage offer, or stays as it was.
  */
  function ApplyPrices(row: Row, lds: seq<Json>): (r: Result<Row>)
    ensures r.Err? <==> exists i :: 0 <= i < |lds| && OfferPrice(lds[i]).Err?
    ensures r.Err? ==> r.error == AttributeError
    ensures r.Ok? ==> r.value == row.(purchasePrice := LastSome(lds, PriceOrNone).GetOr(row.purchasePrice))
    decreases lds
  {
    if lds == [] then Ok(row)
    else
      assert forall i :: 0 < i < |lds| ==> lds[i] == lds[1..][i - 1];
      LastSomeFold(lds, PriceOrNone, row.purchasePrice);
      var price :- OfferPrice(lds[0]);
      var row := if price.Some? then row.(purchasePrice := price.value) else row;
      ApplyPrices(row, lds[1..])
  }

  /**
    The `offeredBy` the seller loop reaches from an entry's fields: the first
    offer's `offeredBy`, or `{}`, through `mainEntity or {}` and
    `(offers or [{}])[0]`.
  */
  function OfferedBy(fields: map<string, Json>): Result<Json> {
    var offers :- Get(Or(Lookup(fields, "mainEntity", JNull), EmptyObj), "offers", JNull);
    var offer :- Index0(Or(offers, JArr([EmptyObj])));
    var offerer :- Get(offer, "offeredBy", JNull);
    Ok(Or(offerer, EmptyObj))
  }

  /** `org.get("name", "")`, with `org` the `parentOrganization` of `offeredBy`, or `{}`. */
  function OrgName(fields: map<string, Json>): Result<Json> {
    var offeredBy :- OfferedBy(fields);
    var parent :- Get(offeredBy, "parentOrganization", JNull);
    Get(Or(parent, EmptyObj), "name", JStr(""))
  }

  /** `offeredBy.get("name", "")`. */
  function OffererName(fields: map<string, Json>): Result<Json> {
    var offeredBy :- OfferedBy(fields);
    Get(offeredBy, "name", JStr(""))
  }

  /**
    The seller one JSON-LD entry names: `None` when it is not an ItemPage,
    otherwise `_first` of the parent organisation's name and the offerer's
    name. Along the chain of `or` defaults, each `.get` raises AttributeError
    on a true value that is not a dict, and `(offers or [{}])[0]` raises as
    `x[0]` does on what `offers` holds. That value is true, so it is never
    empty and the indexing never raises IndexError.
  */
  function OfferSeller(o: Json): (r: Result<Option<string>>)
    ensures !o.JObj? ==> r == Err(AttributeError)
    ensures o.JObj? && Lookup(o.fields, "@type", JNull) != JStr("ItemPage") ==> r == Ok(None)
    ensures r.Err? ==> r.error == AttributeError || r.error == KeyError || r.error == TypeError
    ensures o.JObj? && Lookup(o.fields, "@type", JNull) == JStr("ItemPage") ==>
      && (r.Ok? <==> OrgName(o.fields).Ok? && OffererName(o.fields).Ok?)
      && (r.Err? ==> OrgName(o.fields).Err? && r.error == OrgName(o.fields).error)
      && (r.Ok? ==> r.value == Some(First([OrgName(o.fields).value, OffererName(o.fields).value])))
  {
    if !o.JObj? then Err(AttributeError)
    else if Lookup(o.fields, "@type", JNull) != JStr("ItemPage") then Ok(None)
    else
      var main := Or(Lookup(o.fields, "mainEntity", JNull), EmptyObj);
      var offers :- Get(main, "offers", JNull);
      var offer :- Index0(Or(offers, JArr([EmptyObj])));
      var offerer :- Get(offer, "offeredBy", JNull);
      var offeredBy := Or(offerer, EmptyObj);
      var parent :- Get(offeredBy, "parentOrganization", JNull);
      var org := Or(parent, EmptyObj);
      var orgName :- Get(org, "name", JStr(""));
      // `offeredBy` answered `.get` above, so it is a dict
      var byName := Lookup(offeredBy.fields, "name", JStr(""));
      Ok(Some(First([orgName, byName])))
  }

  /** The seller an entry names, counting an entry that raises as naming none. */
  function SellerOrNone(o: Json): Option<string> {
    match OfferSeller(o)
    case Ok(s) => s
    case Err(_) => None
  }

  /**
    The seller loop: it raises with the exception of the first entry that
    raises; otherwise the seller is the one the last ItemPage names, even
    "", or stays as it was.
  */
  function ApplySellers(row: Row, lds: seq<Json>): (r: Result<Row>)
    ensures r.Ok? <==> forall i :: 0 <= i < |lds| ==> OfferSeller(lds[i]).Ok?
    ensures r.Err? ==> exists i :: 0 <= i < |lds| && OfferSeller(lds[i]) == Err(r.error)
                         && forall j :: 0 <= j < i ==> OfferSeller(lds[j]).Ok?
    ensures r.Ok? ==> r.value == row.(sellerName := LastSome(lds, SellerOrNone).GetOr(row.sellerName))
    decreases lds
  {
    if lds == [] then Ok(row)
    else
      assert forall i :: 0 < i < |lds| ==> lds[i] == lds[1..][i - 1];
      LastSomeFold(lds, SellerOrNone, row.sellerName);
      var seller :- OfferSeller(lds[0]);
      var row := if seller.Some? then row.(sellerName := seller.value) else row;
      var rest := ApplySellers(row, lds[1..]);
      if rest.Err? then SellerFailureShift(lds, rest.error); rest else rest
  }

  /** The first entry whose seller raises in the tail is one in the whole list, after an entry that does not raise. */
  lemma SellerFailureShift(lds: seq<Json>, e: PyError)
    requires lds != [] && OfferSeller(lds[0]).Ok?
    requires exists i :: 0 <= i < |lds[1..]| && OfferSeller(lds[1..][i]) == Err(e)
                         && forall j :: 0 <= j < i ==> OfferSeller(lds[1..][j]).Ok?
    ensures exists i :: 0 <= i < |lds| && OfferSeller(lds[i]) == Err(e)
                        && forall j :: 0 <= j < i ==> OfferSeller(lds[j]).Ok?
  {
    var i :| 0 <= i < |lds[1..]| && OfferSeller(lds[1..][i]) == Err(e)
              && forall j :: 0 <= j < i ==> OfferSeller(lds[1..][j]).Ok?;
    assert forall j :: 0 < j <= i ==> lds[j] == lds[1..][j - 1];
    assert OfferSeller(lds[i + 1]) == Err(e);
  }

  // ---------------------------------------------------------------------
  // Property type, completion status, Instant Buy, furnishing

  /** The property type the `"property_type"` search yields: the group, trailing "s" dropped, title-cased. */
  function TypeText(html: string): Option<string> {
    match SearchQuoted(html, "property_type")
    case Some(g) => Some(Title(RStripChar(g, 's')))
    case None => None
  }

  function PropertyTypeStep(row: Row, html: string): Row {
    match TypeText(html)
    case Some(t) => row.(propertyType := t)
    case None => row
  }

  /** The status the `"completion_status"` search yields: dashes made spaces, title-cased. */
  function StatusText(html: string): Option<string> {
    match SearchQuoted(html, "completion_status")
    case Some(g) => Some(Title(ReplaceChar(g, '-', ' ')))
    case None => None
  }

  function CompletionStep(row: Row, html: string): Row {
    match StatusText(html)
    case Some(s) => row.(completionStatus := s)
    case None => row
  }

  /** Instant Buy is "" for a property under construction and "Yes" otherwise. */
  function InstantBuyRule(row: Row): (r: Row)
    ensures r == row.(instantBuy := r.instantBuy)
    ensures r.instantBuy == "" <==> Lower(row.completionStatus) == "under construction"
    ensures r.instantBuy == "" || r.instantBuy == "Yes"
  {
    if Lower(row.completionStatus) == "under construction" then row.(instantBuy := "")
    else row.(instantBuy := "Yes")
  }

  /** The furnishing text, cut down to its last word when it contains "Furnish". */
  function FurnishingText(val: string): (r: string)
    ensures Contains(val, "Furnish") ==> IsLastWord(r, val)
    ensures !Contains(val, "Furnish") ==> r == val
  {
    if Contains(val, "Furnish") then
      assert !IsSpace("Furnish"[0]);
      ContainsNonBlank(val, "Furnish", 0);
      WordsLast(val);
      var words := Words(val);
      words[|words| - 1]
    else val
  }

  function FurnishingStep(row: Row, furnishing: Option<string>): Row {
    match furnishing
    case Some(val) => row.(furnishingStatus := FurnishingText(val))
    case None => row
  }

  // ---------------------------------------------------------------------
  // Regulatory information

  /**
    The column a lower-cased regulatory label goes to: three labels match by
    substring, tested in this order, and the four short codes only by
    equality.
  */
  function RegColumn(caption: string): (c: Option<Field>)
    ensures c.Some? ==> IsRegulatory(c.value)
  {
    if Contains(caption, "permit number") then Some(PermitNumber)
    else if Contains(caption, "zone name") then Some(ZoneName)
    else if Contains(caption, "registered agency") then Some(RegisteredAgency)
    else if caption == "ded" then Some(DED)
    else if caption == "rera" then Some(RERA)
    else if caption == "arra" then Some(ARRA)
    else if caption == "brn" then Some(BRN)
    else None
  }

  /** The text an item writes into column `f`: none when its label or value element is missing. */
  function RegText(item: RegItem, f: Field): Option<string> {
    if item.name.None? || item.value.None? then None
    else if RegColumn(Lower(item.name.value)) == Some(f) then Some(item.value.value)
    else None
  }

  /** The seven columns the regulatory list writes. */
  predicate IsRegulatory(f: Field) {
    f.PermitNumber? || f.ZoneName? || f.RegisteredAgency? || f.DED? || f.RERA? || f.ARRA? || f.BRN?
  }

  /** `row[Key(f)] = v` for a regulatory column. */
  function SetRegulatory(row: Row, f: Field, v: string): Row {
    match f
    case PermitNumber => row.(permitNumber := v)
    case ZoneName => row.(zoneName := v)
    case RegisteredAgency => row.(registeredAgency := v)
    case DED => row.(ded := v)
    case RERA => row.(rera := v)
    case ARRA => row.(arra := v)
    case BRN => row.(brn := v)
    case _ => row
  }

  /** One item of the regulatory list. */
  function RegStep(row: Row, item: RegItem): Row {
    if item.name.None? || item.value.None? then row
    else
      match RegColumn(Lower(item.name.value))
      case Some(f) => SetRegulatory(row, f, item.value.value)
      case None => row
  }

  /** The value of a regulatory column ("" for any other column). */
  function RegValue(row: Row, f: Field): string {
    match f
    case PermitNumber => row.permitNumber
    case ZoneName => row.zoneName
    case RegisteredAgency => row.registeredAgency
    case DED => row.ded
    case RERA => row.rera
    case ARRA => row.arra
    case BRN => row.brn
    case _ => ""
  }

  /** The regulatory loop; it writes the seven regulatory columns and no other. */
  function ApplyRegulatory(row: Row, items: seq<RegItem>): (r: Row)
    ensures r.(permitNumber := row.permitNumber, zoneName := row.zoneName,
               registeredAgency := row.registeredAgency, ded := row.ded,
               rera := row.rera, arra := row.arra, brn := row.brn) == row
    decreases items
  {
    if items == [] then row
    else ApplyRegulatory(RegStep(row, items[0]), items[1..])
  }

  // ---------------------------------------------------------------------
  // Coordinates and the map link

  /** `obj["geo"]` when `obj` is a dict whose "geo" is a dict. */
  function GeoOf(o: Json): Option<map<string, Json>> {
    if o.JObj? && Lookup(o.fields, "geo", JNull).JObj? then Some(Lookup(o.fields, "geo", JNull).fields) else None
  }

  /** The geo of the first entry that has one. */
  function FirstGeo(lds: seq<Json>): (g: Option<map<string, Json>>)
    ensures g.None? <==> forall i :: 0 <= i < |lds| ==> GeoOf(lds[i]).None?
  {
    if lds == [] then None
    else if GeoOf(lds[0]).Some? then GeoOf(lds[0])
    else
      assert forall i :: 0 < i < |lds| ==> lds[i] == lds[1..][i - 1];
      FirstGeo(lds[1..])
  }

  /** The fallback scan takes the geo of the first entry that has one. */
  lemma {:induction false} FirstGeoAt(lds: seq<Json>, k: nat)
    requires k < |lds| && GeoOf(lds[k]).Some?
    requires forall j :: 0 <= j < k ==> GeoOf(lds[j]).None?
    ensures FirstGeo(lds) == GeoOf(lds[k])
  {
    if k > 0 {
      FirstGeoAt(lds[1..], k - 1);
    }
  }

  /** `str(geo.get(...,""))` into both coordinates. */
  function SetCoords(row: Row, geo: map<string, Json>): Row {
    row.(latitude := ToStr(Lookup(geo, "latitude", JStr(""))),
         longitude := ToStr(Lookup(geo, "longitude", JStr(""))))
  }

  /**
    Coordinates from the residence's geo, then, when either is still empty
    and there are entries, from the first entry with a geo.
  */
  function LatLonStep(row: Row, res: Option<map<string, Json>>, lds: seq<Json>): Row {
    var row := if res.Some? && Lookup(res.value, "geo", JNull).JObj?
      then SetCoords(row, Lookup(res.value, "geo", JNull).fields) else row;
    if (row.latitude == "" || row.longitude == "") && lds != [] then
      match FirstGeo(lds)
      case Some(geo) => SetCoords(row, geo)
      case None => row
    else row
  }

  const MapsPrefix: string := "https://www.google.com/maps?q="

  /** The map link, when both coordinates are set. */
  function GoogleMapStep(row: Row): Row {
    if row.latitude != "" && row.longitude != "" then
      row.(googleMapUrl := MapsPrefix + row.latitude + "," + row.longitude)
    else row
  }

  // ---------------------------------------------------------------------
  // The whole extraction

  /** The steps before the JSON-LD loops: the row literal, header fields, fallbacks and features. */
  function Prefill(page: Page, res: Option<map<string, Json>>): Result<Row> {
    var row := HeaderFields(InitialRow(), page);
    var row :- LdFallbacks(row, res);
    Ok(FeatureOverrides(row, page.spans))
  }

  /** The steps from the row literal to the seller loop. */
  function Scrape(page: Page, res: Option<map<string, Json>>, lds: seq<Json>): Result<Row> {
    var row :- Prefill(page, res);
    var row :- ApplySpecs(row, page.spans);
    var row :- ApplyPrices(row, lds);
    var row := PropertyTypeStep(row, page.html);
    ApplySellers(row, lds)
  }

  /** The completion status, Instant Buy and the furnishing status. */
  function StatusSteps(row: Row, page: Page): Row {
    var row := CompletionStep(row, page.html);
    var row := InstantBuyRule(row);
    FurnishingStep(row, page.furnishing)
  }

  /** The coordinates and the map link. */
  function LocationSteps(row: Row, res: Option<map<string, Json>>, lds: seq<Json>): Row {
    GoogleMapStep(LatLonStep(row, res, lds))
  }

  /** The steps after the seller loop, none of which can raise. */
  function Finish(row: Row, page: Page, res: Option<map<string, Json>>, lds: seq<Json>): Row {
    var row := StatusSteps(row, page);
    var row := ApplyRegulatory(row, page.regulatory);
    LocationSteps(row, res, lds)
  }

  /** `extract_bayut_fields(html)`: the row, or the exception it raises. */
  function BayutFields(page: Page): Result<Row> {
    var lds := Flatten(page.ldBlocks);
    var res :- GetResidence(lds);
    var row :- Scrape(page, res, lds);
    Ok(Finish(row, page, res, lds))
  }

  // ---------------------------------------------------------------------
  // The extractor as the source runs it: one row updated in place, loop by
  // loop, leaving at the first exception.

  /** The spec loop, updating the row span by span. */
  method RunSpecs(row0: Row, spans: seq<Span>) returns (r: Result<Row>)
    ensures r == ApplySpecs(row0, spans)
  {
    var row := row0;
    for i := 0 to |spans|
      invariant ApplySpecs(row0, spans) == ApplySpecs(row, spans[i..])
    {
      var spec := spans[i];
      var value := SpanText(spec);
      match SpecKindOf(spec.aria)
      case ReferenceSpec =>
        row := row.(referenceNumber := value);
      case FloorsSpec =>
        row := row.(totalFloors := value);
      case CompletionYearSpec =>
        row := row.(yearBuild := value);
      case HandoverSpec =>
        var val := Upper(value);
        if QuarterShaped(val) {
          var parts := Words(val);
          if |parts| != 2 {
            return Err(ValueError);
          }
          row := row.(handoverQuarter := parts[0]);
          row := row.(handoverYear := parts[1]);
        } else if FourDigits(val) {
          row := row.(handoverYear := val);
        }
      case OtherSpec =>
    }
    assert spans[|spans|..] == [];
    return Ok(row);
  }

  /** The price loop. */
  method RunPrices(row0: Row, lds: seq<Json>) returns (r: Result<Row>)
    ensures r == ApplyPrices(row0, lds)
  {
    var row := row0;
    for i := 0 to |lds|
      invariant ApplyPrices(row0, lds) == ApplyPrices(row, lds[i..])
    {
      var price := OfferPrice(lds[i]);
      if price.Err? {
        return Err(price.error);
      }
      if price.value.Some? {
        row := row.(purchasePrice := price.value.value);
      }
    }
    assert lds[|lds|..] == [];
    return Ok(row);
  }

  /** The seller loop. */
  method RunSellers(row0: Row, lds: seq<Json>) returns (r: Result<Row>)
    ensures r == ApplySellers(row0, lds)
  {
    var row := row0;
    for i := 0 to |lds|
      invariant ApplySellers(row0, lds) == ApplySellers(row, lds[i..])
    {
      var seller := OfferSeller(lds[i]);
      if seller.Err? {
        return Err(seller.error);
      }
      if seller.value.Some? {
        row := row.(sellerName := seller.value.value);
      }
    }
    assert lds[|lds|..] == [];
    return Ok(row);
  }

  /** The regulatory loop, skipping an item that lacks its label or its value. */
  method RunRegulatory(row0: Row, items: seq<RegItem>) returns (row: Row)
    ensures row == ApplyRegulatory(row0, items)
  {
    row := row0;
    for i := 0 to |items|
      invariant ApplyRegulatory(row0, items) == ApplyRegulatory(row, items[i..])
    {
      var item := items[i];
      assert items[i..][1..] == items[i + 1..];
      if item.name.Some? && item.value.Some? {
        // the if/elif chain on the lower-cased label
        match RegColumn(Lower(item.name.value))
        case Some(f) =>
          row := SetRegulatory(row, f, item.value.value);
        case None =>
      }
    }
    assert items[|items|..] == [];
  }

  /** The coordinates, with the scan for the first entry with a geo. */
  method RunLatLon(row0: Row, res: Option<map<string, Json>>, lds: seq<Json>) returns (row: Row)
    ensures row == LatLonStep(row0, res, lds)
  {
    row := row0;
    if res.Some? && Lookup(res.value, "geo", JNull).JObj? {
      row := SetCoords(row, Lookup(res.value, "geo", JNull).fields);
    }
    if (row.latitude == "" || row.longitude == "") && lds != [] {
      var i := 0;
      while i < |lds| && GeoOf(lds[i]).None?
        invariant 0 <= i <= |lds|
        invariant FirstGeo(lds) == FirstGeo(lds[i..])
      {
        i := i + 1;
      }
      if i < |lds| {
        row := SetCoords(row, GeoOf(lds[i]).value);
      }
    }
  }

  /** `extract_bayut_fields(html)` as the source runs it. */
  method ExtractBayutFields(page: Page) returns (r: Result<Row>)
    ensures r == BayutFields(page)
  {
    var lds := JsonLds(page.ldBlocks);
    var res :- GetResidence(lds);
    var row :- Prefill(page, res);
    row :- RunSpecs(row, page.spans);
    row :- RunPrices(row, lds);
    row := PropertyTypeStep(row, page.html);
    row :- RunSellers(row, lds);
    assert Scrape(page, res, lds) == Ok(row);
    row := CompletionStep(row, page.html);
    row := InstantBuyRule(row);
    row := FurnishingStep(row, page.furnishing);
    row := RunRegulatory(row, page.regulatory);
    row := RunLatLon(row, res, lds);
    row := GoogleMapStep(row);
    return Ok(row);
  }
}
