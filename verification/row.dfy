/**
  The row `extract_bayut_fields` returns: a dict created in one piece with a
  fixed set of keys, whose values later steps overwrite but never add to or
  remove from. The model keeps the dict as a record with one field per key,
  so every row has exactly these keys by construction; `Columns` gives the
  dict's items in insertion order.
*/
module BayutRow {
  import opened Outcomes
  import opened JsonValues

  /** The keys of the row, in the order the dict literal lists them. */
  datatype Field =
    | PropertyName | SellerName | PropertyType | Description | Location
    | Country | Bathrooms | Bedrooms | GoogleMapUrl | Latitude | Longitude
    | PropertyArea | PlotArea | TotalFloors | InstantBuy | PurchasePrice
    | DownPaymentType | DownPaymentValue | DownPaymentPrice | ServiceCharge
    | HandoverQuarter | HandoverYear | CompletionStatus | FurnishingStatus
    | YearBuild | ReferenceNumber
    // regulatory columns
    | PermitNumber | BRN | DED | RERA | ZoneName | RegisteredAgency | ARRA

  /** The dict key of each column, as the spreadsheet header shows it. */
  function Key(f: Field): string {
    match f
    case PropertyName => "Property Name*"
    case SellerName => "Seller Name*"
    case PropertyType => "Property Type*"
    case Description => "Description"
    case Location => "Location"
    case Country => "Country*"
    case Bathrooms => "Bathrooms*"
    case Bedrooms => "Bedrooms*"
    case GoogleMapUrl => "Google Map URL*"
    case Latitude => "Latitude"
    case Longitude => "Longitude"
    case PropertyArea => "Property Area*"
    case PlotArea => "Plot Area (sq ft)"
    case TotalFloors => "Total Floors"
    case InstantBuy => "Instant Buy"
    case PurchasePrice => "Purchase Price*"
    case DownPaymentType => "Down-payment Type"
    case DownPaymentValue => "Down-payment Value"
    case DownPaymentPrice => "Down-payment Price"
    case ServiceCharge => "Service Charge"
    case HandoverQuarter => "Handover Date (Quarter)"
    case HandoverYear => "Handover Date (Year)"
    case CompletionStatus => "Completion Status*"
    case FurnishingStatus => "Furnishing Status*"
    case YearBuild => "Year Build"
    case ReferenceNumber => "Reference Number"
    case PermitNumber => "Permit Number"
    case BRN => "BRN"
    case DED => "DED"
    case RERA => "RERA"
    case ZoneName => "Zone Name"
    case RegisteredAgency => "Registered Agency"
    case ARRA => "ARRA"
  }

  /** The dict's insertion order, which is the column order of the exported sheet. */
  const Schema: seq<Field> := [
    PropertyName, SellerName, PropertyType, Description, Location,
    Country, Bathrooms, Bedrooms, GoogleMapUrl, Latitude, Longitude,
    PropertyArea, PlotArea, TotalFloors, InstantBuy, PurchasePrice,
    DownPaymentType, DownPaymentValue, DownPaymentPrice, ServiceCharge,
    HandoverQuarter, HandoverYear, CompletionStatus, FurnishingStatus,
    YearBuild, ReferenceNumber,
    PermitNumber, BRN, DED, RERA, ZoneName, RegisteredAgency, ARRA]

  /** The position of a column in the schema: every column has exactly one. */
  function Position(f: Field): (i: nat)
    ensures i < |Schema| && Schema[i] == f
  {
    match f
    case PropertyName => 0
    case SellerName => 1
    case PropertyType => 2
    case Description => 3
    case Location => 4
    case Country => 5
    case Bathrooms => 6
    case Bedrooms => 7
    case GoogleMapUrl => 8
    case Latitude => 9
    case Longitude => 10
    case PropertyArea => 11
    case PlotArea => 12
    case TotalFloors => 13
    case InstantBuy => 14
    case PurchasePrice => 15
    case DownPaymentType => 16
    case DownPaymentValue => 17
    case DownPaymentPrice => 18
    case ServiceCharge => 19
    case HandoverQuarter => 20
    case HandoverYear => 21
    case CompletionStatus => 22
    case FurnishingStatus => 23
    case YearBuild => 24
    case ReferenceNumber => 25
    case PermitNumber => 26
    case BRN => 27
    case DED => 28
    case RERA => 29
    case ZoneName => 30
    case RegisteredAgency => 31
    case ARRA => 32
  }

  /** The schema has 33 columns and lists each one once. */
  lemma SchemaIsListing()
    ensures |Schema| == 33
    ensures forall f :: f in Schema
    ensures forall i, j :: 0 <= i < |Schema| && 0 <= j < |Schema| && Schema[i] == Schema[j] ==> i == j
  {
    forall f ensures f in Schema {
      assert Schema[Position(f)] == f;
    }
    forall i | 0 <= i < |Schema| ensures Position(Schema[i]) == i {
      PositionOfSchema(i);
    }
  }

  /** Reading the schema at a position and taking the position back gives the position. */
  lemma PositionOfSchema(i: nat)
    requires i < |Schema|
    ensures Position(Schema[i]) == i
  {
    if i < 7 {
      PositionBelow7(i);
    } else if i < 14 {
      PositionBelow14(i);
    } else if i < 21 {
      PositionBelow21(i);
    } else if i < 24 {
      PositionBelow24(i);
    } else if i < 28 {
      PositionBelow28(i);
    } else {
      PositionBelow33(i);
    }
  }

  // PositionOfSchema one range of the schema at a time.

  lemma PositionBelow7(i: nat)
    requires i < 7
    ensures Position(Schema[i]) == i
  {
  }

  lemma PositionBelow14(i: nat)
    requires 7 <= i < 14
    ensures Position(Schema[i]) == i
  {
  }

  lemma PositionBelow21(i: nat)
    requires 14 <= i < 21
    ensures Position(Schema[i]) == i
  {
  }

  lemma PositionBelow24(i: nat)
    requires 21 <= i < 24
    ensures Position(Schema[i]) == i
  {
  }

  lemma PositionBelow28(i: nat)
    requires 24 <= i < 28
    ensures Position(Schema[i]) == i
  {
  }

  lemma PositionBelow33(i: nat)
    requires 28 <= i < 33
    ensures Position(Schema[i]) == i
  {
  }

  /**
    The row. Every column holds a string, except the country and the
    purchase price, which come straight from JSON-LD and can hold any JSON
    value.
  */
  datatype Row = Row(
    propertyName: string, sellerName: string, propertyType: string,
    description: string, location: string, country: Json,
    bathrooms: string, bedrooms: string, googleMapUrl: string,
    latitude: string, longitude: string, propertyArea: string,
    plotArea: string, totalFloors: string, instantBuy: string,
    purchasePrice: Json, downPaymentType: string, downPaymentValue: string,
    downPaymentPrice: string, serviceCharge: string,
    handoverQuarter: string, handoverYear: string, completionStatus: string,
    furnishingStatus: string, yearBuild: string, referenceNumber: string,
    permitNumber: string, brn: string, ded: string, rera: string,
    zoneName: string, registeredAgency: string, arra: string)

  /** `row[Key(f)]`: the value the dict holds under a column's key. */
  function Cell(row: Row, f: Field): (v: Json)
    ensures f != Country && f != PurchasePrice ==> v.JStr?
  {
    match f
    case PropertyName => JStr(row.propertyName)
    case SellerName => JStr(row.sellerName)
    case PropertyType => JStr(row.propertyType)
    case Description => JStr(row.description)
    case Location => JStr(row.location)
    case Country => row.country
    case Bathrooms => JStr(row.bathrooms)
    case Bedrooms => JStr(row.bedrooms)
    case GoogleMapUrl => JStr(row.googleMapUrl)
    case Latitude => JStr(row.latitude)
    case Longitude => JStr(row.longitude)
    case PropertyArea => JStr(row.propertyArea)
    case PlotArea => JStr(row.plotArea)
    case TotalFloors => JStr(row.totalFloors)
    case InstantBuy => JStr(row.instantBuy)
    case PurchasePrice => row.purchasePrice
    case DownPaymentType => JStr(row.downPaymentType)
    case DownPaymentValue => JStr(row.downPaymentValue)
    case DownPaymentPrice => JStr(row.downPaymentPrice)
    case ServiceCharge => JStr(row.serviceCharge)
    case HandoverQuarter => JStr(row.handoverQuarter)
    case HandoverYear => JStr(row.handoverYear)
    case CompletionStatus => JStr(row.completionStatus)
    case FurnishingStatus => JStr(row.furnishingStatus)
    case YearBuild => JStr(row.yearBuild)
    case ReferenceNumber => JStr(row.referenceNumber)
    case PermitNumber => JStr(row.permitNumber)
    case BRN => JStr(row.brn)
    case DED => JStr(row.ded)
    case RERA => JStr(row.rera)
    case ZoneName => JStr(row.zoneName)
    case RegisteredAgency => JStr(row.registeredAgency)
    case ARRA => JStr(row.arra)
  }

  /** The dict's items in insertion order: the same 33 keys, in the same order, for every row. */
  function Columns(row: Row): (items: seq<(string, Json)>)
    ensures |items| == 33
    ensures forall i :: 0 <= i < |items| ==> items[i] == (Key(Schema[i]), Cell(row, Schema[i]))
  {
    seq(|Schema|, i requires 0 <= i < |Schema| => (Key(Schema[i]), Cell(row, Schema[i])))
  }

  /** The dict literal: every column empty except the country, "UAE". */
  function InitialRow(): (row: Row)
    ensures forall f :: f != Country ==> Cell(row, f) == JStr("")
    ensures Cell(row, Country) == JStr("UAE")
  {
    Row("", "", "", "", "", JStr("UAE"), "", "", "", "", "", "", "", "", "", JStr(""),
        "", "", "", "", "", "", "", "", "", "", "", "", "", "", "", "", "")
  }

  /**
    The column a dict key names, if any. The candidate is chosen by the
    key's length and a character or two, then confirmed against that
    column's own key.
  */
  function ColumnOf(k: string): (r: Option<Field>)
    ensures r.Some? ==> Key(r.value) == k
  {
    match Candidate(k)
    case Some(f) => if Key(f) == k then Some(f) else None
    case None => None
  }

  function Candidate(k: string): Option<Field> {
    if |k| < 2 then None
    else
      var n, a := |k|, k[0];
      if n == 3 then (if a == 'B' then Some(BRN) else Some(DED))
      else if n == 4 then (if a == 'R' then Some(RERA) else Some(ARRA))
      else if n == 8 then (if a == 'C' then Some(Country) else if k[1] == 'o' then Some(Location) else Some(Latitude))
      else if n == 9 then (if a == 'B' then Some(Bedrooms) else if a == 'L' then Some(Longitude) else Some(ZoneName))
      else if n == 10 then (if a == 'B' then Some(Bathrooms) else Some(YearBuild))
      else if n == 11 then (if a == 'D' then Some(Description) else Some(InstantBuy))
      else if n == 12 then (if a == 'S' then Some(SellerName) else Some(TotalFloors))
      else if n == 13 then Some(PermitNumber)
      else if n == 14 then
        (if a == 'S' then Some(ServiceCharge)
         else if k[9] == 'N' then Some(PropertyName)
         else if k[9] == 'T' then Some(PropertyType)
         else Some(PropertyArea))
      else if n == 15 then (if a == 'G' then Some(GoogleMapUrl) else Some(PurchasePrice))
      else if n == 16 then Some(ReferenceNumber)
      else if n == 17 then (if a == 'P' then Some(PlotArea) else if a == 'D' then Some(DownPaymentType) else Some(RegisteredAgency))
      else if n == 18 then
        (if a == 'C' then Some(CompletionStatus)
         else if a == 'F' then Some(FurnishingStatus)
         else if k[13] == 'V' then Some(DownPaymentValue)
         else Some(DownPaymentPrice))
      else if n == 20 then Some(HandoverYear)
      else if n == 23 then Some(HandoverQuarter)
      else None
  }

  /** Looking up a column's own key finds that column. */
  lemma ColumnOfKey(f: Field)
    ensures ColumnOf(Key(f)) == Some(f)
  {
    match f
    case PropertyName => assert Candidate(Key(PropertyName)) == Some(PropertyName);
    case SellerName => assert Candidate(Key(SellerName)) == Some(SellerName);
    case PropertyType => assert Candidate(Key(PropertyType)) == Some(PropertyType);
    case Description => assert Candidate(Key(Description)) == Some(Description);
    case Location => assert Candidate(Key(Location)) == Some(Location);
    case Country => assert Candidate(Key(Country)) == Some(Country);
    case Bathrooms => assert Candidate(Key(Bathrooms)) == Some(Bathrooms);
    case Bedrooms => assert Candidate(Key(Bedrooms)) == Some(Bedrooms);
    case GoogleMapUrl => assert Candidate(Key(GoogleMapUrl)) == Some(GoogleMapUrl);
    case Latitude => assert Candidate(Key(Latitude)) == Some(Latitude);
    case Longitude => assert Candidate(Key(Longitude)) == Some(Longitude);
    case PropertyArea => assert Candidate(Key(PropertyArea)) == Some(PropertyArea);
    case PlotArea => assert Candidate(Key(PlotArea)) == Some(PlotArea);
    case TotalFloors => assert Candidate(Key(TotalFloors)) == Some(TotalFloors);
    case InstantBuy => assert Candidate(Key(InstantBuy)) == Some(InstantBuy);
    case PurchasePrice => assert Candidate(Key(PurchasePrice)) == Some(PurchasePrice);
    case DownPaymentType => assert Candidate(Key(DownPaymentType)) == Some(DownPaymentType);
    case DownPaymentValue => assert Candidate(Key(DownPaymentValue)) == Some(DownPaymentValue);
    case DownPaymentPrice => assert Candidate(Key(DownPaymentPrice)) == Some(DownPaymentPrice);
    case ServiceCharge => assert Candidate(Key(ServiceCharge)) == Some(ServiceCharge);
    case HandoverQuarter => assert Candidate(Key(HandoverQuarter)) == Some(HandoverQuarter);
    case HandoverYear => assert Candidate(Key(HandoverYear)) == Some(HandoverYear);
    case CompletionStatus => assert Candidate(Key(CompletionStatus)) == Some(CompletionStatus);
    case FurnishingStatus => assert Candidate(Key(FurnishingStatus)) == Some(FurnishingStatus);
    case YearBuild => assert Candidate(Key(YearBuild)) == Some(YearBuild);
    case ReferenceNumber => assert Candidate(Key(ReferenceNumber)) == Some(ReferenceNumber);
    case PermitNumber => assert Candidate(Key(PermitNumber)) == Some(PermitNumber);
    case BRN => assert Candidate(Key(BRN)) == Some(BRN);
    case DED => assert Candidate(Key(DED)) == Some(DED);
    case RERA => assert Candidate(Key(RERA)) == Some(RERA);
    case ZoneName => assert Candidate(Key(ZoneName)) == Some(ZoneName);
    case RegisteredAgency => assert Candidate(Key(RegisteredAgency)) == Some(RegisteredAgency);
    case ARRA => assert Candidate(Key(ARRA)) == Some(ARRA);
  }

  /** No two columns share a dict key, so the 33 columns are 33 distinct keys. */
  lemma KeyInjective(f: Field, g: Field)
    requires Key(f) == Key(g)
    ensures f == g
  {
    ColumnOfKey(f);
    ColumnOfKey(g);
  }
}
