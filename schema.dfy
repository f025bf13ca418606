/**
 * The request schema of app/schemas/property.py: the three string-valued
 * enumerations and the field bounds of `PropertySearchRequest`.
 */
module Schema {
  import opened Wrappers
  import opened Dates

  /** `ListingType`, by its string values. */
  datatype ListingType = ForSale | ForRent | Sold | Pending | OffMarket {
    function Tag(): string {
      match this
      case ForSale => "for_sale"
      case ForRent => "for_rent"
      case Sold => "sold"
      case Pending => "pending"
      case OffMarket => "off_market"
    }
  }

  /** `SortBy`, by its string values. */
  datatype SortBy = ListDate | ListPrice | Sqft | Beds | Baths | LastUpdateDate {
    function Tag(): string {
      match this
      case ListDate => "list_date"
      case ListPrice => "list_price"
      case Sqft => "sqft"
      case Beds => "beds"
      case Baths => "baths"
      case LastUpdateDate => "last_update_date"
    }
  }

  /** `PropertyType`, by its string values. */
  datatype PropertyType = SingleFamily | MultiFamily | Condo | Townhouse | Land | OtherType {
    function Tag(): string {
      match this
      case SingleFamily => "single_family"
      case MultiFamily => "multi_family"
      case Condo => "condo"
      case Townhouse => "townhouse"
      case Land => "land"
      case OtherType => "other"
    }
  }

  const ListingTypes: seq<ListingType> := [ForSale, ForRent, Sold, Pending, OffMarket]
  const SortKeys: seq<SortBy> := [ListDate, ListPrice, Sqft, Beds, Baths, LastUpdateDate]
  const PropertyTypes: seq<PropertyType> := [SingleFamily, MultiFamily, Condo, Townhouse, Land, OtherType]

  /** `ListingType(s)`: the member whose value is `s`, if there is one. */
  function ListingTypeOf(s: string): (r: Option<ListingType>)
    ensures r.Some? ==> r.value.Tag() == s
    ensures r.None? <==> forall t :: t in ListingTypes ==> t.Tag() != s
  {
    if s == "for_sale" then Some(ForSale)
    else if s == "for_rent" then Some(ForRent)
    else if s == "sold" then Some(Sold)
    else if s == "pending" then Some(Pending)
    else if s == "off_market" then Some(OffMarket)
    else None
  }

  /** `SortBy(s)`. */
  function SortByOf(s: string): (r: Option<SortBy>)
    ensures r.Some? ==> r.value.Tag() == s
    ensures r.None? <==> forall t :: t in SortKeys ==> t.Tag() != s
  {
    if s == "list_date" then Some(ListDate)
    else if s == "list_price" then Some(ListPrice)
    else if s == "sqft" then Some(Sqft)
    else if s == "beds" then Some(Beds)
    else if s == "baths" then Some(Baths)
    else if s == "last_update_date" then Some(LastUpdateDate)
    else None
  }

  /** `PropertyType(s)`. */
  function PropertyTypeOf(s: string): (r: Option<PropertyType>)
    ensures r.Some? ==> r.value.Tag() == s
    ensures r.None? <==> forall t :: t in PropertyTypes ==> t.Tag() != s
  {
    if s == "single_family" then Some(SingleFamily)
    else if s == "multi_family" then Some(MultiFamily)
    else if s == "condo" then Some(Condo)
    else if s == "townhouse" then Some(Townhouse)
    else if s == "land" then Some(Land)
    else if s == "other" then Some(OtherType)
    else None
  }

  /** Every member is listed, its value looks it up again, and so no two
      members share a value. */
  lemma ListingTypeTags(t: ListingType, u: ListingType)
    ensures t in ListingTypes && ListingTypeOf(t.Tag()) == Some(t)
    ensures t.Tag() == u.Tag() ==> t == u
    ensures seq(|ListingTypes|, k requires 0 <= k < |ListingTypes| => ListingTypes[k].Tag())
         == ["for_sale", "for_rent", "sold", "pending", "off_market"]
  {
  }

  lemma SortByTags(t: SortBy, u: SortBy)
    ensures t in SortKeys && SortByOf(t.Tag()) == Some(t)
    ensures t.Tag() == u.Tag() ==> t == u
    ensures seq(|SortKeys|, k requires 0 <= k < |SortKeys| => SortKeys[k].Tag())
         == ["list_date", "list_price", "sqft", "beds", "baths", "last_update_date"]
  {
  }

  lemma PropertyTypeTags(t: PropertyType, u: PropertyType)
    ensures t in PropertyTypes && PropertyTypeOf(t.Tag()) == Some(t)
    ensures t.Tag() == u.Tag() ==> t == u
    ensures seq(|PropertyTypes|, k requires 0 <= k < |PropertyTypes| => PropertyTypes[k].Tag())
         == ["single_family", "multi_family", "condo", "townhouse", "land", "other"]
  {
  }

  /** `Field(ge=lo)` and `Field(le=hi)` on an optional field: None always passes. */
  predicate AtLeast(o: Option<int>, lo: int) {
    o.Some? ==> o.value >= lo
  }

  predicate AtMost(o: Option<int>, hi: int) {
    o.Some? ==> o.value <= hi
  }

  predicate AtLeastReal(o: Option<real>, lo: real) {
    o.Some? ==> o.value >= lo
  }

  predicate OptionalDate(o: Option<Date>) {
    o.Some? ==> ValidDate(o.value)
  }

  /** `PropertySearchRequest`. `location` and `listing_type` are required,
      so they are not optional here. */
  datatype SearchRequest = SearchRequest(
    location: string,
    listingType: ListingType,
    pastDays: Option<int>,
    pastHours: Option<int>,
    dateFrom: Option<Date>,
    dateTo: Option<Date>,
    bedsMin: Option<int>,
    bedsMax: Option<int>,
    bathsMin: Option<real>,
    bathsMax: Option<real>,
    sqftMin: Option<int>,
    sqftMax: Option<int>,
    priceMin: Option<int>,
    priceMax: Option<int>,
    yearBuiltMin: Option<int>,
    yearBuiltMax: Option<int>,
    lotSqftMin: Option<int>,
    lotSqftMax: Option<int>,
    propertyType: Option<PropertyType>,
    radius: Option<real>,
    sortBy: Option<SortBy>,
    limit: Option<int>)
  {
    /** The field constraints, each on its own field; no bound is compared
        with another. */
    predicate Valid() {
      && AtLeast(pastDays, 1) && AtLeast(pastHours, 1)
      && OptionalDate(dateFrom) && OptionalDate(dateTo)
      && AtLeast(bedsMin, 0) && AtLeast(bedsMax, 0)
      && AtLeastReal(bathsMin, 0.0) && AtLeastReal(bathsMax, 0.0)
      && AtLeast(sqftMin, 0) && AtLeast(sqftMax, 0)
      && AtLeast(priceMin, 0) && AtLeast(priceMax, 0)
      && AtLeast(yearBuiltMin, 1800) && AtMost(yearBuiltMax, 2030)
      && AtLeast(lotSqftMin, 0) && AtLeast(lotSqftMax, 0)
      && AtLeastReal(radius, 0.0)
      && AtLeast(limit, 1) && AtMost(limit, 10000)
    }
  }

  /** The request with only the two required fields set. */
  function MinimalRequest(location: string, listingType: ListingType): (r: SearchRequest)
    ensures r.Valid()
    ensures r.location == location && r.listingType == listingType
  {
    SearchRequest(location, listingType, None, None, None, None, None, None, None, None,
                  None, None, None, None, None, None, None, None, None, None, None, None)
  }

  /** A minimum above its maximum is accepted: the schema has no cross-field check. */
  lemma MinAboveMaxAccepted(location: string, listingType: ListingType)
    ensures exists r: SearchRequest ::
      && r.Valid()
      && r.bedsMin == Some(5) && r.bedsMax == Some(2)
      && r.priceMin == Some(900000) && r.priceMax == Some(100000)
      && r.lotSqftMin == Some(8000) && r.lotSqftMax == Some(0)
  {
    var r := MinimalRequest(location, listingType).(
      bedsMin := Some(5), bedsMax := Some(2),
      priceMin := Some(900000), priceMax := Some(100000),
      lotSqftMin := Some(8000), lotSqftMax := Some(0));
    assert r.Valid();
  }

  /** The year bounds are one-sided: a minimum year above 2030 and a maximum
      below 1800 are each accepted. */
  lemma YearBoundsOneSided(location: string, listingType: ListingType)
    ensures exists r: SearchRequest ::
      r.Valid() && r.yearBuiltMin == Some(2100) && r.yearBuiltMax == Some(1700)
  {
    var r := MinimalRequest(location, listingType).(yearBuiltMin := Some(2100), yearBuiltMax := Some(1700));
    assert r.Valid();
  }

  /** What a valid request promises about each bounded field. */
  lemma ValidBounds(r: SearchRequest)
    requires r.Valid()
    ensures r.pastDays.Some? ==> r.pastDays.value >= 1
    ensures r.pastHours.Some? ==> r.pastHours.value >= 1
    ensures r.limit.Some? ==> 1 <= r.limit.value <= 10000
    ensures r.radius.Some? ==> r.radius.value >= 0.0
    ensures r.yearBuiltMin.Some? ==> r.yearBuiltMin.value >= 1800
    ensures r.yearBuiltMax.Some? ==> r.yearBuiltMax.value <= 2030
  {
  }
}
