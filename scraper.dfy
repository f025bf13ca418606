/**
 * `search_properties` of app/services/scraper.py: build the scraper's
 * keyword arguments from the optional filters, call the scraper, clean each
 * returned record with the value normalizer and wrap every failure in a
 * `ScraperError`.
 *
 * The scraper (`scrape_property`) and the `Property(**cleaned)` constructor
 * are code this model cannot see; they are parameters of the search.
 */
module Scraper {
  import opened Wrappers
  import opened Dates
  import Schema
  import opened Normalizer

  /** The parameters of `search_properties`, each filter optional. */
  datatype SearchArgs = SearchArgs(
    location: string,
    listingType: Schema.ListingType,
    pastDays: Option<int>,
    pastHours: Option<int>,
    dateFrom: Option<Date>,
    dateTo: Option<Date>,
    bedsMin: Option<int>,
    bedsMax: Option<int>,
    bathsMin: Option<real>,
    bathsMax: Option<real>,
    sqftMin: Option<int>,
    sqftMax: Option<int>,
    priceMin: Option<int>,
    priceMax: Option<int>,
    yearBuiltMin: Option<int>,
    yearBuiltMax: Option<int>,
    lotSqftMin: Option<int>,
    lotSqftMax: Option<int>,
    propertyType: Option<Schema.PropertyType>,
    radius: Option<real>,
    sortBy: Option<Schema.SortBy>,
    limit: Option<int>,
    offset: Option<int>,
    parallel: Option<bool>)
  {
    /** Python `date` objects always hold calendar dates. */
    predicate HasDates() {
      Schema.OptionalDate(dateFrom) && Schema.OptionalDate(dateTo)
    }
  }

  /** A value handed to the scraper as a keyword argument. */
  datatype KwArg = KStr(s: string) | KInt(i: int) | KReal(x: real) | KBool(b: bool) | KStrList(items: seq<string>)

  /** The keywords the builder may pass, one constructor each. */
  datatype Keyword =
    | Location | ListingType | PastDays | PastHours | DateFrom | DateTo
    | BedsMin | BedsMax | BathsMin | BathsMax | SqftMin | SqftMax
    | PriceMin | PriceMax | YearBuiltMin | YearBuiltMax | LotSqftMin | LotSqftMax
    | PropertyType | Radius | SortBy | Limit | Offset | Parallel
  {
    /** The keyword as the scraper spells it. */
    function Name(): string {
      match this
      case Location => "location"
      case ListingType => "listing_type"
      case PastDays => "past_days"
      case PastHours => "past_hours"
      case DateFrom => "date_from"
      case DateTo => "date_to"
      case BedsMin => "beds_min"
      case BedsMax => "beds_max"
      case BathsMin => "baths_min"
      case BathsMax => "baths_max"
      case SqftMin => "sqft_min"
      case SqftMax => "sqft_max"
      case PriceMin => "price_min"
      case PriceMax => "price_max"
      case YearBuiltMin => "year_built_min"
      case YearBuiltMax => "year_built_max"
      case LotSqftMin => "lot_sqft_min"
      case LotSqftMax => "lot_sqft_max"
      case PropertyType => "property_type"
      case Radius => "radius"
      case SortBy => "sort_by"
      case Limit => "limit"
      case Offset => "offset"
      case Parallel => "parallel"
    }
  }

  /** The keyword a name spells, if any: the inverse of `Name`. Names are
      compared only with the names of their own length. */
  function KeywordOf(name: string): Option<Keyword>
  {
    if |name| == 5 then
      if name == "limit" then Some(Limit)
      else None
    else if |name| == 6 then
      if name == "radius" then Some(Radius)
      else if name == "offset" then Some(Offset)
      else None
    else if |name| == 7 then
      if name == "date_to" then Some(DateTo)
      else if name == "sort_by" then Some(SortBy)
      else None
    else if |name| == 8 then
      if name == "location" then Some(Location)
      else if name == "beds_min" then Some(BedsMin)
      else if name == "beds_max" then Some(BedsMax)
      else if name == "sqft_min" then Some(SqftMin)
      else if name == "sqft_max" then Some(SqftMax)
      else if name == "parallel" then Some(Parallel)
      else None
    else if |name| == 9 then
      if name == "past_days" then Some(PastDays)
      else if name == "date_from" then Some(DateFrom)
      else if name == "baths_min" then Some(BathsMin)
      else if name == "baths_max" then Some(BathsMax)
      else if name == "price_min" then Some(PriceMin)
      else if name == "price_max" then Some(PriceMax)
      else None
    else if |name| == 10 then
      if name == "past_hours" then Some(PastHours)
      else None
    else if |name| == 12 then
      if name == "listing_type" then Some(ListingType)
      else if name == "lot_sqft_min" then Some(LotSqftMin)
      else if name == "lot_sqft_max" then Some(LotSqftMax)
      else None
    else if |name| == 13 then
      if name == "property_type" then Some(PropertyType)
      else None
    else if |name| == 14 then
      if name == "year_built_min" then Some(YearBuiltMin)
      else if name == "year_built_max" then Some(YearBuiltMax)
      else None
    else None
  }

  /** Every keyword's name spells it back. */
  lemma NameKeyword(w: Keyword)
    ensures KeywordOf(w.Name()) == Some(w)
  {
    match w
    case Location =>
    case ListingType =>
    case PastDays =>
    case PastHours =>
    case DateFrom =>
    case DateTo =>
    case BedsMin =>
    case BedsMax =>
    case BathsMin =>
    case BathsMax =>
    case SqftMin =>
    case SqftMax =>
    case PriceMin =>
    case PriceMax =>
    case YearBuiltMin =>
    case YearBuiltMax =>
    case LotSqftMin =>
    case LotSqftMax =>
    case PropertyType =>
    case Radius =>
    case SortBy =>
    case Limit =>
    case Offset =>
    case Parallel =>
  }

  /** Distinct keywords have distinct names, so keying by `Keyword` is
      keying by name. */
  lemma NamesDistinct(w: Keyword, u: Keyword)
    ensures w.Name() == u.Name() ==> w == u
  {
    NameKeyword(w);
    NameKeyword(u);
  }

  type Kwargs = map<Keyword, KwArg>

  function IntArg(o: Option<int>): Option<KwArg> {
    if o.Some? then Some(KInt(o.value)) else None
  }

  function RealArg(o: Option<real>): Option<KwArg> {
    if o.Some? then Some(KReal(o.value)) else None
  }

  function BoolArg(o: Option<bool>): Option<KwArg> {
    if o.Some? then Some(KBool(o.value)) else None
  }

  /** `date.strftime("%Y-%m-%d")` when a date is given. */
  function DateArg(o: Option<Date>): Option<KwArg>
    requires Schema.OptionalDate(o)
  {
    if o.Some? then Some(KStr(FormatDate(o.value))) else None
  }

  /** The argument the scraper receives under `key`, looked up key by key:
      None when the keyword is not passed. */
  function Expected(args: SearchArgs, key: Keyword): Option<KwArg>
    requires args.HasDates()
  {
    match key
    case Location => Some(KStr(args.location))
    case ListingType => Some(KStr(args.listingType.Tag()))
    case PastDays => IntArg(args.pastDays)
    case PastHours => IntArg(args.pastHours)
    case DateFrom => DateArg(args.dateFrom)
    case DateTo => DateArg(args.dateTo)
    case BedsMin => IntArg(args.bedsMin)
    case BedsMax => IntArg(args.bedsMax)
    case BathsMin => RealArg(args.bathsMin)
    case BathsMax => RealArg(args.bathsMax)
    case SqftMin => IntArg(args.sqftMin)
    case SqftMax => IntArg(args.sqftMax)
    case PriceMin => IntArg(args.priceMin)
    case PriceMax => IntArg(args.priceMax)
    case YearBuiltMin => IntArg(args.yearBuiltMin)
    case YearBuiltMax => IntArg(args.yearBuiltMax)
    case LotSqftMin => IntArg(args.lotSqftMin)
    case LotSqftMax => IntArg(args.lotSqftMax)
    case PropertyType => if args.propertyType.Some? then Some(KStrList([args.propertyType.value.Tag()])) else None
    case Radius => RealArg(args.radius)
    case SortBy => if args.sortBy.Some? then Some(KStr(args.sortBy.value.Tag())) else None
    case Limit => IntArg(args.limit)
    case Offset => IntArg(args.offset)
    case Parallel => BoolArg(args.parallel)
  }

  /** The optional keywords, in the order the source inserts them. */
  const OptionalKeys: seq<Keyword> := [
    PastDays, PastHours, DateFrom, DateTo,
    BedsMin, BedsMax, BathsMin, BathsMax, SqftMin, SqftMax, PriceMin, PriceMax,
    YearBuiltMin, YearBuiltMax, LotSqftMin, LotSqftMax, PropertyType,
    Radius, SortBy, Limit, Offset, Parallel]

  /** Where a keyword stands in `OptionalKeys`. */
  function Position(k: Keyword): int {
    match k
    case Location => -2
    case ListingType => -1
    case PastDays => 0
    case PastHours => 1
    case DateFrom => 2
    case DateTo => 3
    case BedsMin => 4
    case BedsMax => 5
    case BathsMin => 6
    case BathsMax => 7
    case SqftMin => 8
    case SqftMax => 9
    case PriceMin => 10
    case PriceMax => 11
    case YearBuiltMin => 12
    case YearBuiltMax => 13
    case LotSqftMin => 14
    case LotSqftMax => 15
    case PropertyType => 16
    case Radius => 17
    case SortBy => 18
    case Limit => 19
    case Offset => 20
    case Parallel => 21
  }

  /** Every optional keyword is listed once, and the two required ones are not listed. */
  lemma OptionalKeysListed()
    ensures forall j :: 0 <= j < |OptionalKeys| ==> Position(OptionalKeys[j]) == j
    ensures forall k :: -2 <= Position(k) < |OptionalKeys|
    ensures forall k :: Position(k) >= 0 ==> OptionalKeys[Position(k)] == k
  {
    forall j | 0 <= j < |OptionalKeys| ensures Position(OptionalKeys[j]) == j {
      if j < 11 {
        assert j in {0, 1, 2, 3, 4, 5, 6, 7, 8, 9, 10};
      } else {
        assert j in {11, 12, 13, 14, 15, 16, 17, 18, 19, 20, 21};
      }
    }
  }

  /** The optional insertions of the builder, in order: each keyword with the
      value it receives, or None when its argument is None. */
  function OptionalArgs(args: SearchArgs): seq<(Keyword, Option<KwArg>)>
    requires args.HasDates()
  {
    seq(|OptionalKeys|, j requires 0 <= j < |OptionalKeys| => (OptionalKeys[j], Expected(args, OptionalKeys[j])))
  }

  /** `if value is not None: kwargs[key] = value`. */
  function Insert(kw: Kwargs, entry: (Keyword, Option<KwArg>)): Kwargs {
    if entry.1.Some? then kw[entry.0 := entry.1.value] else kw
  }

  /** The successive insertions, first entry first. */
  function InsertAll(kw: Kwargs, entries: seq<(Keyword, Option<KwArg>)>): Kwargs
    decreases |entries|
  {
    if entries == [] then kw
    else Insert(InsertAll(kw, entries[..|entries| - 1]), entries[|entries| - 1])
  }

  /** A key no entry names keeps what it had. */
  lemma {:induction false} InsertAllOther(kw: Kwargs, entries: seq<(Keyword, Option<KwArg>)>, k: Keyword)
    requires forall j :: 0 <= j < |entries| ==> entries[j].0 != k
    ensures k in InsertAll(kw, entries) <==> k in kw
    ensures k in kw ==> InsertAll(kw, entries)[k] == kw[k]
    decreases |entries|
  {
    if entries != [] {
      InsertAllOther(kw, entries[..|entries| - 1], k);
    }
  }

  /** With distinct keys, the key of entry `j` ends up holding entry `j`'s
      value when it has one, and what it held before otherwise. */
  lemma {:induction false} InsertAllAt(kw: Kwargs, entries: seq<(Keyword, Option<KwArg>)>, j: int)
    requires 0 <= j < |entries|
    requires forall a, b :: 0 <= a < b < |entries| ==> entries[a].0 != entries[b].0
    ensures var kw' := InsertAll(kw, entries);
      && (entries[j].0 in kw' <==> entries[j].1.Some? || entries[j].0 in kw)
      && (entries[j].1.Some? ==> kw'[entries[j].0] == entries[j].1.value)
      && (entries[j].1.None? && entries[j].0 in kw ==> kw'[entries[j].0] == kw[entries[j].0])
    decreases |entries|
  {
    var init := entries[..|entries| - 1];
    if j == |entries| - 1 {
      InsertAllOther(kw, init, entries[j].0);
    } else {
      InsertAllAt(kw, init, j);
    }
  }

  /** Nothing but the starting keys and the entries' keys is inserted. */
  lemma {:induction false} InsertAllKeys(kw: Kwargs, entries: seq<(Keyword, Option<KwArg>)>, k: Keyword)
    requires k in InsertAll(kw, entries)
    ensures k in kw || exists j :: 0 <= j < |entries| && entries[j].0 == k && entries[j].1.Some?
    decreases |entries|
  {
    if entries != [] {
      var init := entries[..|entries| - 1];
      if k != entries[|entries| - 1].0 || entries[|entries| - 1].1.None? {
        InsertAllKeys(kw, init, k);
        if !(k in kw) {
          var j :| 0 <= j < |init| && init[j].0 == k && init[j].1.Some?;
          assert entries[j] == init[j];
        }
      }
    }
  }

  /** The keyword arguments of lines 106-159: the two required ones, then
      each optional one in turn, inserted when it is not None. */
  function KwargsOf(args: SearchArgs): Kwargs
    requires args.HasDates()
  {
    InsertAll(map[Location := KStr(args.location), ListingType := KStr(args.listingType.Tag())], OptionalArgs(args))
  }

  /** Key by key, the builder passes exactly what `Expected` names. */
  lemma KwargsLookup(args: SearchArgs, key: Keyword)
    requires args.HasDates()
    ensures key in KwargsOf(args) <==> Expected(args, key).Some?
    ensures key in KwargsOf(args) ==> Some(KwargsOf(args)[key]) == Expected(args, key)
  {
    var start := map[Location := KStr(args.location), ListingType := KStr(args.listingType.Tag())];
    var entries := OptionalArgs(args);
    OptionalKeysListed();
    if Position(key) < 0 {
      InsertAllOther(start, entries, key);
    } else {
      InsertAllAt(start, entries, Position(key));
    }
  }

  /** The two keywords always passed, and how a date reaches the scraper:
      as text that reads back as the same date. */
  lemma KwargsRequired(args: SearchArgs)
    requires args.HasDates()
    ensures Location in KwargsOf(args) && KwargsOf(args)[Location] == KStr(args.location)
    ensures ListingType in KwargsOf(args) && KwargsOf(args)[ListingType] == KStr(args.listingType.Tag())
  {
    KwargsLookup(args, Location);
    KwargsLookup(args, ListingType);
  }

  /** Each optional keyword is passed exactly when its argument is not None,
      and only the listed keywords are passed. */
  lemma KwargsOptional(args: SearchArgs)
    requires args.HasDates()
    ensures forall j :: 0 <= j < |OptionalKeys| ==>
      (OptionalKeys[j] in KwargsOf(args) <==> OptionalArgs(args)[j].1.Some?)
    ensures forall k :: k in KwargsOf(args) ==> k == Location || k == ListingType || k in OptionalKeys
  {
    forall j | 0 <= j < |OptionalKeys|
      ensures OptionalKeys[j] in KwargsOf(args) <==> OptionalArgs(args)[j].1.Some?
    {
      KwargsLookup(args, OptionalKeys[j]);
    }
    forall k | k in KwargsOf(args)
      ensures k == Location || k == ListingType || k in OptionalKeys
    {
      OptionalKeysListed();
      if Position(k) >= 0 {
        assert OptionalKeys[Position(k)] == k;
      }
    }
  }

  /** `property_type` travels as a one-element list of its tag and
      `sort_by` as its tag. */
  lemma KwargsEnums(args: SearchArgs)
    requires args.HasDates()
    ensures PropertyType in KwargsOf(args) <==> args.propertyType.Some?
    ensures args.propertyType.Some? ==> KwargsOf(args)[PropertyType] == KStrList([args.propertyType.value.Tag()])
    ensures SortBy in KwargsOf(args) <==> args.sortBy.Some?
    ensures args.sortBy.Some? ==> KwargsOf(args)[SortBy] == KStr(args.sortBy.value.Tag())
  {
    KwargsLookup(args, PropertyType);
    KwargsLookup(args, SortBy);
  }

  /** A date travels as `YYYY-MM-DD` text that reads back as that date. */
  lemma KwargsDate(args: SearchArgs, key: Keyword)
    requires args.HasDates()
    requires key == DateFrom || key == DateTo
    ensures var date := if key == DateFrom then args.dateFrom else args.dateTo;
      && (key in KwargsOf(args) <==> date.Some?)
      && (date.Some? ==> KwargsOf(args)[key].KStr? && ParseDate(KwargsOf(args)[key].s) == date)
  {
    KwargsLookup(args, key);
    var date := if key == DateFrom then args.dateFrom else args.dateTo;
    if date.Some? {
      ParseFormat(date.value);
    }
  }

  /** A scraped row, by column, as `df.to_dict(orient="records")` gives it. */
  type Record = seq<(string, RawValue)>

  /** A data frame: distinct column names and rows of one cell per column. */
  datatype Frame = Frame(columns: seq<string>, rows: seq<seq<RawValue>>) {
    predicate WellFormed() {
      && (forall a, b :: 0 <= a < b < |columns| ==> columns[a] != columns[b])
      && (forall r :: 0 <= r < |rows| ==> |rows[r]| == |columns|)
    }

    /** `df.empty`: no rows or no columns. */
    predicate Empty() {
      |columns| == 0 || |rows| == 0
    }

    /** `df.to_dict(orient="records")`: one record per row. */
    function Records(): seq<Record>
      requires WellFormed()
    {
      seq(|rows|, r requires 0 <= r < |rows| =>
        seq(|columns|, c requires 0 <= c < |columns| => (columns[c], rows[r][c])))
    }
  }

  type DataFrame = f: Frame | f.WellFormed() witness Frame([], [])

  /** What `scrape_property(**kwargs)` does: return a frame, or raise with a message. */
  datatype ScrapeOutcome = Scraped(frame: DataFrame) | ScrapeRaised(message: string)

  /** `ScraperError`, by its message. */
  datatype ScraperError = ScraperError(message: string)

  const ErrorPrefix: string := "Failed to scrape properties: "

  /** Line 181: the message of the error raised for a failure whose text is `cause`. */
  function Wrap(cause: string): (e: ScraperError)
    ensures |e.message| == |ErrorPrefix| + |cause|
    ensures e.message[..|ErrorPrefix|] == ErrorPrefix && e.message[|ErrorPrefix|..] == cause
  {
    ScraperError(ErrorPrefix + cause)
  }

  /** Line 175: the record with each value normalized. */
  function CleanRecord(record: Record): (r: Record)
    ensures |r| == |record|
    ensures forall k :: 0 <= k < |r| ==> r[k].0 == record[k].0 && r[k].1 == Convert(record[k].1)
    ensures forall k :: 0 <= k < |r| ==> Normalized(r[k].1)
  {
    ConvertComposite(Dict(record));
    Convert(Dict(record)).entries
  }

  /** Cleaning a cleaned record changes nothing. */
  lemma CleanRecordIdempotent(record: Record)
    ensures CleanRecord(CleanRecord(record)) == CleanRecord(record)
  {
    var once := CleanRecord(record);
    forall k | 0 <= k < |once| ensures Convert(once[k].1) == once[k].1 {
      ConvertIdempotent(record[k].1);
    }
  }

  /** Lines 172-176: each record cleaned and made into a `Property` in turn,
      stopping at the first failure. */
  function BuildAll<P>(records: seq<Record>, make: Record -> Result<P, string>): Result<seq<P>, string>
    decreases |records|
  {
    if records == [] then Ok([])
    else
      match BuildAll(records[..|records| - 1], make)
      case Err(e) => Err(e)
      case Ok(ps) =>
        match make(CleanRecord(records[|records| - 1]))
        case Err(e) => Err(e)
        case Ok(p) => Ok(ps + [p])
  }

  /** A success has one property per record, in record order. */
  lemma {:induction false} BuildAllOk<P>(records: seq<Record>, make: Record -> Result<P, string>)
    requires BuildAll(records, make).Ok?
    ensures |BuildAll(records, make).value| == |records|
    ensures forall i :: 0 <= i < |records| ==> make(CleanRecord(records[i])) == Ok(BuildAll(records, make).value[i])
    decreases |records|
  {
    if records != [] {
      var init := records[..|records| - 1];
      BuildAllOk(init, make);
      var ps := BuildAll(records, make).value;
      forall i | 0 <= i < |records| ensures make(CleanRecord(records[i])) == Ok(ps[i]) {
        if i < |init| {
          assert records[i] == init[i];
        }
      }
    }
  }

  /** Record `i` is the first whose property cannot be made, failing with `e`. */
  ghost predicate FirstFailure<P>(records: seq<Record>, make: Record -> Result<P, string>, i: int, e: string) {
    && 0 <= i < |records|
    && make(CleanRecord(records[i])) == Err(e)
    && forall j :: 0 <= j < i ==> make(CleanRecord(records[j])).Ok?
  }

  /** A failure is the first record whose property cannot be made. */
  lemma {:induction false} BuildAllErr<P>(records: seq<Record>, make: Record -> Result<P, string>)
    requires BuildAll(records, make).Err?
    ensures exists i :: FirstFailure(records, make, i, BuildAll(records, make).error)
    decreases |records|
  {
    var init := records[..|records| - 1];
    var e := BuildAll(records, make).error;
    if BuildAll(init, make).Err? {
      assert BuildAll(init, make).error == e;
      BuildAllErr(init, make);
      var i :| FirstFailure(init, make, i, e);
      PrefixRecords(records, init, i);
      assert FirstFailure(records, make, i, e);
    } else {
      BuildAllOk(init, make);
      PrefixRecords(records, init, |init|);
      assert FirstFailure(records, make, |init|, e);
    }
  }

  /** The records before `i` of a prefix are those of the whole. */
  lemma PrefixRecords(records: seq<Record>, init: seq<Record>, i: int)
    requires 0 <= i <= |init| <= |records| && init == records[..|init|]
    ensures forall j :: 0 <= j < i ==> records[j] == init[j]
    ensures i < |init| ==> records[i] == init[i]
  {
  }

  /** When every record makes a property, the loop succeeds. */
  lemma {:induction false} BuildAllAllOk<P>(records: seq<Record>, make: Record -> Result<P, string>)
    requires forall i :: 0 <= i < |records| ==> make(CleanRecord(records[i])).Ok?
    ensures BuildAll(records, make).Ok?
    decreases |records|
  {
    if records != [] {
      var init := records[..|records| - 1];
      forall i | 0 <= i < |init| ensures make(CleanRecord(init[i])).Ok? {
        assert init[i] == records[i];
      }
      BuildAllAllOk(init, make);
    }
  }

  /** Once a prefix fails, the whole loop fails with the same message. */
  lemma {:induction false} BuildAllErrSticks<P>(records: seq<Record>, n: nat, make: Record -> Result<P, string>)
    requires n <= |records|
    requires BuildAll(records[..n], make).Err?
    ensures BuildAll(records, make) == BuildAll(records[..n], make)
    decreases |records| - n
  {
    if n < |records| {
      var m := |records| - 1;
      if n == |records| {
      } else if n == m {
        assert records[..m] == records[..n];
      } else {
        assert records[..m][..n] == records[..n];
        BuildAllErrSticks(records[..m], n, make);
      }
    } else {
      assert records[..n] == records;
    }
  }

  /** `search_properties`, as a value: the scraper is called with the built
      keyword arguments, an empty frame gives no properties, and every
      failure is wrapped. */
  function Search<P>(args: SearchArgs, scrape: Kwargs -> ScrapeOutcome, make: Record -> Result<P, string>): Result<seq<P>, ScraperError>
    requires args.HasDates()
  {
    match scrape(KwargsOf(args))
    case ScrapeRaised(m) => Err(Wrap(m))
    case Scraped(df) =>
      if df.Empty() then Ok([])
      else
        match BuildAll(df.Records(), make)
        case Ok(ps) => Ok(ps)
        case Err(m) => Err(Wrap(m))
  }

  /** Lines 104-181. */
  method SearchProperties<P>(args: SearchArgs, scrape: Kwargs -> ScrapeOutcome, make: Record -> Result<P, string>)
    returns (result: Result<seq<P>, ScraperError>)
    requires args.HasDates()
    ensures result == Search(args, scrape, make)
  {
    var kwargs := KwargsOf(args);
    var outcome := scrape(kwargs);
    if outcome.ScrapeRaised? {
      return Err(Wrap(outcome.message));
    }
    var df := outcome.frame;
    if df.Empty() {
      return Ok([]);
    }
    var records := df.Records();
    var properties: seq<P> := [];
    var i := 0;
    while i < |records|
      invariant 0 <= i <= |records|
      invariant BuildAll(records[..i], make) == Ok(properties)
    {
      var made := make(CleanRecord(records[i]));
      assert records[..i + 1][..i] == records[..i];
      if made.Err? {
        BuildAllErrSticks(records, i + 1, make);
        return Err(Wrap(made.error));
      }
      properties := properties + [made.value];
      i := i + 1;
    }
    assert records[..i] == records;
    return Ok(properties);
  }

  /** No rows, or no columns, means no properties and no error. */
  lemma SearchEmpty<P>(args: SearchArgs, scrape: Kwargs -> ScrapeOutcome, make: Record -> Result<P, string>)
    requires args.HasDates()
    requires scrape(KwargsOf(args)).Scraped? && scrape(KwargsOf(args)).frame.Empty()
    ensures Search(args, scrape, make) == Ok([])
  {
  }

  /** A success holds one property per record, in record order, each made
      from the cleaned record. */
  lemma SearchOk<P>(args: SearchArgs, scrape: Kwargs -> ScrapeOutcome, make: Record -> Result<P, string>)
    requires args.HasDates()
    requires Search(args, scrape, make).Ok?
    ensures scrape(KwargsOf(args)).Scraped?
    ensures var df := scrape(KwargsOf(args)).frame; var ps := Search(args, scrape, make).value;
      && (df.Empty() ==> ps == [])
      && (!df.Empty() ==> (|ps| == |df.rows|
            && forall i :: 0 <= i < |ps| ==> make(CleanRecord(df.Records()[i])) == Ok(ps[i])))
  {
    var df := scrape(KwargsOf(args)).frame;
    if !df.Empty() {
      BuildAllOk(df.Records(), make);
    }
  }

  /** Every failure is a `ScraperError` whose message is the prefix followed
      by the text of the scraper's exception or of the first record's
      failure. */
  lemma SearchErr<P>(args: SearchArgs, scrape: Kwargs -> ScrapeOutcome, make: Record -> Result<P, string>)
    requires args.HasDates()
    requires Search(args, scrape, make).Err?
    ensures var msg := Search(args, scrape, make).error.message;
      |ErrorPrefix| <= |msg| && msg[..|ErrorPrefix|] == ErrorPrefix
    ensures var cause := Search(args, scrape, make).error.message[|ErrorPrefix|..];
      || scrape(KwargsOf(args)) == ScrapeRaised(cause)
      || (&& scrape(KwargsOf(args)).Scraped?
          && !scrape(KwargsOf(args)).frame.Empty()
          && exists i :: FirstFailure(scrape(KwargsOf(args)).frame.Records(), make, i, cause))
  {
    var outcome := scrape(KwargsOf(args));
    if outcome.Scraped? {
      BuildAllErr(outcome.frame.Records(), make);
    }
  }

  /** When the scraper answers and every one of its cleaned records makes a
      property, the search succeeds. */
  lemma SearchSucceeds<P>(args: SearchArgs, scrape: Kwargs -> ScrapeOutcome, make: Record -> Result<P, string>)
    requires args.HasDates()
    requires scrape(KwargsOf(args)).Scraped?
    requires var rs := scrape(KwargsOf(args)).frame.Records();
      forall i :: 0 <= i < |rs| ==> make(CleanRecord(rs[i])).Ok?
    ensures Search(args, scrape, make).Ok?
  {
    var df := scrape(KwargsOf(args)).frame;
    if !df.Empty() {
      BuildAllAllOk(df.Records(), make);
    }
  }
}
