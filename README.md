# realstate-api in Dafny

A model of the logic inside a small FastAPI service that searches real-estate
listings through the HomeHarvest scraper. It covers four pieces:

- The value normalizer of `app/services/scraper.py`:
  - `is_scalar_na` decides whether a scraped cell is a scalar "not available" marker.
  - `convert_value` turns a cell, recursively, into a JSON-safe value.
  - Python's runtime type tests become a closed datatype `Normalizer.RawValue`: one constructor per kind of value the dispatch tells apart.
  - The predicate `Normalizer.Normalized` describes the clean output.
- `search_properties` of the same file: it builds the scraper's keyword arguments, calls the scraper, cleans every returned record and wraps each failure in a `ScraperError`.
  - The successive `if x is not None: kwargs[key] = x` insertions are a left fold, `Scraper.InsertAll`, over the table `Scraper.OptionalArgs` of (keyword, value) rows in source order.
  - The loop over the records is the method `Scraper.SearchProperties`. It is proved equal to the function `Scraper.Search`.
  - The scraper (`scrape_property`) and the `Property(**cleaned)` constructor are parameters.
- The request schema of `app/schemas/property.py`:
  - the three string enumerations and their tags;
  - the field bounds of `PropertySearchRequest`, as the predicate `Schema.SearchRequest.Valid`.
- The settings of `app/config.py`: the defaults, and `cors_origins_list`, which splits on `,` and then strips each piece.

Dates (`Dates`) are checked calendar dates with their `YYYY-MM-DD` text. They are proved to make a parse/format round trip.

Every exception raised inside the `try` block of `search_properties`, a failed `Property(**cleaned)` included, becomes a `ScraperError` (app/services/scraper.py:180-181).

## Model

| member | source | states |
|---|---|---|
| Normalizer.IsScalarNa | app/services/scraper.py:10-25 | true exactly for None, float NaN, NaT, pandas NA and numpy NaN; false for every list, tuple, array and dict, empty ones included; a probe that raises reads as false, so the test is total |
| Normalizer.Convert | app/services/scraper.py:28-56 | every result is normalized: plain scalars, opaque objects, and lists and dicts of such values |
| Normalizer.ConvertNull | app/services/scraper.py:30-47 | the result is None exactly when the input is an NA marker (None, float NaN, NaT, pandas NA, numpy NaN) |
| Normalizer.ConvertScalars | app/services/scraper.py:35-49 | timestamps and values with `isoformat` become their ISO text; numpy int, float and bool become the plain scalar of the same value |
| Normalizer.ConvertComposite | app/services/scraper.py:50-55 | arrays, lists and tuples become lists of the same length, element i converted from element i; a dict keeps its keys in order and converts each value; empty stays empty |
| Normalizer.ConvertNormalized | app/services/scraper.py:52-56 | a normalized value is a fixed point of the conversion |
| Normalizer.ConvertIdempotent | app/services/scraper.py:28-56 | converting a converted value changes nothing |
| Normalizer.NormalizedIsClean | app/services/scraper.py:28-56 | nowhere inside a normalized value is there an NA marker other than None, a numpy or pandas value of a kind the dispatch converts, a tuple or a date |
| Normalizer.ConvertIsClean | app/services/scraper.py:28-56 | no converted value holds, at any depth, an NA marker other than None, a numpy or pandas value of a kind the dispatch converts, a tuple or a date |
| Dates.FormatDate | app/services/scraper.py:116-119 | `strftime("%Y-%m-%d")` gives ten characters, dashes at positions 4 and 7, digits elsewhere |
| Dates.ParseDate | app/schemas/property.py:57-64 | reading `YYYY-MM-DD` text yields only real calendar dates of years 1 to 9999 |
| Dates.ParseFormat | app/services/scraper.py:116-119 | every date is read back from the text it is formatted as |
| Dates.FormatParse | app/schemas/property.py:57-64 | every text that reads as a date is exactly that date's formatted text |
| Schema.ListingTypeOf | app/schemas/property.py:7-12 | `ListingType(s)` finds the member whose tag is s, and finds none exactly when no member has that tag |
| Schema.SortByOf | app/schemas/property.py:15-21 | `SortBy(s)` finds the member whose tag is s, and none exactly when no member has it |
| Schema.PropertyTypeOf | app/schemas/property.py:24-30 | `PropertyType(s)` finds the member whose tag is s, and none exactly when no member has it |
| Schema.ListingTypeTags | app/schemas/property.py:7-12 | the tags are exactly for_sale, for_rent, sold, pending, off_market; each looks its member up; distinct members have distinct tags |
| Schema.SortByTags | app/schemas/property.py:15-21 | the tags are exactly the six sort keys, each looks its member up, and they are pairwise distinct |
| Schema.PropertyTypeTags | app/schemas/property.py:24-30 | the tags are exactly the six property types, each looks its member up, and they are pairwise distinct |
| Schema.SearchRequest.Valid | app/schemas/property.py:47-99 | the `Field(ge=…, le=…)` bounds, each on its own field; no contract of its own: `Schema.ValidBounds`, `Schema.MinimalRequest`, `Schema.MinAboveMaxAccepted` and `Schema.YearBoundsOneSided` characterise it |
| Schema.MinimalRequest | app/schemas/property.py:36-44 | a request with only `location` and `listing_type` set is valid |
| Schema.ValidBounds | app/schemas/property.py:47-99 | a valid request has `past_days`, `past_hours` at least 1, `limit` in 1..10000, `radius` at least 0, `year_built_min` at least 1800 and `year_built_max` at most 2030, when present |
| Schema.MinAboveMaxAccepted | app/schemas/property.py:67-78 | minimums above their maximums are accepted: there is no cross-field check |
| Schema.YearBoundsOneSided | app/schemas/property.py:75-76 | a minimum year above 2030 together with a maximum below 1800 is accepted: the bounds are one-sided and independent |
| Config.Split | app/config.py:18 | `split(",")` gives one piece more than there are separators, no piece holds a separator, and joining the pieces gives the text back |
| Config.SplitJoin | app/config.py:18 | splitting joined separator-free pieces gives the pieces back |
| Config.SplitNoSeparator | app/config.py:18 | text without a separator splits into itself alone |
| Config.Strip | app/config.py:18 | `strip()` keeps a contiguous slice that neither begins nor ends with whitespace, and removes only whitespace around it |
| Config.Settings.CorsOriginsList | app/config.py:15-18 | one entry per comma-separated piece, in order, each the piece stripped; no entry holds a comma or begins or ends with whitespace |
| Config.DefaultValues | app/config.py:9-18 | with the defaults the origin list is exactly `["http://localhost:3000"]`, the host 0.0.0.0 and the port 8000 |
| Config.SingleOrigin | app/config.py:18 | a comma-free origin without surrounding whitespace is the whole list |
| Config.EmptyOrigins | app/config.py:18 | an empty setting gives one empty origin, not an empty list |
| Scraper.NameKeyword | app/services/scraper.py:106-159 | each keyword's name looks the keyword up again |
| Scraper.NamesDistinct | app/services/scraper.py:106-159 | distinct keywords have distinct names, so keying by keyword is keying by name |
| Scraper.OptionalKeysListed | app/services/scraper.py:111-159 | the optional keywords are listed once each, in insertion order, and the two required ones are not listed |
| Scraper.InsertAllOther | app/services/scraper.py:111-159 | a key no insertion names keeps what it had |
| Scraper.InsertAllAt | app/services/scraper.py:111-159 | with distinct keys, each inserted key holds its row's value when that is not None, and its old value otherwise |
| Scraper.InsertAllKeys | app/services/scraper.py:111-159 | the insertions add no key other than the rows' own |
| Scraper.KwargsOf | app/services/scraper.py:106-159 | the built keyword arguments, as the fold of the conditional insertions; no contract of its own: `Scraper.KwargsLookup`, `Scraper.KwargsRequired`, `Scraper.KwargsOptional`, `Scraper.KwargsEnums` and `Scraper.KwargsDate` characterise it |
| Scraper.KwargsLookup | app/services/scraper.py:106-159 | key by key, the built arguments hold exactly what the per-key reference `Expected` names, and nothing else |
| Scraper.KwargsRequired | app/services/scraper.py:106-109 | `location` and `listing_type` are always passed, the latter as the enum's tag |
| Scraper.KwargsOptional | app/services/scraper.py:111-159 | each optional keyword is passed exactly when its argument is not None, and no keyword outside the list is passed |
| Scraper.KwargsEnums | app/services/scraper.py:146-153 | `property_type` is passed exactly when given, as a one-element list of its tag; `sort_by` as its tag |
| Scraper.KwargsDate | app/services/scraper.py:116-119 | `date_from` and `date_to` are passed exactly when given, as text that reads back as the same date |
| Scraper.Wrap | app/services/scraper.py:180-181 | the error message is the fixed prefix followed by the cause's text, which can be read back |
| Scraper.CleanRecord | app/services/scraper.py:175 | the cleaned record has the same keys in the same order, each value converted and normalized |
| Scraper.CleanRecordIdempotent | app/services/scraper.py:175 | cleaning a cleaned record changes nothing |
| Scraper.BuildAll | app/services/scraper.py:172-176 | the record loop, as a left fold that stops at the first failure; no contract of its own: `Scraper.BuildAllOk`, `Scraper.BuildAllErr`, `Scraper.BuildAllAllOk` and `Scraper.BuildAllErrSticks` characterise it |
| Scraper.BuildAllOk | app/services/scraper.py:172-176 | a successful loop yields one property per record, in record order, property i made from cleaned record i |
| Scraper.BuildAllErr | app/services/scraper.py:172-176 | a failed loop fails with the message of the first record whose property cannot be made |
| Scraper.BuildAllAllOk | app/services/scraper.py:172-176 | when every cleaned record makes a property, the loop succeeds |
| Scraper.BuildAllErrSticks | app/services/scraper.py:172-176 | once a prefix of the records fails, the whole loop fails with the same message |
| Scraper.Search | app/services/scraper.py:104-181 | the whole search as a value; no contract of its own: `Scraper.SearchEmpty`, `Scraper.SearchOk`, `Scraper.SearchErr` and `Scraper.SearchSucceeds` characterise it |
| Scraper.SearchProperties | app/services/scraper.py:104-181 | the method, with its record loop, returns exactly the value `Search` defines |
| Scraper.SearchEmpty | app/services/scraper.py:165-166 | an empty frame yields an empty list and no error |
| Scraper.SearchOk | app/services/scraper.py:161-178 | a success comes from a scrape that answered, and holds one property per row, in row order, each made from the cleaned record |
| Scraper.SearchErr | app/services/scraper.py:172-181 | every failure is a `ScraperError` whose message is "Failed to scrape properties: " followed by the scraper's exception text, or by the text of the first record of a non-empty frame whose property cannot be made |
| Scraper.SearchSucceeds | app/services/scraper.py:161-178 | when the scraper answers and each of the frame's cleaned records makes a property, the search succeeds |

## Left out

- `scrape_property` (HomeHarvest) is a function parameter: it maps the keyword arguments to a frame or to a raised message. Its results, networking and parallelism are not modelled.
- `df.to_dict(orient="records")` is written out over a frame with distinct column names. pandas also allows duplicate column names; that case is not modelled.
- `Property(**cleaned)` (the Pydantic model at lines 118-210 of app/schemas/property.py) is a function parameter returning a property or an error text. Its field coercion is not modelled.
- `str(e)` of an exception is the message carried by the failure. Exception classes and the `from e` chaining are not modelled.
- Normalizer.Convert: the errors `convert_value` itself can raise are not modelled; the normalizer is total. One such error comes from a 0-d array: `np.array(5).tolist()` is the int `5`, the comprehension at app/services/scraper.py:51 then raises `TypeError`, and `search_properties` turns it into a `ScraperError`. Others are a failing `isoformat()` and exceeding the recursion depth.
- Normalizer.Convert: a numpy array is given by the elements its `tolist()` returns, already unwrapped as numpy does it (a `datetime64` element, for instance, becomes a `datetime` or an `int`). The unwrapping itself is not modelled.
- Normalizer.Other: this constructor also stands for the numpy and pandas kinds the dispatch does not recognise, such as `np.complex128`, a non-NaT `np.datetime64`, `pd.Period` and `pd.Interval`. They pass through unchanged at app/services/scraper.py:56, so a converted value can still hold them; `Normalizer.NormalizedIsClean` and `Normalizer.ConvertIsClean` speak only of the kinds the dispatch converts.
- Normalizer.NaProbe: the `pd.Timestamp` test at line 19 of app/services/scraper.py never fires. A NaT is its own constructor, and a non-NaT timestamp is not NA.
- Normalizer.Convert: the numpy NaN branch at lines 44-46 of app/services/scraper.py is unreachable, because `is_scalar_na` has already returned true for that value. The model keeps it in the dispatch.
- Floating-point values are reals, so NaN is a constructor of its own and infinities are not modelled. Float arithmetic is not modelled.
- The `isoformat()` text of dates and timestamps is an uninterpreted string carried by the value.
- Dict keys are strings; the model does not cover dicts with other key types.
- Dates.FormatDate: pads the year to four digits. For years below 1000, `%Y` depends on the platform's C library.
- Dates.ParseDate: reads only `YYYY-MM-DD` text. Pydantic's date parsing also accepts other forms, such as timestamps; those are not modelled.
- Keyword-argument keys are the constructors of `Scraper.Keyword`, and `Keyword.Name` gives the Python string. `Scraper.NamesDistinct` shows that this mapping is faithful.
- app/routers/properties.py: the HTTP route, its mapping of request fields to `search_properties` and its HTTP 500 error mapping are not modelled. This is framework plumbing.
- app/main.py: application construction, CORS middleware and the health and root endpoints are not modelled. This is framework wiring.
- Loading `.env` and the `lru_cache` of `get_settings` (app/config.py:20-29) are not modelled. They are environment I/O and caching.
- Pydantic's coercion of settings values from the environment is not modelled. The settings are given as already-typed values.
- The geospatial post-processor (distance annotation, radius filtering, sorting) is not part of this model: it appears in no modelled file.
