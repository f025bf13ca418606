/**
 * The value normalizer of the scraper service (app/services/scraper.py):
 * `is_scalar_na` decides whether a scraped cell is a scalar "not available"
 * marker, and `convert_value` turns a cell into a JSON-safe value.
 *
 * Python's runtime type tests become a closed datatype with one constructor
 * per kind of value the dispatch tells apart. Float payloads are reals (NaN
 * is a constructor of its own), and the `isoformat()` text of a date or
 * timestamp is an uninterpreted string carried by the value.
 */
module Normalizer {

  /** An object of a kind the dispatch does not recognise, numpy and pandas
      kinds among them (a complex number, a non-NaT `datetime64`, a period);
      it passes through unchanged. `probeRaises` says whether pandas' NA test raises
      ValueError or TypeError on it. */
  datatype OpaqueObject = OpaqueObject(id: string, probeRaises: bool)

  datatype RawValue =
    | Null                                  // None
    | FloatNaN                              // a Python float NaN (numpy.float64 is a float subclass)
    | NaT                                   // pandas.NaT, numpy.datetime64("NaT")
    | PandasNA                              // pandas.NA and other pandas scalar nulls
    | Timestamp(iso: string)                // a pandas.Timestamp that is not NaT
    | DateLike(iso: string)                 // any other value with a callable isoformat()
    | NpInt(i: int)                         // numpy.integer
    | NpFloat(x: real)                      // numpy.floating, not NaN
    | NpFloatNaN                            // numpy.floating NaN of a width that is not a float subclass
    | NpBool(b: bool)                       // numpy.bool_
    | NdArray(items: seq<RawValue>)         // numpy.ndarray, by its tolist() elements
    | List(items: seq<RawValue>)
    | Tuple(items: seq<RawValue>)
    | Dict(entries: seq<(string, RawValue)>) // a dict, in insertion order
    | Str(s: string)
    | Int(i: int)
    | Float(x: real)
    | Bool(b: bool)
    | Other(obj: OpaqueObject)
  {
    /** The kinds excluded from NA detection at line 15. */
    predicate IsContainer() {
      NdArray? || List? || Tuple? || Dict?
    }

    /** The scalar markers of a missing value. */
    predicate IsNaMarker() {
      Null? || FloatNaN? || NaT? || PandasNA? || NpFloatNaN?
    }

    /** The numpy and pandas kinds the dispatch tells apart. */
    predicate IsProviderType() {
      NaT? || PandasNA? || Timestamp? || NpInt? || NpFloat? || NpFloatNaN? || NpBool? || NdArray?
    }
  }

  /** What the body of the `try` block of `is_scalar_na` does: answer, or raise. */
  datatype Probe = Na | NotNa | Raised

  /** The checks of `is_scalar_na`, in their order. */
  function NaProbe(v: RawValue): Probe {
    if v.Null? then Na
    else if v.IsContainer() then NotNa
    else if v.FloatNaN? then Na
    // The Timestamp test never fires: a NaT is its own constructor, never a Timestamp.
    else if v.Other? then (if v.obj.probeRaises then Raised else NotNa)
    else if v.NaT? || v.PandasNA? || v.NpFloatNaN? then Na
    else NotNa
  }

  /** `is_scalar_na`: total, since a raised ValueError or TypeError reads as "not NA". */
  function IsScalarNa(v: RawValue): (r: bool)
    ensures r <==> v.IsNaMarker()
    ensures v.IsContainer() ==> !r
  {
    match NaProbe(v)
    case Na => true
    case NotNa => false
    case Raised => false
  }

  /** The values `convert_value` leaves as they are: plain scalars, opaque
      objects, and lists and dicts of such values. No NA marker, none of the
      numpy or pandas kinds the dispatch converts, no tuple and no date or
      timestamp occurs anywhere in one. */
  predicate Normalized(v: RawValue) {
    match v
    case Null => true
    case Str(_) => true
    case Int(_) => true
    case Float(_) => true
    case Bool(_) => true
    case Other(_) => true
    case List(items) => forall k :: 0 <= k < |items| ==> Normalized(items[k])
    case Dict(es) => forall k :: 0 <= k < |es| ==> Normalized(es[k].1)
    case _ => false
  }

  /** `convert_value`, its tests in the source's order. */
  function Convert(v: RawValue): (r: RawValue)
    ensures Normalized(r)
  {
    if v.Null? then Null
    else if IsScalarNa(v) then Null
    else if v.Timestamp? then Str(v.iso)
    else if v.DateLike? then Str(v.iso)
    else if v.NpInt? then Int(v.i)
    else if v.NpFloat? || v.NpFloatNaN? then (if v.NpFloatNaN? then Null else Float(v.x))
    else if v.NpBool? then Bool(v.b)
    else if v.NdArray? then List(seq(|v.items|, k requires 0 <= k < |v.items| => Convert(v.items[k])))
    else if v.List? || v.Tuple? then List(seq(|v.items|, k requires 0 <= k < |v.items| => Convert(v.items[k])))
    else if v.Dict? then
      Dict(seq(|v.entries|, k requires 0 <= k < |v.entries| => (v.entries[k].0, Convert(v.entries[k].1))))
    else v
  }

  /** Exactly the NA markers become None. */
  lemma ConvertNull(v: RawValue)
    ensures Convert(v) == Null <==> v.IsNaMarker()
  {
  }

  /** Dates and timestamps become their ISO text; numpy scalars become the
      plain scalar of the same value. */
  lemma ConvertScalars(v: RawValue)
    ensures v.Timestamp? || v.DateLike? ==> Convert(v) == Str(v.iso)
    ensures v.NpInt? ==> Convert(v) == Int(v.i)
    ensures v.NpFloat? ==> Convert(v) == Float(v.x)
    ensures v.NpBool? ==> Convert(v) == Bool(v.b)
  {
  }

  /** Lists, tuples and arrays become lists of the same length, element by
      element; a dict keeps its keys, in order, and converts each value. An
      empty composite stays an empty composite. */
  lemma ConvertComposite(v: RawValue)
    ensures v.NdArray? || v.List? || v.Tuple? ==>
      && Convert(v).List?
      && |Convert(v).items| == |v.items|
      && forall k :: 0 <= k < |v.items| ==> Convert(v).items[k] == Convert(v.items[k])
    ensures v.Dict? ==>
      && Convert(v).Dict?
      && |Convert(v).entries| == |v.entries|
      && forall k :: 0 <= k < |v.entries| ==>
           Convert(v).entries[k] == (v.entries[k].0, Convert(v.entries[k].1))
  {
  }

  /** Normalized values are fixed points: they reach the final pass-through
      or are rebuilt from their own converted parts. */
  lemma {:induction false} ConvertNormalized(v: RawValue)
    requires Normalized(v)
    ensures Convert(v) == v
  {
    match v
    case List(items) =>
      forall k | 0 <= k < |items| ensures Convert(items[k]) == items[k] {
        ConvertNormalized(items[k]);
      }
      assert Convert(v).items == items;
    case Dict(es) =>
      forall k | 0 <= k < |es| ensures Convert(es[k].1) == es[k].1 {
        ConvertNormalized(es[k].1);
      }
      assert Convert(v).entries == es;
    case _ =>
  }

  /** Converting a converted value changes nothing. */
  lemma ConvertIdempotent(v: RawValue)
    ensures Convert(Convert(v)) == Convert(v)
  {
    ConvertNormalized(Convert(v));
  }

  /** `u` is `v` or a value nested somewhere inside it. */
  ghost predicate Within(u: RawValue, v: RawValue)
    decreases v
  {
    || u == v
    || ((v.NdArray? || v.List? || v.Tuple?) && exists k :: 0 <= k < |v.items| && Within(u, v.items[k]))
    || (v.Dict? && exists k :: 0 <= k < |v.entries| && Within(u, v.entries[k].1))
  }

  /** Nowhere inside a normalized value is there an NA marker other than
      None, a numpy or pandas value of a kind the dispatch converts, a tuple
      or a date. */
  lemma {:induction false} NormalizedIsClean(u: RawValue, v: RawValue)
    requires Normalized(v) && Within(u, v)
    ensures Normalized(u)
    ensures u.IsNaMarker() ==> u.Null?
    ensures !u.IsProviderType() && !u.Tuple? && !u.DateLike?
  {
    if u != v {
      if v.List? {
        var k :| 0 <= k < |v.items| && Within(u, v.items[k]);
        NormalizedIsClean(u, v.items[k]);
      } else {
        var k :| 0 <= k < |v.entries| && Within(u, v.entries[k].1);
        NormalizedIsClean(u, v.entries[k].1);
      }
    }
  }

  /** Hence no converted value holds any of them. */
  lemma ConvertIsClean(u: RawValue, v: RawValue)
    requires Within(u, Convert(v))
    ensures u.IsNaMarker() ==> u.Null?
    ensures !u.IsProviderType() && !u.Tuple? && !u.DateLike?
  {
    NormalizedIsClean(u, Convert(v));
  }
}
