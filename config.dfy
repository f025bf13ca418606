/**
 * Application settings of app/config.py: the default values and the CORS
 * origin list, `[origin.strip() for origin in cors_origins.split(",")]`.
 */
module Config {

  /** `str.isspace()` for one character: the characters Python's `strip()`
      removes when given no argument. */
  predicate IsSpace(c: char) {
    || c == ' ' || ('\t' <= c <= '\r') || ('\U{1c}' <= c <= '\U{1f}')
    || c == '\U{85}' || c == '\U{a0}' || c == '\U{1680}'
    || ('\U{2000}' <= c <= '\U{200a}') || c == '\U{2028}' || c == '\U{2029}'
    || c == '\U{202f}' || c == '\U{205f}' || c == '\U{3000}'
  }

  function CountChar(s: string, c: char): nat {
    if s == [] then 0 else (if s[0] == c then 1 else 0) + CountChar(s[1..], c)
  }

  /** The inverse of `Split`: the pieces with `sep` between them. */
  function Join(pieces: seq<string>, sep: char): string {
    if pieces == [] then []
    else if |pieces| == 1 then pieces[0]
    else pieces[0] + [sep] + Join(pieces[1..], sep)
  }

  /** `s.split(sep)` for a one-character separator: the maximal runs
      between separators, empty ones included. */
  function Split(s: string, sep: char): (r: seq<string>)
    ensures |r| == CountChar(s, sep) + 1
    ensures forall k :: 0 <= k < |r| ==> sep !in r[k]
    ensures Join(r, sep) == s
  {
    if s == [] then [""]
    else
      var rest := Split(s[1..], sep);
      if s[0] == sep then [""] + rest
      else [[s[0]] + rest[0]] + rest[1..]
  }

  /** Splitting a join gives the pieces back when none of them holds the separator. */
  lemma {:induction false} SplitJoin(pieces: seq<string>, sep: char)
    requires |pieces| >= 1
    requires forall k :: 0 <= k < |pieces| ==> sep !in pieces[k]
    ensures Split(Join(pieces, sep), sep) == pieces
  {
    if |pieces| == 1 {
      SplitNoSeparator(pieces[0], sep);
    } else {
      SplitJoin(pieces[1..], sep);
      SplitAfter(pieces[0], Join(pieces[1..], sep), sep);
    }
  }

  lemma {:induction false} SplitNoSeparator(s: string, sep: char)
    requires sep !in s
    ensures Split(s, sep) == [s]
  {
    if s != [] {
      SplitNoSeparator(s[1..], sep);
    }
  }

  /** A separator-free head glued by one separator to a tail. */
  lemma {:induction false} SplitAfter(head: string, tail: string, sep: char)
    requires sep !in head
    ensures Split(head + [sep] + tail, sep) == [head] + Split(tail, sep)
  {
    if head != [] {
      var s := head + [sep] + tail;
      assert s[0] == head[0] && s[1..] == head[1..] + [sep] + tail;
      SplitAfter(head[1..], tail, sep);
      assert [head[0]] + head[1..] == head;
    } else {
      assert (head + [sep] + tail)[1..] == tail;
    }
  }

  /** How many whitespace characters `s` begins with: what `s.lstrip()` removes. */
  function Indent(s: string): (n: nat)
    ensures n <= |s|
    ensures forall k :: 0 <= k < n ==> IsSpace(s[k])
    ensures n < |s| ==> !IsSpace(s[n])
  {
    if s != [] && IsSpace(s[0]) then 1 + Indent(s[1..]) else 0
  }

  /** `s.rstrip()`. */
  function TrimEnd(s: string): (r: string)
    ensures |r| <= |s| && r == s[..|r|]
    ensures forall k :: |r| <= k < |s| ==> IsSpace(s[k])
    ensures r != [] ==> !IsSpace(r[|r| - 1])
  {
    if s != [] && IsSpace(s[|s| - 1]) then TrimEnd(s[..|s| - 1]) else s
  }

  /** `s.strip()`: what is left once the leading and the trailing whitespace
      are cut off; it neither begins nor ends with whitespace. */
  function Strip(s: string): (r: string)
    ensures Indent(s) + |r| <= |s| && r == s[Indent(s)..Indent(s) + |r|]
    ensures forall k :: Indent(s) + |r| <= k < |s| ==> IsSpace(s[k])
    ensures r != [] ==> !IsSpace(r[0]) && !IsSpace(r[|r| - 1])
  {
    TrimEnd(s[Indent(s)..])
  }

  /** The settings and their defaults. */
  datatype Settings = Settings(corsOrigins: string, apiHost: string, apiPort: int) {

    /** `cors_origins_list`: one entry per comma-separated piece, in order,
        each with its surrounding whitespace removed. */
    function CorsOriginsList(): (r: seq<string>)
      ensures |r| == CountChar(corsOrigins, ',') + 1
      ensures forall k :: 0 <= k < |r| ==> r[k] == Strip(Split(corsOrigins, ',')[k])
      ensures forall k :: 0 <= k < |r| ==> ',' !in r[k]
      ensures forall k :: 0 <= k < |r| && r[k] != [] ==> !IsSpace(r[k][0]) && !IsSpace(r[k][|r[k]| - 1])
    {
      var pieces := Split(corsOrigins, ',');
      seq(|pieces|, k requires 0 <= k < |pieces| => Strip(pieces[k]))
    }
  }

  const DefaultSettings: Settings := Settings("http://localhost:3000", "0.0.0.0", 8000)

  /** A comma-free, whitespace-free origin is the whole list. */
  lemma SingleOrigin(s: Settings)
    requires ',' !in s.corsOrigins
    requires s.corsOrigins != [] ==> !IsSpace(s.corsOrigins[0]) && !IsSpace(s.corsOrigins[|s.corsOrigins| - 1])
    ensures s.CorsOriginsList() == [s.corsOrigins]
  {
    SplitNoSeparator(s.corsOrigins, ',');
  }

  /** With no environment overrides the API listens on 0.0.0.0:8000 and
      allows one origin. */
  lemma DefaultValues()
    ensures DefaultSettings.CorsOriginsList() == ["http://localhost:3000"]
    ensures DefaultSettings.apiHost == "0.0.0.0" && DefaultSettings.apiPort == 8000
  {
    SingleOrigin(DefaultSettings);
  }

  /** An empty setting gives one empty origin, not an empty list. */
  lemma EmptyOrigins(s: Settings)
    requires s.corsOrigins == ""
    ensures s.CorsOriginsList() == [""]
  {
  }
}
