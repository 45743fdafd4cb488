/** URLs and query/header value maps, as Go's `net/url` and `net/http` hold them.
    Parsing and encoding are library code and stay outside the model: callers receive
    them as function parameters. */
module Urls {
  import opened Wrappers

  /** `url.Values` and, with canonical keys, `http.Header`. */
  type Values = map<string, seq<string>>

  /** `url.Values.Get` / `http.Header.Get`: the first value of the key, or "". */
  function Get(q: Values, key: string): string {
    if key in q && |q[key]| > 0 then q[key][0] else ""
  }

  /** `url.Values.Set`: the key now holds exactly one value; no other key changes. */
  function Set(q: Values, key: string, value: string): (r: Values)
    ensures key in r && r[key] == [value] && Get(r, key) == value
    ensures forall k :: k != key ==> (k in r <==> k in q)
    ensures forall k :: k in q && k != key ==> r[k] == q[k]
  {
    q[key := [value]]
  }

  /** A parsed `url.URL`; `user` is the optional user-info part, `rawQuery` the encoded query. */
  datatype Url = Url(scheme: string, user: Option<string>, host: string, path: string, rawQuery: string)

  /** `url.ParseQuery` and `url.Values.Encode`, supplied by the caller. */
  datatype QueryCodec = QueryCodec(parse: string -> Result<Values>, encode: Values -> string)

  /** Encoding a query and parsing it again gives the same values. */
  ghost predicate QueryRoundTrips(c: QueryCodec) {
    forall v: Values :: c.parse(c.encode(v)) == Ok(v)
  }
}
