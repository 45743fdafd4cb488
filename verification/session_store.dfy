/** The per-request session object shared by both document-store session providers
    (`SessionDocumentStore` in webstd/chistd and in webcommons/chistd, which are written
    identically): an attribute map plus the collection key it is saved under. */
module SessionStore {
  import opened Wrappers

  /** Session keys and values are Go `any`; the model uses a small closed universe. */
  datatype Value = Nil | Str(s: string) | Int(i: int) | Bool(b: bool) | Time(unixNanos: int)

  type Attrs = map<Value, Value>

  /** `prefix` and `sid` name the stored document; `duration` is in nanoseconds. */
  datatype Store = Store(prefix: string, sid: string, duration: int, data: Attrs)

  /** `session.EncodeGob` / `session.DecodeGob`, supplied by the caller. */
  datatype Gob = Gob(encode: Attrs -> Result<string>, decode: string -> Result<Attrs>)

  /** Whatever gob encodes, it decodes back. */
  ghost predicate GobRoundTrips(g: Gob) {
    forall a: Attrs :: g.encode(a).Ok? ==> g.decode(g.encode(a).value) == Ok(a)
  }

  /** The key of the session's document: the provider prefix followed by the session id. */
  function DocId(s: Store): string {
    s.prefix + s.sid
  }

  /** `NewSessionDocumentStore`: the `dur` argument is accepted and dropped, so every store
      starts with a zero duration. */
  function NewStore(prefix: string, sid: string, dur: int, data: Attrs): (s: Store)
    ensures s.prefix == prefix && s.sid == sid && s.data == data
    ensures s.duration == 0
  {
    Store(prefix, sid, 0, data)
  }

  /** `Get`: the stored value, or nil for a key that was never set. */
  function Get(s: Store, key: Value): (v: Value)
    ensures key !in s.data ==> v == Nil
  {
    if key in s.data then s.data[key] else Nil
  }

  /** `Set`: afterwards the key reads back as `val`; every other key and field is unchanged. */
  function Set(s: Store, key: Value, val: Value): (r: Store)
    ensures Get(r, key) == val
    ensures forall k :: k != key ==> Get(r, k) == Get(s, k)
    ensures r.data.Keys == s.data.Keys + {key}
    ensures r.prefix == s.prefix && r.sid == s.sid && r.duration == s.duration
  {
    s.(data := s.data[key := val])
  }

  /** `Delete`: afterwards the key reads as nil, whether or not it was present;
      every other key and field is unchanged. */
  function Delete(s: Store, key: Value): (r: Store)
    ensures Get(r, key) == Nil && key !in r.data
    ensures forall k :: k != key ==> Get(r, k) == Get(s, k)
    ensures r.data.Keys == s.data.Keys - {key}
    ensures key !in s.data ==> r == s
    ensures r.prefix == s.prefix && r.sid == s.sid && r.duration == s.duration
  {
    s.(data := s.data - {key})
  }

  /** `Flush`: every key reads as nil and nothing is left to save. */
  function Flush(s: Store): (r: Store)
    ensures |r.data| == 0
    ensures forall k :: Get(r, k) == Nil
    ensures r.prefix == s.prefix && r.sid == s.sid && r.duration == s.duration
  {
    s.(data := map[])
  }

  /** `ID`. */
  function ID(s: Store): string {
    s.sid
  }

  /** The id a store reports is the one it was created with, whatever is set, deleted or
      flushed since, and it names the store's document after the prefix. */
  lemma IDIsStable(prefix: string, sid: string, dur: int, data: Attrs, key: Value, val: Value)
    ensures var s := NewStore(prefix, sid, dur, data);
      && ID(s) == sid
      && ID(Set(s, key, val)) == sid && ID(Delete(s, key)) == sid && ID(Flush(s)) == sid
      && DocId(s) == prefix + ID(s)
  {
  }

  /** Deleting a key that was just set reads as nil, even though it was present before. */
  lemma GetAfterSetThenDelete(s: Store, key: Value, val: Value)
    ensures Get(Set(s, key, val), key) == val
    ensures Get(Delete(Set(s, key, val), key), key) == Nil
    ensures Delete(Delete(s, key), key) == Delete(s, key)
  {
  }

  // ---------------------------------------------------------------------------------------
  // `time.ParseDuration(fmt.Sprintf("%ds", maxlifetime))`, as both providers' `Init` use it.

  const NanosPerSecond: int := 1_000_000_000
  const MaxInt64: int := 0x7fff_ffff_ffff_ffff

  /** The largest whole-second count whose nanosecond value `time.ParseDuration` accepts. */
  const MaxDurationSeconds: int := 9_223_372_036

  /** Seconds to a `time.Duration` in nanoseconds: Go rejects any value whose nanosecond
      count leaves the int64 range. */
  function ParseLifetime(seconds: int): (r: Result<int>)
    ensures r.Ok? <==> -MaxDurationSeconds <= seconds <= MaxDurationSeconds
    ensures r.Ok? ==> r.value == seconds * NanosPerSecond && -MaxInt64 <= r.value <= MaxInt64
  {
    if seconds > MaxDurationSeconds || seconds < -MaxDurationSeconds then
      Err("time: invalid duration")
    else
      Ok(seconds * NanosPerSecond)
  }

  /** The boundary is exact: one more second would overflow int64 nanoseconds. */
  lemma ParseLifetimeBoundIsTight()
    ensures MaxDurationSeconds * NanosPerSecond <= MaxInt64
    ensures (MaxDurationSeconds + 1) * NanosPerSecond > MaxInt64
  {
  }

  // ---------------------------------------------------------------------------------------
  // `Count`: a full scan of the collection, -1 as soon as the scan reports an error.

  /** One step of a document iterator: a document (by its key) or an error. */
  datatype ScanItem = Next(id: string) | ScanError

  /** The scan lists every document of the collection exactly once and reports no error. */
  ghost predicate EnumeratesOnce(scan: seq<ScanItem>, keys: set<string>) {
    && (forall i :: 0 <= i < |scan| ==> scan[i].Next? && scan[i].id in keys)
    && (forall i, j :: 0 <= i < j < |scan| ==> scan[i].id != scan[j].id)
    && (forall k :: k in keys ==> exists i :: 0 <= i < |scan| && scan[i] == Next(k))
  }

  method Count(scan: seq<ScanItem>, ghost keys: set<string>) returns (n: int)
    ensures (exists i :: 0 <= i < |scan| && scan[i].ScanError?) ==> n == -1
    ensures (forall i :: 0 <= i < |scan| ==> scan[i].Next?) ==> n == |scan|
    ensures EnumeratesOnce(scan, keys) ==> n == |keys|
  {
    n := 0;
    var i := 0;
    while i < |scan|
      invariant 0 <= i <= |scan|
      invariant n == i
      invariant forall j :: 0 <= j < i ==> scan[j].Next?
    {
      if scan[i].ScanError? {
        return -1;
      }
      n := n + 1;
      i := i + 1;
    }
    if EnumeratesOnce(scan, keys) {
      EnumerationSize(scan, keys);
    }
  }

  /** A scan that lists each key exactly once is as long as the key set is large. */
  lemma {:induction false} EnumerationSize(scan: seq<ScanItem>, keys: set<string>)
    requires EnumeratesOnce(scan, keys)
    ensures |scan| == |keys|
    decreases |scan|
  {
    if |scan| == 0 {
      assert keys == {};
    } else {
      var last := scan[|scan| - 1];
      var init := scan[..|scan| - 1];
      var rest := keys - {last.id};
      assert EnumeratesOnce(init, rest) by {
        forall k | k in rest ensures exists i :: 0 <= i < |init| && init[i] == Next(k) {
          var i :| 0 <= i < |scan| && scan[i] == Next(k);
          assert i != |scan| - 1;
          assert init[i] == Next(k);
        }
        forall i | 0 <= i < |init| ensures init[i].Next? && init[i].id in rest {
          assert init[i].id != last.id;
        }
      }
      EnumerationSize(init, rest);
    }
  }
}
