/** The document-store session provider of webstd/chistd: session records in a
    document collection keyed by `prefix + sid`, with three expiry fields so that
    CosmosDB, MongoDB/Firestore and DynamoDB can each expire them.

    The collection is a map from document key to document. A `Get` of a missing key
    fails, `Create` of a present key fails, `Put` upserts and `Delete` of a missing key
    succeeds. Times are integer nanoseconds since the Unix epoch and durations integer
    nanoseconds; the current time is a parameter. */
module WebstdSession {
  import opened Wrappers
  import Urls
  import opened SessionStore
  import Docstorextd
  import MongoOpener

  const SessionDocumentPKeyField: string := "ID"

  /** `sessionDocument` (the docstore revision field is left out). */
  datatype Document = Document(
    id: string,
    serializedAttributes: string,
    ttlSecondsFromModified: int,
    expiresAt: int,
    expiresAtEpoch: int)

  type Collection = map<string, Document>

  /** Each document sits under its own id. */
  ghost predicate WellKeyed(c: Collection) {
    forall id :: id in c ==> c[id].id == id
  }

  /** `DocStoreProvider`: `prefix` is never assigned by `Init`, so it is whatever the
      provider value held; `duration` is in nanoseconds. */
  datatype Provider = Provider(prefix: string, duration: int)

  /** Go's integer conversion of a float: truncation toward zero. */
  function TruncDiv(a: int, b: int): (q: int)
    requires b > 0
    ensures a >= 0 ==> q == a / b
    ensures a < 0 ==> q == -((-a) / b)
  {
    if a >= 0 then a / b else -((-a) / b)
  }

  /** `time.Time.Unix`: whole seconds, rounded toward negative infinity. */
  function UnixSeconds(nanos: int): (sec: int)
    ensures sec * NanosPerSecond <= nanos < (sec + 1) * NanosPerSecond
  {
    nanos / NanosPerSecond
  }

  /** `SessionDocumentStore.Release`: nothing is written for an empty session; otherwise the
      encoded attributes go to the session's document. A new document gets its expiry from
      the store's duration; an existing one keeps its expiry and gets a TTL equal to the
      whole seconds remaining until it. */
  function Release(s: Store, coll: Collection, now: int, gob: Gob): (r: Result<Collection>)
    ensures |s.data| == 0 ==> r == Ok(coll)
    ensures |s.data| > 0 ==> (r.Ok? <==> gob.encode(s.data).Ok?)
    ensures r.Ok? ==> forall id :: id != DocId(s) ==> (id in r.value <==> id in coll)
    ensures r.Ok? ==> forall id :: id in coll && id != DocId(s) ==> r.value[id] == coll[id]
    ensures r.Ok? && |s.data| > 0 ==>
      && DocId(s) in r.value
      && r.value[DocId(s)].id == DocId(s)
      && r.value[DocId(s)].serializedAttributes == gob.encode(s.data).value
    ensures r.Ok? && |s.data| > 0 && DocId(s) !in coll ==>
      var d := r.value[DocId(s)];
      && d.ttlSecondsFromModified == TruncDiv(s.duration, NanosPerSecond)
      && d.expiresAt == now + s.duration
      && d.expiresAtEpoch == UnixSeconds(d.expiresAt)
    ensures r.Ok? && |s.data| > 0 && DocId(s) in coll ==>
      var d := r.value[DocId(s)];
      && d.expiresAt == coll[DocId(s)].expiresAt
      && d.expiresAtEpoch == coll[DocId(s)].expiresAtEpoch
      && d.ttlSecondsFromModified == TruncDiv(coll[DocId(s)].expiresAt - now, NanosPerSecond)
  {
    if |s.data| == 0 then Ok(coll)
    else
      match gob.encode(s.data)
      case Err(e) => Err(e)
      case Ok(data) =>
        var id := DocId(s);
        if id in coll then
          var prev := coll[id];
          var newTTL := TruncDiv(prev.expiresAt - now, NanosPerSecond);
          Ok(coll[id := prev.(id := id, serializedAttributes := data, ttlSecondsFromModified := newTTL)])
        else
          var expiresAt := now + s.duration;
          Ok(coll[id := Document(id, data, TruncDiv(s.duration, NanosPerSecond), expiresAt, UnixSeconds(expiresAt))])
  }

  /** `Exist`: a keyed lookup of the prefixed id succeeds. */
  predicate Exist(p: Provider, coll: Collection, sid: string) {
    p.prefix + sid in coll
  }

  /** `Read`: the decoded attributes of the stored session, or an empty store when there is
      no document; the store's duration is zero because the constructor drops it. */
  function Read(p: Provider, coll: Collection, sid: string, gob: Gob): (r: Result<Store>)
    ensures !Exist(p, coll, sid) ==> r == Ok(Store(p.prefix, sid, 0, map[]))
    ensures Exist(p, coll, sid) ==>
      (r.Ok? <==> gob.decode(coll[p.prefix + sid].serializedAttributes).Ok?)
    ensures r.Ok? && Exist(p, coll, sid) ==>
      r.value.data == gob.decode(coll[p.prefix + sid].serializedAttributes).value
    ensures r.Ok? ==> r.value.prefix == p.prefix && r.value.sid == sid && r.value.duration == 0
  {
    if Exist(p, coll, sid) then
      match gob.decode(coll[p.prefix + sid].serializedAttributes)
      case Err(e) => Err(e)
      case Ok(attrs) => Ok(NewStore(p.prefix, sid, p.duration, attrs))
    else
      Ok(NewStore(p.prefix, sid, p.duration, map[]))
  }

  /** `Destroy`: the session's document is gone and no other document changes. */
  function Destroy(p: Provider, coll: Collection, sid: string): (r: Collection)
    ensures p.prefix + sid !in r
    ensures forall id :: id != p.prefix + sid ==> (id in r <==> id in coll)
    ensures forall id :: id in r ==> r[id] == coll[id]
  {
    coll - {p.prefix + sid}
  }

  /** `Exist` sees a session once a non-empty store for it has been released, and stops
      seeing it once it is destroyed; destroying one session leaves every other as it was. */
  lemma ExistTracksReleaseAndDestroy(p: Provider, s: Store, coll: Collection, now: int, gob: Gob, sid: string, other: string)
    requires s.prefix == p.prefix && other != sid
    ensures |s.data| > 0 && Release(s, coll, now, gob).Ok? ==> Exist(p, Release(s, coll, now, gob).value, ID(s))
    ensures !Exist(p, Destroy(p, coll, sid), sid)
    ensures Exist(p, Destroy(p, coll, sid), other) <==> Exist(p, coll, other)
  {
    assert (p.prefix + other)[|p.prefix|..] == other && (p.prefix + sid)[|p.prefix|..] == sid;
  }

  /** `Regenerate`: refuses a new id that is taken; otherwise moves the old session's
      document (if any) to the new id and reads the session back under the new id. */
  function Regenerate(p: Provider, coll: Collection, oldsid: string, sid: string, gob: Gob)
    : (out: (Collection, Result<Store>))
    ensures Exist(p, coll, sid) ==> out.0 == coll && out.1.Err?
    ensures !Exist(p, coll, sid) && !Exist(p, coll, oldsid) ==> out.0 == coll
    ensures !Exist(p, coll, sid) && Exist(p, coll, oldsid) ==>
      var c := out.0;
      && p.prefix + sid in c
      && c[p.prefix + sid] == coll[p.prefix + oldsid].(id := p.prefix + sid)
      && p.prefix + oldsid !in c
      && (forall id :: id != p.prefix + sid && id != p.prefix + oldsid ==> (id in c <==> id in coll))
      && (forall id :: id in coll && id != p.prefix + sid && id != p.prefix + oldsid ==> c[id] == coll[id])
    ensures !Exist(p, coll, sid) ==> out.1 == Read(p, out.0, sid, gob)
  {
    var poldsid := p.prefix + oldsid;
    var psid := p.prefix + sid;
    if Exist(p, coll, sid) then
      (coll, Err("new sid '" + sid + "' already exists"))
    else if Exist(p, coll, oldsid) then
      var moved := coll[psid := coll[poldsid].(id := psid)];
      var c := moved - {poldsid};
      (c, Read(p, c, sid, gob))
    else
      (coll, Read(p, coll, sid, gob))
  }

  /** The scheme switch of `Init`: the URL it opens and the query values that URL carries.
      Firestore, DynamoDB and MongoDB (under either scheme name) take the primary key from
      a query option; the in-memory backend takes it from the path. */
  function Rewrite(u: Urls.Url, q: Urls.Values, qc: Urls.QueryCodec): (t: (Urls.Url, Urls.Values))
    ensures t.0.rawQuery == qc.encode(t.1)
    ensures t.0.scheme == u.scheme && t.0.host == u.host && t.0.user == u.user
    ensures u.scheme == "firestore" ==> t.1 == Urls.Set(q, "name_field", SessionDocumentPKeyField)
    ensures u.scheme == "dynamodb" ==> t.1 == Urls.Set(q, "partition_key", SessionDocumentPKeyField)
    ensures u.scheme in {"mongo", "mongodb"} ==> t.1 == Urls.Set(q, "id_field", SessionDocumentPKeyField)
    ensures u.scheme == "mem" ==> t.1 == q && t.0.path == "/" + SessionDocumentPKeyField
    ensures u.scheme != "mem" ==> t.0.path == u.path
    ensures u.scheme !in {"firestore", "dynamodb", "mongo", "mongodb"} ==> t.1 == q
  {
    var (path, q') :=
      if u.scheme == "firestore" then (u.path, Urls.Set(q, "name_field", SessionDocumentPKeyField))
      else if u.scheme == "dynamodb" then (u.path, Urls.Set(q, "partition_key", SessionDocumentPKeyField))
      else if u.scheme == "mongo" || u.scheme == "mongodb" then (u.path, Urls.Set(q, "id_field", SessionDocumentPKeyField))
      else if u.scheme == "mem" then ("/" + SessionDocumentPKeyField, q)
      else (u.path, q);
    (u.(path := path, rawQuery := qc.encode(q')), q')
  }

  /** The provider `Init` configures, the URL it opened with its query values, and the
      collection that URL opened (`H`). */
  datatype InitResult<H> = InitResult(provider: Provider, target: Urls.Url, query: Urls.Values, coll: H)

  /** `Init`: parses the lifetime and the collection URL, sets the backend's primary-key
      option to the document's `ID` field, and opens the rewritten URL through the
      custom-opener registry (`reg`, falling back to `fallback`). `render` is `URL.String`. */
  function Init<H>(p: Provider, maxlifetime: int, configs: string,
                   parse: string -> Result<Urls.Url>, qc: Urls.QueryCodec, render: Urls.Url -> string,
                   reg: Docstorextd.Registry<H>, fallback: Docstorextd.Opener<H>): (r: Result<InitResult<H>>)
    ensures r.Ok? <==>
      && ParseLifetime(maxlifetime).Ok?
      && parse(configs).Ok?
      && qc.parse(parse(configs).value.rawQuery).Ok?
      && Docstorextd.OpenCollection(
           reg, render(Rewrite(parse(configs).value, qc.parse(parse(configs).value.rawQuery).value, qc).0),
           parse, fallback).Ok?
    ensures r.Ok? ==>
      var u := parse(configs).value;
      && r.value.provider == p.(duration := maxlifetime * NanosPerSecond)
      && (r.value.target, r.value.query) == Rewrite(u, qc.parse(u.rawQuery).value, qc)
      && Docstorextd.OpenCollection(reg, render(r.value.target), parse, fallback) == Ok(r.value.coll)
  {
    match ParseLifetime(maxlifetime)
    case Err(e) => Err(e)
    case Ok(dur) =>
      match parse(configs)
      case Err(e) => Err(e)
      case Ok(u) =>
        match qc.parse(u.rawQuery)
        case Err(e) => Err(e)
        case Ok(q) =>
          var (target, q') := Rewrite(u, q, qc);
          match Docstorextd.OpenCollection(reg, render(target), parse, fallback)
          case Err(e) => Err(e)
          case Ok(coll) => Ok(InitResult(p.(duration := dur), target, q', coll))
  }

  /** With the MongoDB opener registered and `URL.String` parsing back, a `mongodb` URL whose
      path names a database but no collection makes `Init` fail: the opener refuses it. */
  lemma InitRejectsMongoUrlWithoutCollection(p: Provider, maxlifetime: int, configs: string,
                                             parse: string -> Result<Urls.Url>, qc: Urls.QueryCodec,
                                             render: Urls.Url -> string,
                                             reg: Docstorextd.Registry<MongoOpener.Target>,
                                             fallback: Docstorextd.Opener<MongoOpener.Target>, db: string)
    requires forall v :: parse(render(v)) == Ok(v)
    requires parse(configs).Ok? && parse(configs).value.scheme == "mongodb"
    requires parse(configs).value.path == "/" + db && '/' !in db
    ensures Init(p, maxlifetime, configs, parse, qc, render, MongoOpener.Register(reg, parse, qc), fallback).Err?
  {
    var u := parse(configs).value;
    match qc.parse(u.rawQuery)
    case Err(_) =>
    case Ok(q) =>
      var target := Rewrite(u, q, qc).0;
      assert parse(render(target)) == Ok(target);
      MongoOpener.RejectsSingleSegment(render(target), parse, qc, db);
  }

  // ---------------------------------------------------------------------------------------
  // Properties across operations.

  /** Releasing a non-empty session and reading it back yields the same attributes. */
  lemma ReleaseThenRead(p: Provider, s: Store, coll: Collection, now: int, gob: Gob)
    requires GobRoundTrips(gob)
    requires s.prefix == p.prefix && |s.data| > 0
    requires Release(s, coll, now, gob).Ok?
    ensures Read(p, Release(s, coll, now, gob).value, s.sid, gob) == Ok(Store(p.prefix, s.sid, 0, s.data))
  {
    var enc := gob.encode(s.data);
    assert enc.Ok?;
    assert gob.decode(enc.value) == Ok(s.data);
  }

  /** Because every store read from the provider has a zero duration, the first release of a
      session creates a document that is already expired: zero TTL, expiry at `now`. */
  lemma FirstReleaseIsAlreadyExpired(p: Provider, coll: Collection, sid: string, key: Value, val: Value,
                                     now: int, gob: Gob)
    requires !Exist(p, coll, sid)
    requires gob.encode(map[key := val]).Ok?
    ensures Read(p, coll, sid, gob).Ok?
    ensures
      var s := Set(Read(p, coll, sid, gob).value, key, val);
      var r := Release(s, coll, now, gob);
      && r.Ok?
      && r.value[p.prefix + sid].ttlSecondsFromModified == 0
      && r.value[p.prefix + sid].expiresAt == now
  {
    var s := Set(Read(p, coll, sid, gob).value, key, val);
    assert s.data == map[key := val];
  }

  /** Release keeps every document under its own id. */
  lemma ReleaseWellKeyed(s: Store, coll: Collection, now: int, gob: Gob)
    requires WellKeyed(coll)
    requires Release(s, coll, now, gob).Ok?
    ensures WellKeyed(Release(s, coll, now, gob).value)
  {
  }

  /** Regenerate keeps every document under its own id. */
  lemma RegenerateWellKeyed(p: Provider, coll: Collection, oldsid: string, sid: string, gob: Gob)
    requires WellKeyed(coll)
    ensures WellKeyed(Regenerate(p, coll, oldsid, sid, gob).0)
  {
  }

  /** A regenerated session carries the attributes that were stored under the old id. */
  lemma RegenerateKeepsAttributes(p: Provider, coll: Collection, oldsid: string, sid: string, gob: Gob)
    requires !Exist(p, coll, sid) && Exist(p, coll, oldsid)
    requires gob.decode(coll[p.prefix + oldsid].serializedAttributes).Ok?
    ensures
      var r := Regenerate(p, coll, oldsid, sid, gob).1;
      r.Ok? && r.value.sid == sid && r.value.data == gob.decode(coll[p.prefix + oldsid].serializedAttributes).value
  {
  }

  /** The query option each backend reads its primary-key field from, if any. */
  function PrimaryKeyOption(scheme: string): Option<string> {
    match scheme
    case "firestore" => Some("name_field")
    case "dynamodb" => Some("partition_key")
    case "mongo" => Some("id_field")
    case "mongodb" => Some("id_field")
    case _ => None
  }

  /** After `Init`, the URL it opens names `ID` as the primary key for every backend that
      takes the key from the query, or in the path for the in-memory backend; other
      schemes keep their query. */
  lemma InitNamesPrimaryKey<H>(p: Provider, maxlifetime: int, configs: string,
                               parse: string -> Result<Urls.Url>, qc: Urls.QueryCodec, render: Urls.Url -> string,
                               reg: Docstorextd.Registry<H>, fallback: Docstorextd.Opener<H>)
    requires Urls.QueryRoundTrips(qc)
    requires Init(p, maxlifetime, configs, parse, qc, render, reg, fallback).Ok?
    ensures
      var r := Init(p, maxlifetime, configs, parse, qc, render, reg, fallback).value;
      var u := parse(configs).value;
      && qc.parse(r.target.rawQuery) == Ok(r.query)
      && (PrimaryKeyOption(u.scheme).Some? ==> Urls.Get(r.query, PrimaryKeyOption(u.scheme).value) == "ID")
      && (PrimaryKeyOption(u.scheme).None? ==> r.query == qc.parse(u.rawQuery).value)
      && (u.scheme == "mem" ==> r.target.path == "/ID")
  {
  }
}
