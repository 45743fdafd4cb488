/** The older document-store session provider of webcommons/chistd. Its documents carry
    one TTL field; `Release` overwrites the whole document every time; `Init` knows the
    primary-key option of the "mongo" scheme but not of "mongodb". The collection
    semantics are those of the webstd provider: missing `Get` fails, `Create` of a present
    key fails, `Put` upserts, `Delete` of a missing key succeeds. */
module WebcommonsSession {
  import opened Wrappers
  import Urls
  import opened SessionStore

  const SessionDocumentPKeyField: string := "ID"

  /** `sessionDocument` (the docstore revision field is left out); `ttl` in nanoseconds. */
  datatype Document = Document(id: string, serializedAttributes: string, ttl: int)

  type Collection = map<string, Document>

  ghost predicate WellKeyed(c: Collection) {
    forall id :: id in c ==> c[id].id == id
  }

  datatype Provider = Provider(prefix: string, duration: int)

  /** `Release`: nothing is written for an empty session; otherwise the session's document is
      replaced by a fresh one holding the encoded attributes and the store's duration,
      whether or not a document existed. */
  function Release(s: Store, coll: Collection, gob: Gob): (r: Result<Collection>)
    ensures |s.data| == 0 ==> r == Ok(coll)
    ensures |s.data| > 0 ==> (r.Ok? <==> gob.encode(s.data).Ok?)
    ensures r.Ok? && |s.data| > 0 ==>
      && DocId(s) in r.value
      && r.value[DocId(s)] == Document(DocId(s), gob.encode(s.data).value, s.duration)
    ensures r.Ok? ==> forall id :: id != DocId(s) ==> (id in r.value <==> id in coll)
    ensures r.Ok? ==> forall id :: id in coll && id != DocId(s) ==> r.value[id] == coll[id]
  {
    if |s.data| == 0 then Ok(coll)
    else
      match gob.encode(s.data)
      case Err(e) => Err(e)
      case Ok(data) => Ok(coll[DocId(s) := Document(DocId(s), data, s.duration)])
  }

  predicate Exist(p: Provider, coll: Collection, sid: string) {
    p.prefix + sid in coll
  }

  /** `Read`: the decoded attributes of the stored session, or an empty store. */
  function Read(p: Provider, coll: Collection, sid: string, gob: Gob): (r: Result<Store>)
    ensures !Exist(p, coll, sid) ==> r == Ok(Store(p.prefix, sid, 0, map[]))
    ensures Exist(p, coll, sid) ==>
      (r.Ok? <==> gob.decode(coll[p.prefix + sid].serializedAttributes).Ok?)
    ensures r.Ok? && Exist(p, coll, sid) ==>
      r.value.data == gob.decode(coll[p.prefix + sid].serializedAttributes).value
    ensures r.Ok? ==> r.value.prefix == p.prefix && r.value.sid == sid && r.value.duration == 0
  {
    if Exist(p, coll, sid) then
      match gob.decode(coll[p.prefix + sid].serializedAttributes)
      case Err(e) => Err(e)
      case Ok(attrs) => Ok(NewStore(p.prefix, sid, p.duration, attrs))
    else
      Ok(NewStore(p.prefix, sid, p.duration, map[]))
  }

  /** `Destroy`. */
  function Destroy(p: Provider, coll: Collection, sid: string): (r: Collection)
    ensures p.prefix + sid !in r
    ensures forall id :: id != p.prefix + sid ==> (id in r <==> id in coll)
    ensures forall id :: id in r ==> r[id] == coll[id]
  {
    coll - {p.prefix + sid}
  }

  /** `Exist` sees a session once a non-empty store for it has been released, and stops
      seeing it once it is destroyed; destroying one session leaves every other as it was. */
  lemma ExistTracksReleaseAndDestroy(p: Provider, s: Store, coll: Collection, gob: Gob, sid: string, other: string)
    requires s.prefix == p.prefix && other != sid
    ensures |s.data| > 0 && Release(s, coll, gob).Ok? ==> Exist(p, Release(s, coll, gob).value, ID(s))
    ensures !Exist(p, Destroy(p, coll, sid), sid)
    ensures Exist(p, Destroy(p, coll, sid), other) <==> Exist(p, coll, other)
  {
    assert (p.prefix + other)[|p.prefix|..] == other && (p.prefix + sid)[|p.prefix|..] == sid;
  }

  /** `Regenerate`: error if the new id is taken, otherwise copy the old record (if any) to the
      new id, delete the old one, and read the session under the new id. */
  function Regenerate(p: Provider, coll: Collection, oldsid: string, sid: string, gob: Gob)
    : (out: (Collection, Result<Store>))
    ensures Exist(p, coll, sid) ==> out.0 == coll && out.1.Err?
    ensures !Exist(p, coll, sid) && !Exist(p, coll, oldsid) ==> out.0 == coll
    ensures !Exist(p, coll, sid) && Exist(p, coll, oldsid) ==>
      var c := out.0;
      && p.prefix + sid in c
      && c[p.prefix + sid] == coll[p.prefix + oldsid].(id := p.prefix + sid)
      && p.prefix + oldsid !in c
      && (forall id :: id != p.prefix + sid && id != p.prefix + oldsid ==> (id in c <==> id in coll))
      && (forall id :: id in coll && id != p.prefix + sid && id != p.prefix + oldsid ==> c[id] == coll[id])
    ensures !Exist(p, coll, sid) ==> out.1 == Read(p, out.0, sid, gob)
  {
    var poldsid := p.prefix + oldsid;
    var psid := p.prefix + sid;
    if Exist(p, coll, sid) then
      (coll, Err("new sid '" + sid + "' already exists"))
    else if Exist(p, coll, oldsid) then
      var c := coll[psid := coll[poldsid].(id := psid)] - {poldsid};
      (c, Read(p, c, sid, gob))
    else
      (coll, Read(p, coll, sid, gob))
  }

  /** The scheme switch of `Init`: like the webstd provider's, except that only the "mongo"
      scheme gets `id_field`. */
  function Rewrite(u: Urls.Url, q: Urls.Values, qc: Urls.QueryCodec): (t: (Urls.Url, Urls.Values))
    ensures t.0.rawQuery == qc.encode(t.1)
    ensures t.0.scheme == u.scheme && t.0.host == u.host && t.0.user == u.user
    ensures u.scheme == "firestore" ==> t.1 == Urls.Set(q, "name_field", SessionDocumentPKeyField)
    ensures u.scheme == "dynamodb" ==> t.1 == Urls.Set(q, "partition_key", SessionDocumentPKeyField)
    ensures u.scheme == "mongo" ==> t.1 == Urls.Set(q, "id_field", SessionDocumentPKeyField)
    ensures u.scheme == "mem" ==> t.1 == q && t.0.path == "/" + SessionDocumentPKeyField
    ensures u.scheme != "mem" ==> t.0.path == u.path
    ensures u.scheme !in {"firestore", "dynamodb", "mongo"} ==> t.1 == q
  {
    var (path, q') :=
      if u.scheme == "firestore" then (u.path, Urls.Set(q, "name_field", SessionDocumentPKeyField))
      else if u.scheme == "dynamodb" then (u.path, Urls.Set(q, "partition_key", SessionDocumentPKeyField))
      else if u.scheme == "mongo" then (u.path, Urls.Set(q, "id_field", SessionDocumentPKeyField))
      else if u.scheme == "mem" then ("/" + SessionDocumentPKeyField, q)
      else (u.path, q);
    (u.(path := path, rawQuery := qc.encode(q')), q')
  }

  datatype InitResult<H> = InitResult(provider: Provider, target: Urls.Url, query: Urls.Values, coll: H)

  /** `Init`: parses the lifetime and the collection URL, rewrites the URL, and opens it with
      gocloud's `docstore.OpenCollection` (`open`; this provider does not consult the
      custom-opener registry). `render` is `URL.String`. */
  function Init<H>(p: Provider, maxlifetime: int, configs: string,
                   parse: string -> Result<Urls.Url>, qc: Urls.QueryCodec, render: Urls.Url -> string,
                   open: string -> Result<H>): (r: Result<InitResult<H>>)
    ensures r.Ok? <==>
      && ParseLifetime(maxlifetime).Ok?
      && parse(configs).Ok?
      && qc.parse(parse(configs).value.rawQuery).Ok?
      && open(render(Rewrite(parse(configs).value, qc.parse(parse(configs).value.rawQuery).value, qc).0)).Ok?
    ensures r.Ok? ==>
      var u := parse(configs).value;
      && r.value.provider == p.(duration := maxlifetime * NanosPerSecond)
      && (r.value.target, r.value.query) == Rewrite(u, qc.parse(u.rawQuery).value, qc)
      && open(render(r.value.target)) == Ok(r.value.coll)
  {
    match ParseLifetime(maxlifetime)
    case Err(e) => Err(e)
    case Ok(dur) =>
      match parse(configs)
      case Err(e) => Err(e)
      case Ok(u) =>
        match qc.parse(u.rawQuery)
        case Err(e) => Err(e)
        case Ok(q) =>
          var (target, q') := Rewrite(u, q, qc);
          match open(render(target))
          case Err(e) => Err(e)
          case Ok(coll) => Ok(InitResult(p.(duration := dur), target, q', coll))
  }

  // ---------------------------------------------------------------------------------------

  /** Releasing a non-empty session and reading it back yields the same attributes, and the
      stored TTL is zero because the store's duration is always zero. */
  lemma ReleaseThenRead(p: Provider, s: Store, coll: Collection, gob: Gob)
    requires GobRoundTrips(gob)
    requires s.prefix == p.prefix && |s.data| > 0
    requires Release(s, coll, gob).Ok?
    ensures Read(p, Release(s, coll, gob).value, s.sid, gob) == Ok(Store(p.prefix, s.sid, 0, s.data))
  {
    var enc := gob.encode(s.data);
    assert gob.decode(enc.value) == Ok(s.data);
  }

  /** A release after a read always stores a zero TTL: `Read` builds its store with the
      constructor that drops the provider's duration. */
  lemma ReleaseAfterReadStoresZeroTTL(p: Provider, coll: Collection, sid: string, s: Store, gob: Gob)
    requires Read(p, coll, sid, gob) == Ok(s)
    requires |s.data| > 0 && gob.encode(s.data).Ok?
    ensures Release(s, coll, gob).Ok?
    ensures Release(s, coll, gob).value[p.prefix + sid].ttl == 0
  {
  }

  /** A "mongodb" URL keeps its query as parsed: this provider names no primary key for it,
      unlike the webstd provider. */
  lemma InitLeavesMongodbSchemeAlone<H>(p: Provider, maxlifetime: int, configs: string,
                                        parse: string -> Result<Urls.Url>, qc: Urls.QueryCodec,
                                        render: Urls.Url -> string, open: string -> Result<H>)
    requires Init(p, maxlifetime, configs, parse, qc, render, open).Ok?
    requires parse(configs).value.scheme == "mongodb"
    ensures Init(p, maxlifetime, configs, parse, qc, render, open).value.query
         == qc.parse(parse(configs).value.rawQuery).value
  {
  }

  lemma RegenerateWellKeyed(p: Provider, coll: Collection, oldsid: string, sid: string, gob: Gob)
    requires WellKeyed(coll)
    ensures WellKeyed(Regenerate(p, coll, oldsid, sid, gob).0)
  {
  }
}
