/** gocloudxtd/docstore/mongodb: the custom opener registered under the "mongodb" scheme.
    It reads the database and collection names from a URL path of the form `/db/coll`, the
    primary-key field from the `id_field` query parameter, and dials the server named by the
    URL's user and host alone. Dialling and opening the driver collection are outside the
    model: the opener's result is the description of what it would open. */
module MongoOpener {
  import opened Wrappers
  import opened Strs
  import Urls
  import Docstorextd

  const OpenerKey: string := "mongodb"

  datatype Target = Target(server: Urls.Url, database: string, collection: string, idField: string)

  /** `collectionOpener`. */
  function CollectionOpener(urlStr: string, parse: string -> Result<Urls.Url>, qc: Urls.QueryCodec)
    : (r: Result<Target>)
    ensures r.Ok? <==>
      && parse(urlStr).Ok?
      && Count(parse(urlStr).value.path, '/') == 2
      && parse(urlStr).value.path[0] == '/'
      && qc.parse(parse(urlStr).value.rawQuery).Ok?
    ensures parse(urlStr).Ok? && Count(parse(urlStr).value.path, '/') != 2 ==>
      r == Err("unexpected path in collection url: expected 3 elements, contained "
               + Decimal(Count(parse(urlStr).value.path, '/') + 1) + " elements")
    ensures r.Ok? ==>
      var u := parse(urlStr).value;
      && r.value.server == Urls.Url("mongodb", u.user, u.host, "", "")
      && u.path == "/" + r.value.database + "/" + r.value.collection
      && '/' !in r.value.database && '/' !in r.value.collection
      && r.value.idField == Urls.Get(qc.parse(u.rawQuery).value, "id_field")
  {
    match parse(urlStr)
    case Err(e) => Err(e)
    case Ok(u) =>
      var splitPath := Split(u.path, '/');
      SplitCount(u.path, '/');
      SplitHeadEmpty(u.path, '/');
      if |splitPath| != 3 then
        Err("unexpected path in collection url: expected 3 elements, contained "
            + Decimal(|splitPath|) + " elements")
      else if splitPath[0] != "" then
        Err("expected URL path to start with /. This is most likely a bug.")
      else
        match qc.parse(u.rawQuery)
        case Err(e) => Err(e)
        case Ok(qp) =>
          JoinSplit(u.path, '/');
          SplitPartsAreFree(u.path, '/');
          assert JoinWith(splitPath, '/') == splitPath[0] + ['/'] + JoinWith(splitPath[1..], '/');
          assert JoinWith(splitPath[1..], '/') == splitPath[1] + ['/'] + splitPath[2];
          Ok(Target(Urls.Url("mongodb", u.user, u.host, "", ""), splitPath[1], splitPath[2],
                    Urls.Get(qp, "id_field")))
  }

  /** The package's `init`: register `collectionOpener` under "mongodb". */
  function Register(reg: Docstorextd.Registry<Target>, parse: string -> Result<Urls.Url>,
                    qc: Urls.QueryCodec): (r: Docstorextd.Registry<Target>)
    ensures OpenerKey in r
    ensures forall urlStr :: r[OpenerKey](urlStr) == CollectionOpener(urlStr, parse, qc)
  {
    Docstorextd.RegisterCustomOpener(reg, OpenerKey, (urlStr: string) => CollectionOpener(urlStr, parse, qc))
  }

  /** A mongodb URL whose path is `/db/coll`, with slash-free names, opens that database and
      collection through the registered opener, with the server URL stripped of path and query. */
  lemma OpensNamedCollection(reg: Docstorextd.Registry<Target>, urlStr: string,
                             parse: string -> Result<Urls.Url>, qc: Urls.QueryCodec,
                             fallback: Docstorextd.Opener<Target>, db: string, coll: string, q: Urls.Values)
    requires parse(urlStr).Ok? && parse(urlStr).value.scheme == OpenerKey
    requires parse(urlStr).value.path == "/" + db + "/" + coll
    requires '/' !in db && '/' !in coll
    requires qc.parse(parse(urlStr).value.rawQuery) == Ok(q)
    ensures Docstorextd.OpenCollection(Register(reg, parse, qc), urlStr, parse, fallback)
         == Ok(Target(Urls.Url("mongodb", parse(urlStr).value.user, parse(urlStr).value.host, "", ""),
                      db, coll, Urls.Get(q, "id_field")))
  {
    var u := parse(urlStr).value;
    SplitTwoSegments(db, coll);
    SplitCount(u.path, '/');
    assert CollectionOpener(urlStr, parse, qc)
        == Ok(Target(Urls.Url("mongodb", u.user, u.host, "", ""), db, coll, Urls.Get(q, "id_field")));
  }

  /** `/db/coll` splits into "", db and coll. */
  lemma SplitTwoSegments(db: string, coll: string)
    requires '/' !in db && '/' !in coll
    ensures Split("/" + db + "/" + coll, '/') == ["", db, coll]
  {
    SplitFree(db, '/');
    SplitFree(coll, '/');
    SplitConcat("", db + "/" + coll, '/');
    SplitConcat(db, coll, '/');
    assert "/" + db + "/" + coll == "" + ['/'] + (db + ['/'] + coll);
  }

  /** A path naming a database but no collection, such as `/db`, is refused. */
  lemma RejectsSingleSegment(urlStr: string, parse: string -> Result<Urls.Url>, qc: Urls.QueryCodec, db: string)
    requires parse(urlStr).Ok? && parse(urlStr).value.path == "/" + db && '/' !in db
    ensures CollectionOpener(urlStr, parse, qc).Err?
  {
    var path := parse(urlStr).value.path;
    SplitFree(db, '/');
    SplitConcat("", db, '/');
    assert path == "" + ['/'] + db;
    SplitCount(path, '/');
  }

  /** A path with more than two segments, such as `/db/coll/extra`, is refused. */
  lemma RejectsDeepPath(urlStr: string, parse: string -> Result<Urls.Url>, qc: Urls.QueryCodec,
                        db: string, coll: string, extra: string)
    requires parse(urlStr).Ok?
    requires parse(urlStr).value.path == "/" + db + "/" + coll + "/" + extra
    ensures CollectionOpener(urlStr, parse, qc).Err?
  {
    var path := parse(urlStr).value.path;
    SplitCount(path, '/');
    SplitConcat("/" + db + "/" + coll, extra, '/');
    SplitConcat("/" + db, coll, '/');
    SplitConcat("", db, '/');
    assert path == ("/" + db + "/" + coll) + ['/'] + extra;
    assert "/" + db + "/" + coll == ("/" + db) + ['/'] + coll;
    assert "/" + db == "" + ['/'] + db;
    assert |Split(path, '/')| >= 4;
  }
}
