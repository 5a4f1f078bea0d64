/**
 * The reconciliation engine of `scripts/sync.py` as functions of the world:
 * the server's state and the log of requests sent to it. Each step gives the
 * world afterwards and its outcome, where an exception the source raises
 * becomes an `Err` that stops all further steps. The steps are stated for any
 * server behaviour `serve`; the `Importer` class in importer.dfy runs the same
 * protocol imperatively and is proved equal to these functions.
 */
module Reconcile {
  import opened PyJson
  import opened Rest
  import opened Paths
  import opened Local
  import opened GeoServer

  /** The `[sync]` settings the engine reads (credentials are not modelled). */
  datatype Config = Config(host: string, port: string, workspace: string, dir: string, pattern: string)

  /** The workspace the settings name, on the server they name. */
  function BaseOf(cfg: Config): Base
  {
    Base(cfg.host, cfg.port, cfg.workspace)
  }

  /** Why a run stops. */
  datatype Failure =
    | NoFilesOrPattern                                  // neither files nor a pattern supplied
    | InvalidDirectory(dir: string)                     // `dir` is not a directory
    | UnreadablePackage                                 // the catalog query raised DatabaseError
    | NoLayers(path: string)                            // the catalog has no rows
    | WorkspaceMissing(workspace: string)               // listing the datastores gave 404
    | HttpError(status: int, target: Target)            // `raise_for_status` on the datastore upsert to `Url(target)`
    | UnexpectedStatus(status: int, verb: Verb, target: Target)  // layer upsert to `Url(target)` not answered 200 or 201
    | Uncaught(exc: Exc)                                // a listing exception the except clause lets through

  datatype Result<T> = Ok(value: T) | Err(failure: Failure)

  /**
   * The server together with every request sent to it so far, in order:
   * what the importer's session has done to the world.
   */
  datatype World = World(server: ServerState, sent: seq<Request>)

  /** The world after a step, and the step's outcome. */
  datatype Step<T> = Step(world: World, result: Result<T>)

  /** Sending one request: the server answers it, and it joins the log. */
  function Exchange(serve: Server, w: World, req: Request): (World, Response)
  {
    var (s, resp) := serve(w.server, req);
    (World(s, w.sent + [req]), resp)
  }

  /** What a successful `sync_file` reports: whether the datastore and each layer already existed. */
  datatype Report = Report(storeExisted: bool, layersExisted: seq<bool>)

  /**
   * The datastore names a listing response yields:
   * `[s["name"] for s in r.json()["dataStores"]["dataStore"]]`, with
   * AttributeError and TypeError read as "no stores".
   */
  function ListedStores(body: Body): Py<seq<Json>>
  {
    match body
    case Text => Raise(DecodeError)
    case Doc(j) =>
      Catch(
        match Subscript(j, "dataStores")
        case Raise(e) => Raise(e)
        case Value(v) =>
          match Subscript(v, "dataStore")
          case Raise(e) => Raise(e)
          case Value(w) => Names(w),
        {AttributeError, TypeError})
  }

  /**
   * The feature type names a listing response yields:
   * `[d["name"] for d in r.json().get("featureTypes", {}).get("featureType", [])]`,
   * with AttributeError read as "no layers".
   */
  function ListedLayers(body: Body): Py<seq<Json>>
  {
    match body
    case Text => Raise(DecodeError)
    case Doc(j) =>
      Catch(
        match GetOr(j, "featureTypes", JObj(map[]))
        case Raise(e) => Raise(e)
        case Value(v) =>
          match GetOr(v, "featureType", JArr([]))
          case Raise(e) => Raise(e)
          case Value(w) => Names(w),
        {AttributeError})
  }

  /** The datastore body: enabled, pointing at the package by `file://` URL, of type `geopkg`. */
  function StorePayloadFor(id: string, absPath: string): StorePayload
  {
    StorePayload(id, true, [Entry("database", "file://" + absPath), Entry("dbtype", "geopkg")])
  }

  /** The feature type body built from one catalog row. */
  function LayerPayloadFor(cfg: Config, row: Row): LayerPayload
  {
    LayerPayload(
      row.identifier, row.identifier,
      Namespace(cfg.workspace, BaseOf(cfg)),
      row.title, row.description, [row.dtype])
  }

  function ListStores(base: Base): Request
  {
    Request(GET, Target(base, Datastores), NoPayload)
  }

  function ListLayers(base: Base, store: string): Request
  {
    Request(GET, Target(base, FeatureTypes(store)), NoPayload)
  }

  /** PUT to the datastore's own URL when it is listed, else POST to the collection. */
  function UpsertStore(base: Base, id: string, p: StorePayload, listed: bool): Request
  {
    if listed then Request(PUT, Target(base, Datastore(id)), StoreDoc(p))
    else Request(POST, Target(base, Datastores), StoreDoc(p))
  }

  /** PUT to the feature type's own URL when it is listed, else POST to the collection. */
  function UpsertLayer(base: Base, store: string, id: string, p: LayerPayload, listed: bool): Request
  {
    if listed then Request(PUT, Target(base, FeatureType(store, id)), LayerDoc(p))
    else Request(POST, Target(base, FeatureTypes(store)), LayerDoc(p))
  }

  /** `requests.Response.raise_for_status`: client and server errors. */
  predicate RaisesForStatus(status: int)
  {
    400 <= status < 600
  }

  /** The layer upsert accepts exactly `HTTPStatus.OK` and `HTTPStatus.CREATED`. */
  predicate Accepted(status: int)
  {
    status == OK || status == CREATED
  }

  /** `create_or_update_datastore(path)`: the identifier and whether it was already listed. */
  function DatastoreStep(serve: Server, cfg: Config, cwd: string, w: World, path: string): Step<(string, bool)>
  {
    var (w1, resp) := Exchange(serve, w, ListStores(BaseOf(cfg)));
    StoreListed(serve, cfg, cwd, w1, resp, path)
  }

  /** The datastore step once the listing request has been answered with `resp`. */
  function StoreListed(serve: Server, cfg: Config, cwd: string, w: World, resp: Response, path: string): Step<(string, bool)>
  {
    if resp.status == NOT_FOUND then Step(w, Err(WorkspaceMissing(cfg.workspace)))
    else
      match ListedStores(resp.body)
      case Raise(e) => Step(w, Err(Uncaught(e)))
      case Value(names) => StoreUpserted(serve, cfg, cwd, w, path, JStr(Identifier(path)) in names)
  }

  /** The datastore upsert and its status check. */
  function StoreUpserted(serve: Server, cfg: Config, cwd: string, w: World, path: string, listed: bool): Step<(string, bool)>
  {
    var id := Identifier(path);
    var up := UpsertStore(BaseOf(cfg), id, StorePayloadFor(id, AbsPath(cwd, path)), listed);
    var (w1, resp) := Exchange(serve, w, up);
    Step(w1, if RaisesForStatus(resp.status) then Err(HttpError(resp.status, up.target)) else Ok((id, listed)))
  }

  /** `create_or_update_layer(store, row)`: whether the layer was already listed. */
  function LayerStep(serve: Server, cfg: Config, w: World, store: string, row: Row): Step<bool>
  {
    var (w1, r1) := Exchange(serve, w, ListLayers(BaseOf(cfg), store));
    match ListedLayers(r1.body)
    case Raise(e) => Step(w1, Err(Uncaught(e)))
    case Value(names) =>
      var listed := JStr(row.identifier) in names;
      var up := UpsertLayer(BaseOf(cfg), store, row.identifier, LayerPayloadFor(cfg, row), listed);
      var (w2, r2) := Exchange(serve, w1, up);
      Step(w2, if Accepted(r2.status) then Ok(listed) else Err(UnexpectedStatus(r2.status, up.verb, up.target)))
  }

  /**
   * The layer loop of `sync_file` over the rows not yet visited, `done`
   * holding the flags of those already upserted: each row in catalog order,
   * stopping at the first failure.
   */
  function LayersStep(serve: Server, cfg: Config, w: World, store: string, rows: seq<Row>, done: seq<bool>): Step<seq<bool>>
    decreases rows
  {
    if rows == [] then Step(w, Ok(done))
    else
      var first := LayerStep(serve, cfg, w, store, rows[0]);
      match first.result
      case Err(f) => Step(first.world, Err(f))
      case Ok(listed) => LayersStep(serve, cfg, first.world, store, rows[1..], done + [listed])
  }

  /** The catalog read of `sync_file`: all rows, or `ImportException` on DatabaseError. */
  function CatalogRows(cat: Catalog): Result<seq<Row>>
  {
    if cat.failed then Err(UnreadablePackage) else Ok(cat.rows)
  }

  /** `sync_file(path)` */
  function SyncFileStep(serve: Server, cfg: Config, disk: Disk, w: World, path: string): Step<Report>
  {
    match CatalogRows(disk.Read(path))
    case Err(f) => Step(w, Err(f))
    case Ok(rows) =>
      if rows == [] then Step(w, Err(NoLayers(path)))
      else
        var ds := DatastoreStep(serve, cfg, disk.cwd, w, path);
        match ds.result
        case Err(f) => Step(ds.world, Err(f))
        case Ok((store, listed)) => Reported(listed, LayersStep(serve, cfg, ds.world, store, rows, []))
  }

  /** The report of a file whose datastore was `listed`, once its layer loop has run. */
  function Reported(listed: bool, layers: Step<seq<bool>>): Step<Report>
  {
    Step(layers.world,
         match layers.result
         case Ok(flags) => Ok(Report(listed, flags))
         case Err(f) => Err(f))
  }

  /**
   * The file loop of `sync` over the files not yet visited, `done` holding
   * the reports of those already synced: the first failure ends the run.
   */
  function SyncFiles(serve: Server, cfg: Config, disk: Disk, w: World, files: seq<string>, done: seq<Report>): Step<seq<Report>>
    decreases files
  {
    if files == [] then Step(w, Ok(done))
    else
      var first := SyncFileStep(serve, cfg, disk, w, files[0]);
      match first.result
      case Err(f) => Step(first.world, Err(f))
      case Ok(rep) => SyncFiles(serve, cfg, disk, first.world, files[1..], done + [rep])
  }

  /** The paths the `os.walk` / `glob.glob` loop collects over directories `dirs`. */
  function Discovered(disk: Disk, dirs: seq<string>, pattern: string): seq<string>
  {
    if dirs == [] then []
    else Discovered(disk, dirs[..|dirs| - 1], pattern) + disk.Glob(Join(dirs[|dirs| - 1], pattern))
  }

  /** A whole `sync()` run: the importer's file list afterwards, and the run itself. */
  datatype SyncRun = SyncRun(files: seq<string>, step: Step<seq<Report>>)

  /** `sync()` on the importer's file list `files`. */
  function SyncStep(serve: Server, cfg: Config, disk: Disk, files: seq<string>, w: World): SyncRun
  {
    if cfg.pattern == "" && files == [] then SyncRun(files, Step(w, Err(NoFilesOrPattern)))
    else if !disk.IsDir(cfg.dir) then SyncRun(files, Step(w, Err(InvalidDirectory(cfg.dir))))
    else
      var todo := if files != [] then files
                  else Discovered(disk, disk.Walk(AbsPath(disk.cwd, cfg.dir)), cfg.pattern);
      SyncRun(todo, SyncFiles(serve, cfg, disk, w, todo, []))
  }
}
