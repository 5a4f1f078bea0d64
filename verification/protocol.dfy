/**
 * What the importer sends and decides, whatever the server answers: the
 * create-or-update rule of each step, the exact payloads, the order of the
 * requests of a whole file, which failures stop the run before any request,
 * and that the first failure ends the run.
 */
module Protocol {
  import opened PyJson
  import opened Rest
  import opened Paths
  import opened Local
  import opened GeoServer
  import opened Reconcile

  /**
   * A 404 on the datastore listing stops the datastore step after that one
   * GET: nothing is created or updated.
   */
  lemma WorkspaceMissingStopsBeforeWrites(serve: Server, cfg: Config, cwd: string, w: World, path: string)
    requires serve(w.server, Request(GET, Target(BaseOf(cfg), Datastores), NoPayload)).1.status == NOT_FOUND
    ensures var list := Request(GET, Target(BaseOf(cfg), Datastores), NoPayload);
            DatastoreStep(serve, cfg, cwd, w, path) ==
              Step(World(serve(w.server, list).0, w.sent + [list]), Err(WorkspaceMissing(cfg.workspace)))
  {
  }

  /**
   * After a listing the importer can read, the datastore step sends exactly
   * one more request: a PUT to `{base}/datastores/{id}` when `id` is among
   * the listed names, else a POST to `{base}/datastores`, carrying the
   * datastore named `id`, enabled, whose database is the package's absolute
   * path as a `file://` URL and whose type is `geopkg`. It fails exactly when
   * the answer is a client or server error, and otherwise returns `id` and
   * whether it was listed.
   */
  lemma DatastoreUpsertRule(serve: Server, cfg: Config, cwd: string, w: World, path: string)
    requires var answer := serve(w.server, Request(GET, Target(BaseOf(cfg), Datastores), NoPayload)).1;
             answer.status != NOT_FOUND && ListedStores(answer.body).Value?
    ensures var list := Request(GET, Target(BaseOf(cfg), Datastores), NoPayload);
            var (s1, answer) := serve(w.server, list);
            var id := Identifier(path);
            var listed := JStr(id) in ListedStores(answer.body).v;
            var out := DatastoreStep(serve, cfg, cwd, w, path);
            var up := out.world.sent[|out.world.sent| - 1];
            var status := serve(s1, up).1.status;
            && out.world == World(serve(s1, up).0, w.sent + [list, up])
            && (up.verb == PUT <==> listed)
            && (up.verb == POST <==> !listed)
            && up.target == (if listed then Target(BaseOf(cfg), Datastore(id)) else Target(BaseOf(cfg), Datastores))
            && up.payload == StoreDoc(StorePayload(id, true, [Entry("database", "file://" + AbsPath(cwd, path)), Entry("dbtype", "geopkg")]))
            && (out.result.Ok? <==> !(400 <= status < 600))
            && (out.result.Ok? ==> out.result.value == (id, listed))
            && (out.result.Err? ==> out.result.failure == HttpError(status, up.target))
  {
  }

  /** A listing the importer cannot read ends the datastore step after the GET, with the exception. */
  lemma DatastoreListingUnreadable(serve: Server, cfg: Config, cwd: string, w: World, path: string)
    requires var answer := serve(w.server, Request(GET, Target(BaseOf(cfg), Datastores), NoPayload)).1;
             answer.status != NOT_FOUND && ListedStores(answer.body).Raise?
    ensures var list := Request(GET, Target(BaseOf(cfg), Datastores), NoPayload);
            var (s1, answer) := serve(w.server, list);
            DatastoreStep(serve, cfg, cwd, w, path) ==
              Step(World(s1, w.sent + [list]), Err(Uncaught(ListedStores(answer.body).exc)))
  {
  }

  /**
   * The layer step re-lists the store's feature types, then sends one
   * upsert: a PUT to `{base}/datastores/{store}/featuretypes/{id}` when the
   * row's identifier is listed, else a POST to the collection, carrying the
   * feature type named (and natively named) after the row, in the configured
   * workspace's namespace, with the row's title, description and data type as
   * its only keyword. Only 200 and 201 are accepted; any other status fails
   * with that status, the verb and the target. It returns whether the row was
   * listed.
   */
  lemma LayerUpsertRule(serve: Server, cfg: Config, w: World, store: string, row: Row)
    requires ListedLayers(serve(w.server, Request(GET, Target(BaseOf(cfg), FeatureTypes(store)), NoPayload)).1.body).Value?
    ensures var list := Request(GET, Target(BaseOf(cfg), FeatureTypes(store)), NoPayload);
            var (s1, answer) := serve(w.server, list);
            var id := row.identifier;
            var listed := JStr(id) in ListedLayers(answer.body).v;
            var out := LayerStep(serve, cfg, w, store, row);
            var up := out.world.sent[|out.world.sent| - 1];
            var status := serve(s1, up).1.status;
            && out.world == World(serve(s1, up).0, w.sent + [list, up])
            && (up.verb == PUT <==> listed)
            && (up.verb == POST <==> !listed)
            && up.target == (if listed then Target(BaseOf(cfg), FeatureType(store, id)) else Target(BaseOf(cfg), FeatureTypes(store)))
            && up.payload.LayerDoc?
            && up.payload.layer.name == id && up.payload.layer.nativeName == id
            && up.payload.layer.namespace.name == cfg.workspace
            && up.payload.layer.namespace.Href() == BaseUrl(BaseOf(cfg)) + ".json"
            && up.payload.layer.title == row.title && up.payload.layer.description == row.description
            && up.payload.layer.keywords == [row.dtype]
            && (out.result.Ok? <==> status == 200 || status == 201)
            && (out.result.Ok? ==> out.result.value == listed)
            && (out.result.Err? ==> out.result.failure == UnexpectedStatus(status, up.verb, up.target))
  {
  }

  /** A feature type listing the importer cannot read ends the layer step after the GET, with the exception. */
  lemma LayerListingUnreadable(serve: Server, cfg: Config, w: World, store: string, row: Row)
    requires ListedLayers(serve(w.server, Request(GET, Target(BaseOf(cfg), FeatureTypes(store)), NoPayload)).1.body).Raise?
    ensures var list := Request(GET, Target(BaseOf(cfg), FeatureTypes(store)), NoPayload);
            var (s1, answer) := serve(w.server, list);
            LayerStep(serve, cfg, w, store, row) == Step(World(s1, w.sent + [list]), Err(Uncaught(ListedLayers(answer.body).exc)))
  {
  }

  /** An unreadable or empty catalog fails `sync_file` before any request is sent. */
  lemma CatalogFailuresSendNothing(serve: Server, cfg: Config, disk: Disk, w: World, path: string)
    ensures disk.Read(path).failed ==> SyncFileStep(serve, cfg, disk, w, path) == Step(w, Err(UnreadablePackage))
    ensures !disk.Read(path).failed && disk.Read(path).rows == [] ==>
              SyncFileStep(serve, cfg, disk, w, path) == Step(w, Err(NoLayers(path)))
  {
  }

  /** The requests of a layer loop that reported `flags`: for each row, a fresh listing and then its upsert. */
  function LayerRequests(cfg: Config, store: string, rows: seq<Row>, flags: seq<bool>): seq<Request>
    requires |flags| == |rows|
  {
    if rows == [] then []
    else
      [ListLayers(BaseOf(cfg), store), UpsertLayer(BaseOf(cfg), store, rows[0].identifier, LayerPayloadFor(cfg, rows[0]), flags[0])]
      + LayerRequests(cfg, store, rows[1..], flags[1..])
  }

  /** The requests of a file that reported `rep`: the datastore's listing and upsert, then its layers in catalog order. */
  function FileRequests(cfg: Config, cwd: string, path: string, rows: seq<Row>, rep: Report): seq<Request>
    requires |rep.layersExisted| == |rows|
  {
    var id := Identifier(path);
    [ListStores(BaseOf(cfg)), UpsertStore(BaseOf(cfg), id, StorePayloadFor(id, AbsPath(cwd, path)), rep.storeExisted)]
    + LayerRequests(cfg, id, rows, rep.layersExisted)
  }

  /** A layer loop that succeeds visits every row, in order, with the requests `LayerRequests` lists. */
  lemma {:induction false} LayersInOrder(serve: Server, cfg: Config, w: World, store: string, rows: seq<Row>, done: seq<bool>)
    ensures var out := LayersStep(serve, cfg, w, store, rows, done);
            out.result.Ok? ==>
              && |out.result.value| == |done| + |rows|
              && out.result.value[..|done|] == done
              && out.world.sent == w.sent + LayerRequests(cfg, store, rows, out.result.value[|done|..])
    decreases rows
  {
    var out := LayersStep(serve, cfg, w, store, rows, done);
    if rows != [] && out.result.Ok? {
      var first := LayerStep(serve, cfg, w, store, rows[0]);
      var listed := first.result.value;
      LayersInOrder(serve, cfg, first.world, store, rows[1..], done + [listed]);
      var flags := out.result.value;
      assert flags[..|done|] == (flags[..|done| + 1])[..|done|];
      assert flags[|done|..][1..] == flags[|done| + 1..];
      assert first.world.sent == w.sent + [ListLayers(BaseOf(cfg), store), UpsertLayer(BaseOf(cfg), store, rows[0].identifier, LayerPayloadFor(cfg, rows[0]), listed)];
    }
  }

  /**
   * A file that syncs successfully reports one flag per catalog row and sends
   * exactly `FileRequests`: the datastore first, then every row in catalog
   * order, each preceded by its own listing.
   */
  lemma SyncFileOrder(serve: Server, cfg: Config, disk: Disk, w: World, path: string)
    ensures var out := SyncFileStep(serve, cfg, disk, w, path);
            out.result.Ok? ==>
              && !disk.Read(path).failed
              && |out.result.value.layersExisted| == |disk.Read(path).rows|
              && out.world.sent == w.sent + FileRequests(cfg, disk.cwd, path, disk.Read(path).rows, out.result.value)
  {
    var out := SyncFileStep(serve, cfg, disk, w, path);
    if out.result.Ok? {
      var rows := disk.Read(path).rows;
      var ds := DatastoreStep(serve, cfg, disk.cwd, w, path);
      var (store, listed) := ds.result.value;
      LayersInOrder(serve, cfg, ds.world, store, rows, []);
      var flags := out.result.value.layersExisted;
      assert flags[0..] == flags;
    }
  }

  /**
   * The first failure ends the run: syncing `a + b` is syncing `a` and, only
   * if that succeeded, going on with `b` from where it left the world.
   */
  lemma {:induction false} FirstFailureEndsRun(serve: Server, cfg: Config, disk: Disk, w: World, a: seq<string>, b: seq<string>, done: seq<Report>)
    ensures SyncFiles(serve, cfg, disk, w, a + b, done) ==
              var first := SyncFiles(serve, cfg, disk, w, a, done);
              if first.result.Err? then first else SyncFiles(serve, cfg, disk, first.world, b, first.result.value)
    decreases a
  {
    if a != [] {
      assert (a + b)[0] == a[0] && (a + b)[1..] == a[1..] + b;
      var one := SyncFileStep(serve, cfg, disk, w, a[0]);
      if one.result.Ok? {
        FirstFailureEndsRun(serve, cfg, disk, one.world, a[1..], b, done + [one.result.value]);
      }
    } else {
      assert a + b == b;
    }
  }

  /** The same holds for the rows of one file: a failing row ends the layer loop. */
  lemma {:induction false} FirstFailureEndsLayers(serve: Server, cfg: Config, w: World, store: string, a: seq<Row>, b: seq<Row>, done: seq<bool>)
    ensures LayersStep(serve, cfg, w, store, a + b, done) ==
              var first := LayersStep(serve, cfg, w, store, a, done);
              if first.result.Err? then first else LayersStep(serve, cfg, first.world, store, b, first.result.value)
    decreases a
  {
    if a != [] {
      assert (a + b)[0] == a[0] && (a + b)[1..] == a[1..] + b;
      var one := LayerStep(serve, cfg, w, store, a[0]);
      if one.result.Ok? {
        FirstFailureEndsLayers(serve, cfg, one.world, store, a[1..], b, done + [one.result.value]);
      }
    } else {
      assert a + b == b;
    }
  }

  /** A run that succeeds gives one report per file, after those already reported. */
  lemma {:induction false} SyncReportsEveryFile(serve: Server, cfg: Config, disk: Disk, w: World, files: seq<string>, done: seq<Report>)
    ensures var out := SyncFiles(serve, cfg, disk, w, files, done);
            out.result.Ok? ==> |out.result.value| == |done| + |files| && out.result.value[..|done|] == done
    decreases files
  {
    if files != [] {
      var one := SyncFileStep(serve, cfg, disk, w, files[0]);
      if one.result.Ok? {
        SyncReportsEveryFile(serve, cfg, disk, one.world, files[1..], done + [one.result.value]);
        var reps := SyncFiles(serve, cfg, disk, w, files, done).result;
        if reps.Ok? {
          assert reps.value[..|done|] == reps.value[..|done| + 1][..|done|];
        }
      }
    }
  }

  /**
   * A run that succeeds reports the files in order: in a run over
   * `a + [path] + b`, the report after those of `a` is what syncing `path`
   * gave, in the world the files of `a` left.
   */
  lemma SyncReportsFileByFile(serve: Server, cfg: Config, disk: Disk, w: World, a: seq<string>, path: string, b: seq<string>, done: seq<Report>)
    ensures var out := SyncFiles(serve, cfg, disk, w, a + [path] + b, done);
            var before := SyncFiles(serve, cfg, disk, w, a, done);
            out.result.Ok? ==>
              && before.result.Ok?
              && |done| + |a| < |out.result.value|
              && SyncFileStep(serve, cfg, disk, before.world, path).result == Ok(out.result.value[|done| + |a|])
  {
    ResumeAfter(serve, cfg, disk, w, a, path, b, done);
    ReportAfter(serve, cfg, disk, w, a, path, b, done);
  }

  /** Once the files of `a` are through, the next report is that of `path`. */
  lemma ReportAfter(serve: Server, cfg: Config, disk: Disk, w: World, a: seq<string>, path: string, b: seq<string>, done: seq<Report>)
    ensures var before := SyncFiles(serve, cfg, disk, w, a, done);
            before.result.Ok? && |before.result.value| == |done| + |a| ==>
              var out := SyncFiles(serve, cfg, disk, before.world, [path] + b, before.result.value);
              out.result.Ok? ==>
                |done| + |a| < |out.result.value| &&
                SyncFileStep(serve, cfg, disk, before.world, path).result == Ok(out.result.value[|done| + |a|])
  {
    var before := SyncFiles(serve, cfg, disk, w, a, done);
    if before.result.Ok? && |before.result.value| == |done| + |a| {
      NextReport(serve, cfg, disk, before.world, [path] + b, path, before.result.value, |done| + |a|);
    }
  }

  /**
   * A run over `a + [path] + b` that succeeds passes through the point after
   * the files of `a`, with one report for each, and carries on from there.
   */
  lemma ResumeAfter(serve: Server, cfg: Config, disk: Disk, w: World, a: seq<string>, path: string, b: seq<string>, done: seq<Report>)
    ensures var out := SyncFiles(serve, cfg, disk, w, a + [path] + b, done);
            var before := SyncFiles(serve, cfg, disk, w, a, done);
            out.result.Ok? ==>
              && before.result.Ok?
              && |before.result.value| == |done| + |a|
              && out == SyncFiles(serve, cfg, disk, before.world, [path] + b, before.result.value)
  {
    assert a + [path] + b == a + ([path] + b);
    FirstFailureEndsRun(serve, cfg, disk, w, a, [path] + b, done);
    SyncReportsEveryFile(serve, cfg, disk, w, a, done);
  }

  /** The first report a run adds is that of its first file. */
  lemma NextReport(serve: Server, cfg: Config, disk: Disk, w: World, files: seq<string>, path: string, done: seq<Report>, i: int)
    requires files != [] && files[0] == path && i == |done|
    ensures var out := SyncFiles(serve, cfg, disk, w, files, done);
            out.result.Ok? ==>
              i < |out.result.value| &&
              SyncFileStep(serve, cfg, disk, w, path).result == Ok(out.result.value[i])
  {
    var one := SyncFileStep(serve, cfg, disk, w, path);
    if one.result.Ok? {
      var reps := done + [one.result.value];
      var out := SyncFiles(serve, cfg, disk, one.world, files[1..], reps);
      SyncReportsEveryFile(serve, cfg, disk, one.world, files[1..], reps);
      if out.result.Ok? {
        assert out.result.value[|done|] == out.result.value[..|reps|][|done|];
      }
    }
  }

  /**
   * The checks of `sync()`: with neither files nor a pattern, or with a
   * directory that is not one (even when files are given), it fails before
   * any request; given files are synced as they are, whatever the pattern;
   * only without files does it collect the pattern's matches, and then it
   * syncs those.
   */
  lemma SyncInputs(serve: Server, cfg: Config, disk: Disk, files: seq<string>, w: World)
    ensures var run := SyncStep(serve, cfg, disk, files, w);
            && (cfg.pattern == "" && files == [] ==> run.files == files && run.step == Step(w, Err(NoFilesOrPattern)))
            && ((cfg.pattern != "" || files != []) && !disk.IsDir(cfg.dir) ==>
                  run.files == files && run.step == Step(w, Err(InvalidDirectory(cfg.dir))))
            && (files != [] && disk.IsDir(cfg.dir) ==>
                  run.files == files && run.step == SyncFiles(serve, cfg, disk, w, files, []))
            && (files == [] && cfg.pattern != "" && disk.IsDir(cfg.dir) ==>
                  run.files == Discovered(disk, disk.Walk(AbsPath(disk.cwd, cfg.dir)), cfg.pattern) &&
                  run.step == SyncFiles(serve, cfg, disk, w, run.files, []))
  {
  }

  /**
   * Whatever the listings said, the requests for the same rows carry the same
   * payloads, position by position.
   */
  lemma {:induction false} LayerRequestsSamePayloads(cfg: Config, store: string, rows: seq<Row>, f1: seq<bool>, f2: seq<bool>)
    requires |f1| == |rows| && |f2| == |rows|
    ensures |LayerRequests(cfg, store, rows, f1)| == 2 * |rows| && |LayerRequests(cfg, store, rows, f2)| == 2 * |rows|
    ensures forall k :: 0 <= k < 2 * |rows| ==>
              LayerRequests(cfg, store, rows, f1)[k].payload == LayerRequests(cfg, store, rows, f2)[k].payload
    decreases rows
  {
    if rows != [] {
      LayerRequestsSamePayloads(cfg, store, rows[1..], f1[1..], f2[1..]);
    }
  }

  /** When every row was listed, the layer loop sends listings and PUTs only. */
  lemma {:induction false} LayerRequestsAllListed(cfg: Config, store: string, rows: seq<Row>, flags: seq<bool>)
    requires |flags| == |rows| && forall k :: 0 <= k < |flags| ==> flags[k]
    ensures forall q | q in LayerRequests(cfg, store, rows, flags) :: q.verb in {GET, PUT}
    decreases rows
  {
    if rows != [] {
      LayerRequestsAllListed(cfg, store, rows[1..], flags[1..]);
    }
  }

  /**
   * The requests of two successful runs of `sync_file` on the same package
   * agree in number and in payloads; a run that found the datastore and
   * every row listed sends listings and PUTs only.
   */
  lemma FileRequestsCompare(cfg: Config, cwd: string, path: string, rows: seq<Row>, rep1: Report, rep2: Report)
    requires |rep1.layersExisted| == |rows| && |rep2.layersExisted| == |rows|
    ensures var once := FileRequests(cfg, cwd, path, rows, rep1);
            var again := FileRequests(cfg, cwd, path, rows, rep2);
            && |again| == |once|
            && (forall k :: 0 <= k < |again| ==> again[k].payload == once[k].payload)
            && (rep2.storeExisted && (forall k :: 0 <= k < |rows| ==> rep2.layersExisted[k]) ==>
                  forall q | q in again :: q.verb in {GET, PUT})
  {
    var id := Identifier(path);
    LayerRequestsSamePayloads(cfg, id, rows, rep1.layersExisted, rep2.layersExisted);
    if rep2.storeExisted && (forall k :: 0 <= k < |rows| ==> rep2.layersExisted[k]) {
      LayerRequestsAllListed(cfg, id, rows, rep2.layersExisted);
    }
  }

  /** `again` sends the same payloads as `once`, in the same order. */
  predicate SamePayloads(once: seq<Request>, again: seq<Request>)
  {
    |again| == |once| && forall k :: 0 <= k < |again| ==> again[k].payload == once[k].payload
  }

  /** `requests` reads and replaces, and creates nothing. */
  predicate UpdatesOnly(requests: seq<Request>)
  {
    forall q | q in requests :: q.verb in {GET, PUT}
  }

  /**
   * Two successful runs of `sync_file` on the same package, one after the
   * other, send as many requests each, with the same payloads in the same
   * order; when the second found everything listed, it sends listings and
   * PUTs only.
   */
  lemma RerunRequests(serve: Server, cfg: Config, disk: Disk, w: World, path: string)
    ensures var first := SyncFileStep(serve, cfg, disk, w, path);
            var second := SyncFileStep(serve, cfg, disk, first.world, path);
            first.result.Ok? && second.result.Ok? ==>
              && w.sent <= first.world.sent && first.world.sent <= second.world.sent
              && var once := first.world.sent[|w.sent|..];
                 var again := second.world.sent[|first.world.sent|..];
                 var rep := second.result.value;
                 && SamePayloads(once, again)
                 && (rep.storeExisted && (forall k :: 0 <= k < |rep.layersExisted| ==> rep.layersExisted[k]) ==> UpdatesOnly(again))
  {
    var first := SyncFileStep(serve, cfg, disk, w, path);
    var second := SyncFileStep(serve, cfg, disk, first.world, path);
    if first.result.Ok? && second.result.Ok? {
      var rows := disk.Read(path).rows;
      SyncFileOrder(serve, cfg, disk, w, path);
      SyncFileOrder(serve, cfg, disk, first.world, path);
      var once := FileRequests(cfg, disk.cwd, path, rows, first.result.value);
      var again := FileRequests(cfg, disk.cwd, path, rows, second.result.value);
      assert first.world.sent[|w.sent|..] == once;
      assert second.world.sent[|first.world.sent|..] == again;
      FileRequestsCompare(cfg, disk.cwd, path, rows, first.result.value, second.result.value);
    }
  }
}
