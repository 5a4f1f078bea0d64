/**
 * The `Importer` of `scripts/sync.py` as a class. Its HTTP session is a
 * `Remote`: a server together with the log of every request sent through the
 * session. Each method runs the source's steps one request at a time and is
 * proved to leave the world and its result exactly as the corresponding
 * function of module Reconcile says.
 */
module Importing {
  import opened PyJson
  import opened Rest
  import opened Paths
  import opened Local
  import opened GeoServer
  import opened Reconcile

  /** A server as reached through the importer's session, with the request log. */
  class Remote {
    const serve: Server
    var workspaces: map<Base, seq<Store>>
    var faults: map<Target, int>
    var trace: seq<Request>

    /** The server's state and the log, as the functions of module Reconcile see them. */
    function Current(): World
      reads this
    {
      World(ServerState(workspaces, faults), trace)
    }

    constructor (serve: Server, s: ServerState)
      ensures this.serve == serve && Current() == World(s, [])
    {
      this.serve := serve;
      workspaces := s.workspaces;
      faults := s.faults;
      trace := [];
    }

    /** `session.get(url)` / `session.request(method, url, data=...)`. */
    method Send(req: Request) returns (resp: Response)
      modifies this
      ensures (Current(), resp) == Exchange(serve, old(Current()), req)
    {
      var (s', r) := serve(ServerState(workspaces, faults), req);
      workspaces := s'.workspaces;
      faults := s'.faults;
      trace := trace + [req];
      resp := r;
    }
  }

  /** An SQLite connection to one package file. */
  class Connection {
    const catalog: Catalog
    var closed: bool

    /** `sqlite3.connect(path)` */
    constructor Open(catalog: Catalog)
      ensures this.catalog == catalog && !closed
    {
      this.catalog := catalog;
      closed := false;
    }

    method Close()
      modifies this
      ensures closed
    {
      closed := true;
    }
  }

  class Importer {
    const config: Config
    var files: seq<string>
    const base: Base
    const remote: Remote
    const disk: Disk

    ghost predicate Valid()
      reads this
    {
      base == BaseOf(config)
    }

    constructor (config: Config, files: seq<string>, remote: Remote, disk: Disk)
      ensures Valid()
      ensures this.config == config && this.files == files && this.remote == remote && this.disk == disk
    {
      this.config := config;
      this.files := files;
      this.remote := remote;
      this.disk := disk;
      base := BaseOf(config);
    }

    /**
     * `sync()`: checks its inputs, collects the files when none were given
     * (extending the importer's own list, which the source aliases), then
     * syncs each file in order until the first failure.
     */
    method Sync() returns (r: Result<seq<Report>>)
      requires Valid()
      modifies this, remote
      ensures var run := SyncStep(remote.serve, config, disk, old(files), old(remote.Current()));
              r == run.step.result && remote.Current() == run.step.world && files == run.files
    {
      if config.pattern == "" && files == [] {
        return Err(NoFilesOrPattern);
      }
      if !disk.IsDir(config.dir) {
        return Err(InvalidDirectory(config.dir));
      }
      if files == [] {
        var dirs := disk.Walk(AbsPath(disk.cwd, config.dir));
        var i := 0;
        while i < |dirs|
          modifies this
          invariant 0 <= i <= |dirs|
          invariant files == Discovered(disk, dirs[..i], config.pattern)
        {
          assert dirs[..i + 1][..i] == dirs[..i];
          files := files + disk.Glob(Join(dirs[i], config.pattern));
          i := i + 1;
        }
        assert dirs[..|dirs|] == dirs;
      }
      r := SyncEach(files);
    }

    /** The file loop of `sync()`: each file in order, up to the first failure. */
    method SyncEach(todo: seq<string>) returns (r: Result<seq<Report>>)
      requires Valid()
      modifies remote
      ensures var out := SyncFiles(remote.serve, config, disk, old(remote.Current()), todo, []);
              r == out.result && remote.Current() == out.world
    {
      ghost var run := SyncFiles(remote.serve, config, disk, remote.Current(), todo, []);
      var reports: seq<Report> := [];
      var i := 0;
      while i < |todo|
        invariant 0 <= i <= |todo|
        invariant run == SyncFiles(remote.serve, config, disk, remote.Current(), todo[i..], reports)
      {
        assert todo[i..][0] == todo[i] && todo[i..][1..] == todo[i + 1..];
        var rep := SyncFile(todo[i]);
        if rep.Err? {
          return Err(rep.failure);
        }
        reports := reports + [rep.value];
        i := i + 1;
      }
      assert todo[i..] == [];
      return Ok(reports);
    }

    /** The catalog read of `sync_file`: the rows in order; the connection is closed on every path. */
    method ReadCatalog(path: string) returns (r: Result<seq<Row>>, conn: Connection)
      ensures fresh(conn) && conn.closed
      ensures r == CatalogRows(disk.Read(path))
    {
      conn := new Connection.Open(disk.Read(path));
      var cursor := conn.catalog.rows;
      var layers: seq<Row> := [];
      var i := 0;
      while i < |cursor|
        invariant 0 <= i <= |cursor|
        invariant layers == cursor[..i]
      {
        layers := layers + [cursor[i]];
        i := i + 1;
      }
      if conn.catalog.failed {
        conn.Close();
        return Err(UnreadablePackage), conn;
      }
      conn.Close();
      assert cursor[..|cursor|] == cursor;
      return Ok(layers), conn;
    }

    /** `sync_file(path)` */
    method SyncFile(path: string) returns (r: Result<Report>)
      requires Valid()
      modifies remote
      ensures var out := SyncFileStep(remote.serve, config, disk, old(remote.Current()), path);
              r == out.result && remote.Current() == out.world
    {
      var read, conn := ReadCatalog(path);
      if read.Err? {
        return Err(read.failure);
      }
      var rows := read.value;
      if rows == [] {
        return Err(NoLayers(path));
      }
      var ds := CreateOrUpdateDatastore(path);
      if ds.Err? {
        return Err(ds.failure);
      }
      var (store, listed) := ds.value;
      ghost var run := LayersStep(remote.serve, config, remote.Current(), store, rows, []);
      var flags: seq<bool> := [];
      var i := 0;
      while i < |rows|
        invariant 0 <= i <= |rows|
        invariant run == LayersStep(remote.serve, config, remote.Current(), store, rows[i..], flags)
      {
        assert rows[i..][0] == rows[i] && rows[i..][1..] == rows[i + 1..];
        var one := CreateOrUpdateLayer(store, rows[i]);
        if one.Err? {
          return Err(one.failure);
        }
        flags := flags + [one.value];
        i := i + 1;
      }
      assert rows[i..] == [];
      return Ok(Report(listed, flags));
    }

    /** `create_or_update_datastore(path)` */
    method CreateOrUpdateDatastore(path: string) returns (r: Result<(string, bool)>)
      requires Valid()
      modifies remote
      ensures var out := DatastoreStep(remote.serve, config, disk.cwd, old(remote.Current()), path);
              r == out.result && remote.Current() == out.world
    {
      var identifier := Identifier(path);
      var resp := remote.Send(ListStores(base));
      ghost var w1 := remote.Current();
      if resp.status == NOT_FOUND {
        return Err(WorkspaceMissing(config.workspace));
      }
      var stores := ListedStores(resp.body);
      if stores.Raise? {
        return Err(Uncaught(stores.exc));
      }
      var listed := JStr(identifier) in stores.v;
      assert StoreListed(remote.serve, config, disk.cwd, w1, resp, path) ==
             StoreUpserted(remote.serve, config, disk.cwd, w1, path, listed);
      var up := UpsertStore(base, identifier, StorePayloadFor(identifier, AbsPath(disk.cwd, path)), listed);
      resp := remote.Send(up);
      if RaisesForStatus(resp.status) {
        return Err(HttpError(resp.status, up.target));
      }
      return Ok((identifier, listed));
    }

    /** `create_or_update_layer(store, row)` */
    method CreateOrUpdateLayer(store: string, row: Row) returns (r: Result<bool>)
      requires Valid()
      modifies remote
      ensures var out := LayerStep(remote.serve, config, old(remote.Current()), store, row);
              r == out.result && remote.Current() == out.world
    {
      var resp := remote.Send(ListLayers(base, store));
      var layers := ListedLayers(resp.body);
      if layers.Raise? {
        return Err(Uncaught(layers.exc));
      }
      var listed := JStr(row.identifier) in layers.v;
      var up := UpsertLayer(base, store, row.identifier, LayerPayloadFor(config, row), listed);
      resp := remote.Send(up);
      if !Accepted(resp.status) {
        return Err(UnexpectedStatus(resp.status, up.verb, up.target));
      }
      return Ok(listed);
    }
  }
}
