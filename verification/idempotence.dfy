/**
 * Idempotence of `sync_file` against the map server: on a healthy workspace
 * a first run publishes the package (its datastore and one feature type per
 * catalog row, each carrying the payload the importer builds), and a second
 * run on the same file finds everything listed, so it sends only PUTs, with
 * the same payloads in the same order, and leaves the server as it was.
 *
 * The proof goes through a reference definition of what one step does to the
 * server: creating or replacing a resource by name (`PutStore`, `PutLayer`).
 */
module Idempotence {
  import opened Rest
  import opened Paths
  import opened Local
  import opened GeoServer
  import opened Reconcile
  import opened Listings
  import opened Protocol

  /** Create a datastore, or replace the first one of that name, keeping its feature types. */
  function PutStore(stores: seq<Store>, p: StorePayload): seq<Store>
  {
    var i := StoreIndex(stores, p.name);
    if i < |stores| then stores[i := Store(p, stores[i].layers)] else stores + [Store(p, [])]
  }

  /** Create a feature type, or replace the first one of that name. */
  function PutLayer(layers: seq<LayerPayload>, p: LayerPayload): seq<LayerPayload>
  {
    var j := LayerIndex(layers, p.name);
    if j < |layers| then layers[j := p] else layers + [p]
  }

  /** The feature types after upserting every row, in order. */
  function PutLayers(layers: seq<LayerPayload>, cfg: Config, rows: seq<Row>): seq<LayerPayload>
    decreases rows
  {
    if rows == [] then layers else PutLayers(PutLayer(layers, LayerPayloadFor(cfg, rows[0])), cfg, rows[1..])
  }

  /** The first position holding `name` is the only one that can be found by name. */
  lemma {:induction false} LayerIndexIs(layers: seq<LayerPayload>, name: string, k: nat)
    requires k < |layers| && layers[k].name == name
    requires forall j :: 0 <= j < k ==> layers[j].name != name
    ensures LayerIndex(layers, name) == k
  {
    if k > 0 {
      LayerIndexIs(layers[1..], name, k - 1);
    }
  }

  /** Lookup by name sees only the names, position by position. */
  lemma {:induction false} StoreIndexSameNames(stores: seq<Store>, other: seq<Store>, name: string)
    requires |stores| == |other|
    requires forall k :: 0 <= k < |stores| ==> stores[k].config.name == other[k].config.name
    ensures StoreIndex(stores, name) == StoreIndex(other, name)
  {
    if stores != [] {
      StoreIndexSameNames(stores[1..], other[1..], name);
    }
  }

  /** After `PutStore`, the datastore of that name is found and carries the payload and its former feature types. */
  lemma PutStoreFinds(stores: seq<Store>, p: StorePayload)
    ensures var after := PutStore(stores, p);
            var i := StoreIndex(after, p.name);
            && i < |after|
            && after[i].config == p
            && after[i].layers == (if StoreIndex(stores, p.name) < |stores| then stores[StoreIndex(stores, p.name)].layers else [])
  {
    var after := PutStore(stores, p);
    var i := StoreIndex(stores, p.name);
    if i < |stores| {
      StoreIndexSameNames(stores, after, p.name);
    } else {
      assert forall j :: 0 <= j < |stores| ==> after[j].config.name != p.name;
      StoreIndexSameNamesAppend(stores, Store(p, []));
    }
  }

  /** Appending a datastore whose name is new puts it at the end of the lookup. */
  lemma {:induction false} StoreIndexSameNamesAppend(stores: seq<Store>, s: Store)
    requires StoreIndex(stores, s.config.name) == |stores|
    ensures StoreIndex(stores + [s], s.config.name) == |stores|
  {
    if stores != [] {
      assert (stores + [s])[1..] == stores[1..] + [s];
      StoreIndexSameNamesAppend(stores[1..], s);
    }
  }

  /** After `PutLayer`, the feature type of that name is found and is the payload. */
  lemma PutLayerFinds(layers: seq<LayerPayload>, p: LayerPayload)
    ensures var after := PutLayer(layers, p);
            LayerIndex(after, p.name) < |after| && after[LayerIndex(after, p.name)] == p
  {
    var after := PutLayer(layers, p);
    var j := LayerIndex(layers, p.name);
    if j < |layers| {
      LayerIndexIs(after, p.name, j);
    } else {
      LayerIndexIs(after, p.name, |layers|);
    }
  }

  /** `PutLayer` leaves the feature types of every other name where they were, unchanged. */
  lemma PutLayerKeepsOthers(layers: seq<LayerPayload>, p: LayerPayload, name: string)
    requires name != p.name && LayerIndex(layers, name) < |layers|
    ensures var after := PutLayer(layers, p);
            LayerIndex(after, name) == LayerIndex(layers, name) && after[LayerIndex(after, name)] == layers[LayerIndex(layers, name)]
  {
    var after := PutLayer(layers, p);
    var k := LayerIndex(layers, name);
    LayerIndexIs(after, name, k);
  }

  /** A feature type already holding the payload is left as it is. */
  lemma PutLayerAgain(layers: seq<LayerPayload>, p: LayerPayload)
    requires LayerIndex(layers, p.name) < |layers| && layers[LayerIndex(layers, p.name)] == p
    ensures PutLayer(layers, p) == layers
  {
  }

  /** Every row's feature type is present and carries the payload built from that row. */
  predicate LayersPublished(layers: seq<LayerPayload>, cfg: Config, rows: seq<Row>)
  {
    forall r | r in rows ::
      LayerIndex(layers, r.identifier) < |layers| && layers[LayerIndex(layers, r.identifier)] == LayerPayloadFor(cfg, r)
  }

  /** No two rows of the catalog name the same table (it is the catalog's primary key). */
  predicate DistinctIdentifiers(rows: seq<Row>)
  {
    forall i, j :: 0 <= i < j < |rows| ==> rows[i].identifier != rows[j].identifier
  }

  /** Upserting every row of a catalog with distinct identifiers publishes all of them. */
  lemma {:induction false} PutLayersPublishes(layers: seq<LayerPayload>, cfg: Config, rows: seq<Row>)
    requires DistinctIdentifiers(rows)
    ensures LayersPublished(PutLayers(layers, cfg, rows), cfg, rows)
    decreases rows
  {
    if rows != [] {
      var p := LayerPayloadFor(cfg, rows[0]);
      var next := PutLayer(layers, p);
      assert DistinctIdentifiers(rows[1..]) by {
        forall i, j | 0 <= i < j < |rows[1..]| ensures rows[1..][i].identifier != rows[1..][j].identifier {
          assert rows[1..][i] == rows[i + 1] && rows[1..][j] == rows[j + 1];
        }
      }
      PutLayersPublishes(next, cfg, rows[1..]);
      PutLayerFinds(layers, p);
      forall k | 1 <= k < |rows| ensures rows[k].identifier != p.name {
        assert rows[0].identifier != rows[k].identifier;
      }
      PutLayersKeeps(next, cfg, rows[1..], p);
      forall r | r in rows
        ensures LayerIndex(PutLayers(layers, cfg, rows), r.identifier) < |PutLayers(layers, cfg, rows)|
        ensures PutLayers(layers, cfg, rows)[LayerIndex(PutLayers(layers, cfg, rows), r.identifier)] == LayerPayloadFor(cfg, r)
      {
        if r != rows[0] {
          assert r in rows[1..];
        }
      }
    }
  }

  /** Upserting rows that all have other names keeps a feature type where it was, unchanged. */
  lemma {:induction false} PutLayersKeeps(layers: seq<LayerPayload>, cfg: Config, rows: seq<Row>, p: LayerPayload)
    requires LayerIndex(layers, p.name) < |layers| && layers[LayerIndex(layers, p.name)] == p
    requires forall k :: 0 <= k < |rows| ==> rows[k].identifier != p.name
    ensures var after := PutLayers(layers, cfg, rows);
            LayerIndex(after, p.name) < |after| && after[LayerIndex(after, p.name)] == p
    decreases rows
  {
    if rows != [] {
      PutLayerKeepsOthers(layers, LayerPayloadFor(cfg, rows[0]), p.name);
      PutLayersKeeps(PutLayer(layers, LayerPayloadFor(cfg, rows[0])), cfg, rows[1..], p);
    }
  }

  /** Upserting rows that are all published already changes nothing. */
  lemma {:induction false} PutLayersAgain(layers: seq<LayerPayload>, cfg: Config, rows: seq<Row>)
    requires LayersPublished(layers, cfg, rows)
    ensures PutLayers(layers, cfg, rows) == layers
    decreases rows
  {
    if rows != [] {
      PutLayerAgain(layers, LayerPayloadFor(cfg, rows[0]));
      assert forall r | r in rows[1..] :: r in rows;
      PutLayersAgain(layers, cfg, rows[1..]);
    }
  }

  /** The configured workspace exists and no request is made to fail. */
  predicate Healthy(s: ServerState, b: Base)
  {
    s.faults == map[] && b in s.workspaces
  }

  /** The server with workspace `b` holding `stores`. */
  function WithStores(s: ServerState, b: Base, stores: seq<Store>): ServerState
  {
    s.(workspaces := s.workspaces[b := stores])
  }

  /**
   * On a healthy workspace the datastore step creates or replaces the
   * package's datastore by name, and reports whether it existed.
   */
  lemma DatastoreStepUpserts(cfg: Config, cwd: string, w: World, path: string)
    requires Healthy(w.server, BaseOf(cfg))
    ensures var stores := w.server.workspaces[BaseOf(cfg)];
            var id := Identifier(path);
            var out := DatastoreStep(Serve, cfg, cwd, w, path);
            && out.result == Ok((id, StoreIndex(stores, id) < |stores|))
            && out.world.server == WithStores(w.server, BaseOf(cfg), PutStore(stores, StorePayloadFor(id, AbsPath(cwd, path))))
  {
    var b := BaseOf(cfg);
    var stores := w.server.workspaces[b];
    var id := Identifier(path);
    StoreListingReadsBack(stores);
    assert Serve(w.server, ListStores(b)) == (w.server, Response(OK, Doc(StoreListing(stores))));
    var listed := StoreIndex(stores, id) < |stores|;
    var p := StorePayloadFor(id, AbsPath(cwd, path));
    var up := UpsertStore(b, id, p, listed);
    assert Serve(w.server, up) == (WithStores(w.server, b, PutStore(stores, p)), Response(if listed then OK else CREATED, Text));
  }

  /**
   * On a healthy workspace whose datastore `store` exists, the layer step
   * creates or replaces the row's feature type by name, and reports whether
   * it existed.
   */
  lemma LayerStepUpserts(cfg: Config, w: World, store: string, row: Row)
    requires Healthy(w.server, BaseOf(cfg))
    requires StoreIndex(w.server.workspaces[BaseOf(cfg)], store) < |w.server.workspaces[BaseOf(cfg)]|
    ensures var stores := w.server.workspaces[BaseOf(cfg)];
            var i := StoreIndex(stores, store);
            var layers := stores[i].layers;
            var out := LayerStep(Serve, cfg, w, store, row);
            && out.result == Ok(LayerIndex(layers, row.identifier) < |layers|)
            && out.world.server == WithStores(w.server, BaseOf(cfg), stores[i := stores[i].(layers := PutLayer(layers, LayerPayloadFor(cfg, row)))])
  {
    var b := BaseOf(cfg);
    var stores := w.server.workspaces[b];
    var i := StoreIndex(stores, store);
    var layers := stores[i].layers;
    LayerListingReadsBack(layers);
    assert Serve(w.server, ListLayers(b, store)) == (w.server, Response(OK, Doc(LayerListing(layers))));
    var listed := LayerIndex(layers, row.identifier) < |layers|;
    var p := LayerPayloadFor(cfg, row);
    var up := UpsertLayer(b, store, row.identifier, p, listed);
    assert Serve(w.server, up) ==
      (WithStores(w.server, b, stores[i := stores[i].(layers := PutLayer(layers, p))]), Response(if listed then OK else CREATED, Text));
  }

  /** The layer loop upserts every row, in order, into the datastore `store`. */
  lemma {:induction false} LayersStepUpserts(cfg: Config, w: World, store: string, rows: seq<Row>, done: seq<bool>)
    requires Healthy(w.server, BaseOf(cfg))
    requires StoreIndex(w.server.workspaces[BaseOf(cfg)], store) < |w.server.workspaces[BaseOf(cfg)]|
    ensures var stores := w.server.workspaces[BaseOf(cfg)];
            var i := StoreIndex(stores, store);
            var out := LayersStep(Serve, cfg, w, store, rows, done);
            && out.result.Ok?
            && out.world.server == WithStores(w.server, BaseOf(cfg), stores[i := stores[i].(layers := PutLayers(stores[i].layers, cfg, rows))])
    decreases rows
  {
    if rows != [] {
      var b := BaseOf(cfg);
      var stores := w.server.workspaces[b];
      var i := StoreIndex(stores, store);
      var first := LayerStep(Serve, cfg, w, store, rows[0]);
      LayerStepUpserts(cfg, w, store, rows[0]);
      assert LayersStep(Serve, cfg, w, store, rows, done) == LayersStep(Serve, cfg, first.world, store, rows[1..], done + [first.result.value]);
      var next := stores[i := stores[i].(layers := PutLayer(stores[i].layers, LayerPayloadFor(cfg, rows[0])))];
      StoreIndexSameNames(stores, next, store);
      assert first.world.server == WithStores(w.server, b, next);
      assert first.world.server.workspaces[b] == next;
      assert StoreIndex(next, store) == i;
      LayersStepUpserts(cfg, first.world, store, rows[1..], done + [first.result.value]);
      assert PutLayers(next[i].layers, cfg, rows[1..]) == PutLayers(stores[i].layers, cfg, rows);
      Collapse(w.server, b, stores, i, PutLayer(stores[i].layers, LayerPayloadFor(cfg, rows[0])), PutLayers(stores[i].layers, cfg, rows));
      var rest := LayersStep(Serve, cfg, first.world, store, rows[1..], done + [first.result.value]);
      assert rest.world.server == WithStores(first.world.server, b, next[i := next[i].(layers := PutLayers(next[i].layers, cfg, rows[1..]))]);
      assert rest.world.server == WithStores(w.server, b, stores[i := stores[i].(layers := PutLayers(stores[i].layers, cfg, rows))]);
    } else {
      var b := BaseOf(cfg);
      var stores := w.server.workspaces[b];
      var i := StoreIndex(stores, store);
      assert stores[i := stores[i].(layers := stores[i].layers)] == stores;
      assert w.server.workspaces[b := stores] == w.server.workspaces;
    }
  }

  /** Replacing a datastore's feature types twice is replacing them once, with the later list. */
  lemma Collapse(s: ServerState, b: Base, stores: seq<Store>, i: nat, mid: seq<LayerPayload>, last: seq<LayerPayload>)
    requires i < |stores|
    ensures var next := stores[i := stores[i].(layers := mid)];
            WithStores(WithStores(s, b, next), b, next[i := next[i].(layers := last)]) == WithStores(s, b, stores[i := stores[i].(layers := last)])
  {
    var next := stores[i := stores[i].(layers := mid)];
    assert next[i := next[i].(layers := last)] == stores[i := stores[i].(layers := last)];
  }

  /** `n` times "it was listed". */
  function AllTrue(n: nat): (flags: seq<bool>)
    ensures |flags| == n && forall k :: 0 <= k < n ==> flags[k]
  {
    if n == 0 then [] else [true] + AllTrue(n - 1)
  }

  /** A row whose feature type is published already is found listed, and its step changes nothing. */
  lemma LayerStepAgain(cfg: Config, w: World, store: string, row: Row)
    requires Healthy(w.server, BaseOf(cfg))
    requires StoreIndex(w.server.workspaces[BaseOf(cfg)], store) < |w.server.workspaces[BaseOf(cfg)]|
    requires LayersPublished(w.server.workspaces[BaseOf(cfg)][StoreIndex(w.server.workspaces[BaseOf(cfg)], store)].layers, cfg, [row])
    ensures var out := LayerStep(Serve, cfg, w, store, row);
            out.result == Ok(true) && out.world.server == w.server
  {
    var b := BaseOf(cfg);
    var stores := w.server.workspaces[b];
    var i := StoreIndex(stores, store);
    LayerStepUpserts(cfg, w, store, row);
    assert row in [row];
    PutLayerAgain(stores[i].layers, LayerPayloadFor(cfg, row));
    assert stores[i := stores[i].(layers := stores[i].layers)] == stores;
    assert w.server.workspaces[b := stores] == w.server.workspaces;
  }

  /** Over rows that are all published, the layer loop finds each one listed and changes nothing. */
  lemma {:induction false} LayersStepAgain(cfg: Config, w: World, store: string, rows: seq<Row>, done: seq<bool>)
    requires Healthy(w.server, BaseOf(cfg))
    requires StoreIndex(w.server.workspaces[BaseOf(cfg)], store) < |w.server.workspaces[BaseOf(cfg)]|
    requires LayersPublished(w.server.workspaces[BaseOf(cfg)][StoreIndex(w.server.workspaces[BaseOf(cfg)], store)].layers, cfg, rows)
    ensures var out := LayersStep(Serve, cfg, w, store, rows, done);
            out.result == Ok(done + AllTrue(|rows|)) && out.world.server == w.server
    decreases rows
  {
    if rows != [] {
      var first := LayerStep(Serve, cfg, w, store, rows[0]);
      assert forall r | r in [rows[0]] :: r in rows;
      LayerStepAgain(cfg, w, store, rows[0]);
      assert forall r | r in rows[1..] :: r in rows;
      LayersStepAgain(cfg, first.world, store, rows[1..], done + [true]);
      assert done + [true] + AllTrue(|rows| - 1) == done + AllTrue(|rows|);
    } else {
      assert done + AllTrue(0) == done;
    }
  }

  /**
   * The package at `path` is published: its datastore exists with the
   * payload the importer sends, and so does every row's feature type.
   */
  predicate Published(s: ServerState, cfg: Config, cwd: string, path: string, rows: seq<Row>)
  {
    var b := BaseOf(cfg);
    var id := Identifier(path);
    && b in s.workspaces
    && StoreIndex(s.workspaces[b], id) < |s.workspaces[b]|
    && s.workspaces[b][StoreIndex(s.workspaces[b], id)].config == StorePayloadFor(id, AbsPath(cwd, path))
    && LayersPublished(s.workspaces[b][StoreIndex(s.workspaces[b], id)].layers, cfg, rows)
  }

  /** On a healthy workspace, syncing a readable, non-empty package succeeds and publishes it. */
  lemma FirstRunPublishes(cfg: Config, disk: Disk, w: World, path: string)
    requires Healthy(w.server, BaseOf(cfg))
    requires !disk.Read(path).failed && disk.Read(path).rows != [] && DistinctIdentifiers(disk.Read(path).rows)
    ensures var out := SyncFileStep(Serve, cfg, disk, w, path);
            && out.result.Ok?
            && Healthy(out.world.server, BaseOf(cfg))
            && Published(out.world.server, cfg, disk.cwd, path, disk.Read(path).rows)
  {
    var b := BaseOf(cfg);
    var rows := disk.Read(path).rows;
    var id := Identifier(path);
    var p := StorePayloadFor(id, AbsPath(disk.cwd, path));
    var ds := DatastoreStep(Serve, cfg, disk.cwd, w, path);
    DatastoreStepUpserts(cfg, disk.cwd, w, path);
    var stores := PutStore(w.server.workspaces[b], p);
    PutStoreFinds(w.server.workspaces[b], p);
    var i := StoreIndex(stores, id);
    LayersStepUpserts(cfg, ds.world, id, rows, []);
    var after := stores[i := stores[i].(layers := PutLayers(stores[i].layers, cfg, rows))];
    StoreIndexSameNames(stores, after, id);
    PutLayersPublishes(stores[i].layers, cfg, rows);
  }

  /** Syncing a package that is published already finds everything listed and changes nothing. */
  lemma RerunChangesNothing(cfg: Config, disk: Disk, w: World, path: string)
    requires Healthy(w.server, BaseOf(cfg))
    requires !disk.Read(path).failed && disk.Read(path).rows != []
    requires Published(w.server, cfg, disk.cwd, path, disk.Read(path).rows)
    ensures var rows := disk.Read(path).rows;
            var out := SyncFileStep(Serve, cfg, disk, w, path);
            out.result == Ok(Report(true, AllTrue(|rows|))) && out.world.server == w.server
  {
    var b := BaseOf(cfg);
    var rows := disk.Read(path).rows;
    var id := Identifier(path);
    var stores := w.server.workspaces[b];
    var ds := DatastoreStep(Serve, cfg, disk.cwd, w, path);
    DatastoreStepUpserts(cfg, disk.cwd, w, path);
    assert PutStore(stores, StorePayloadFor(id, AbsPath(disk.cwd, path))) == stores;
    assert w.server.workspaces[b := stores] == w.server.workspaces;
    LayersStepAgain(cfg, ds.world, id, rows, []);
    assert [] + AllTrue(|rows|) == AllTrue(|rows|);
  }

  /**
   * Idempotence of `sync_file`: on a healthy workspace, syncing the same
   * readable, non-empty package twice, the second run finds the datastore and
   * every feature type listed, sends only listings and PUTs, exactly as many
   * requests as the first run and with the same payloads, and leaves the
   * server as the first run left it.
   */
  lemma SecondRunOnlyUpdates(cfg: Config, disk: Disk, w: World, path: string)
    requires Healthy(w.server, BaseOf(cfg))
    requires !disk.Read(path).failed && disk.Read(path).rows != [] && DistinctIdentifiers(disk.Read(path).rows)
    ensures var rows := disk.Read(path).rows;
            var first := SyncFileStep(Serve, cfg, disk, w, path);
            var second := SyncFileStep(Serve, cfg, disk, first.world, path);
            && first.result.Ok?
            && second.result == Ok(Report(true, AllTrue(|rows|)))
            && second.world.server == first.world.server
            && w.sent <= first.world.sent && first.world.sent <= second.world.sent
            && SamePayloads(first.world.sent[|w.sent|..], second.world.sent[|first.world.sent|..])
            && UpdatesOnly(second.world.sent[|first.world.sent|..])
  {
    var first := SyncFileStep(Serve, cfg, disk, w, path);
    FirstRunPublishes(cfg, disk, w, path);
    RerunChangesNothing(cfg, disk, first.world, path);
    RerunRequests(Serve, cfg, disk, w, path);
  }
}
