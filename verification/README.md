# GeoPackage-to-GeoServer sync, modelled in Dafny

`scripts/sync.py` publishes GeoPackage files to a GeoServer workspace. For each
package file, its `Importer`:

1. reads the package catalog (`SELECT * FROM gpkg_contents`);
2. derives a datastore identifier from the file name;
3. lists the workspace's datastores and creates the datastore (POST) or
   replaces it (PUT), depending on whether the name is listed;
4. does the same for one feature type per catalog row, in catalog order,
   re-listing the feature types before each row.

Any failure stops the whole run.

The model has three layers:

- **Reference functions** (`Reconcile`) define the engine over the *world*:
  the server's state plus the log of every request sent. They are stated for
  any server behaviour (`serve: Server`).
- **The `Importer` class** (`Importing`) runs the same steps imperatively,
  through a `Remote` session that records every request. Each method is proved
  to end in exactly the world and result the reference functions give.
- **Properties** are proved in three modules:
  - `Protocol`, for any server: the create-or-update rule, the payloads, the
    order of requests, the error cases and abort-on-first-failure;
  - `Listings`: how the lenient listing parsers read each response shape;
  - `Idempotence`, against the in-memory GeoServer (`GeoServer.Serve`): a
    first run publishes the package, and a second run sends only listings and
    PUTs, with the same payloads in the same order, and changes nothing.

Supporting modules:

- `PyJson`: the Python semantics of subscripting, `.get`, and the
  `[x["name"] for x in ...]` comprehension over decoded JSON. Each one either
  returns a value or raises the exception Python would raise.
- `Paths`: `posixpath` `basename`, `splitext`, `join` and `abspath`.
- `Rest`: routes, requests and payloads.
- `Local`: the filesystem and the SQLite catalog, both as given data.

Behaviours of `scripts/sync.py` worth noting, all of them kept by the model:

- A datastore listing without a `dataStores` key, or one whose `dataStores`
  object has no `dataStore` key, raises `KeyError`. The `except` clause does
  not catch it, so the run stops there (`Listings.StoreListingShapes`).
- `raise_for_status` raises `requests.HTTPError` for statuses 400 to 599 only;
  other statuses of the datastore upsert count as success (`Failure.HttpError`,
  `Protocol.DatastoreUpsertRule`).
- When both files and a pattern are given, the files are synced and the
  pattern is ignored (`Protocol.SyncInputs`).
- The directory check runs even when files are given (`Protocol.SyncInputs`).

## Model

| member | source | states |
|---|---|---|
| Reconcile.BaseOf | scripts/sync.py:34 | definition; characterised by `Importing.Importer.constructor` |
| Rest.BaseUrl | scripts/sync.py:34 | definition; characterised by `Rest.ItemUnderCollection` |
| Rest.Url | scripts/sync.py:87-91 | definition; characterised by `Rest.ItemUnderCollection` |
| Paths.Basename | scripts/sync.py:74 | definition; characterised by `Paths.BasenameIsLastComponent` and `Paths.BasenameIgnoresDirectory` |
| Paths.SplitExt | scripts/sync.py:74 | definition; characterised by `Paths.SplitExtShape` and `Paths.SplitExtFindsExtension` |
| Paths.Identifier | scripts/sync.py:74 | definition; characterised by `Paths.IdentifierIsStem` and `Paths.IdentifierIgnoresDirectory` |
| Paths.Join | scripts/sync.py:46 | definition; characterised by `Paths.JoinKeepsBasename` |
| Paths.AbsPath | scripts/sync.py:99 | definition; characterised by `Paths.AbsPathKeepsBasename` |
| PyJson.Subscript | scripts/sync.py:82 | definition; characterised by `Listings.StoreListingShapes` and `Listings.StoreListingItems` |
| PyJson.GetOr | scripts/sync.py:117 | definition; characterised by `Listings.LayerListingShapes` |
| PyJson.Names | scripts/sync.py:82 | definition; characterised by `Listings.NumberCollectionDiffers` and `Listings.StoreListingReadsBack` |
| PyJson.EachName | scripts/sync.py:82 | definition; characterised by `Listings.StoreListingItems` and `Listings.LayerListingReadsBack` |
| PyJson.Catch | scripts/sync.py:81-85 | definition; characterised by `Listings.StoreListingShapes`, `Listings.LayerListingShapes` and `Listings.NonObjectDocumentIsEmpty` |
| Reconcile.ListedStores | scripts/sync.py:80-85 | definition; characterised by `Listings.StoreListingReadsBack`, `Listings.StoreListingShapes` and `Listings.StoreListingItems` |
| Reconcile.ListedLayers | scripts/sync.py:115-120 | definition; characterised by `Listings.LayerListingReadsBack` and `Listings.LayerListingShapes` |
| Reconcile.StorePayloadFor | scripts/sync.py:93-104 | definition; characterised by `Protocol.DatastoreUpsertRule` |
| Reconcile.LayerPayloadFor | scripts/sync.py:128-140 | definition; characterised by `Protocol.LayerUpsertRule` and `Protocol.LayerRequestsSamePayloads` |
| Reconcile.ListStores | scripts/sync.py:75-76 | definition; characterised by `Protocol.DatastoreUpsertRule` |
| Reconcile.ListLayers | scripts/sync.py:113-114 | definition; characterised by `Protocol.LayerUpsertRule` |
| Reconcile.UpsertStore | scripts/sync.py:87-91 | definition; characterised by `Protocol.DatastoreUpsertRule` |
| Reconcile.UpsertLayer | scripts/sync.py:122-126 | definition; characterised by `Protocol.LayerUpsertRule` |
| Reconcile.RaisesForStatus | scripts/sync.py:107 | definition; characterised by `Protocol.DatastoreUpsertRule` |
| Reconcile.Accepted | scripts/sync.py:144-145 | definition; characterised by `Protocol.LayerUpsertRule` |
| Reconcile.Exchange | scripts/sync.py:106 | definition; characterised by `Importing.Remote.Send` |
| Reconcile.DatastoreStep | scripts/sync.py:73-79 | definition; characterised by `Protocol.WorkspaceMissingStopsBeforeWrites`, `Protocol.DatastoreUpsertRule` and `Idempotence.DatastoreStepUpserts` |
| Reconcile.StoreListed | scripts/sync.py:78-91 | definition; characterised by `Protocol.DatastoreListingUnreadable` and `Protocol.DatastoreUpsertRule` |
| Reconcile.StoreUpserted | scripts/sync.py:87-109 | definition; characterised by `Protocol.DatastoreUpsertRule` |
| Reconcile.LayerStep | scripts/sync.py:111-146 | definition; characterised by `Protocol.LayerUpsertRule`, `Protocol.LayerListingUnreadable` and `Idempotence.LayerStepUpserts` |
| Reconcile.LayersStep | scripts/sync.py:69-70 | definition; characterised by `Protocol.LayersInOrder`, `Protocol.FirstFailureEndsLayers` and `Idempotence.LayersStepUpserts` |
| Reconcile.CatalogRows | scripts/sync.py:54-62 | definition; characterised by `Protocol.CatalogFailuresSendNothing` and `Importing.Importer.ReadCatalog` |
| Reconcile.SyncFileStep | scripts/sync.py:50-71 | definition; characterised by `Protocol.SyncFileOrder`, `Protocol.CatalogFailuresSendNothing` and `Idempotence.FirstRunPublishes` |
| Reconcile.SyncFiles | scripts/sync.py:47-48 | definition; characterised by `Protocol.FirstFailureEndsRun`, `Protocol.SyncReportsEveryFile` and `Protocol.SyncReportsFileByFile` |
| Reconcile.Discovered | scripts/sync.py:44-46 | definition; characterised by `Protocol.SyncInputs` |
| Reconcile.SyncStep | scripts/sync.py:36-48 | definition; characterised by `Protocol.SyncInputs` and `Importing.Importer.Sync` |
| Paths.BasenameIsLastComponent | scripts/sync.py:74 | `basename` is the last path component: a suffix of the path with no '/', and when it is shorter than the path it is preceded by '/' |
| Paths.SplitExtShape | scripts/sync.py:74 | `splitext` splits the name into two parts that concatenate back to it; the extension is empty or one '.'-led suffix with no further '.' and no '/' |
| Paths.SplitExtFindsExtension | scripts/sync.py:74 | an extension is split off exactly when the last component has a '.' after some character other than '.' (so leading dots never start one) |
| Paths.IdentifierIsStem | scripts/sync.py:74 | identifier + extension is the basename; the identifier holds no '/'; the dropped extension is empty or a single '.'-led suffix |
| Paths.IdentifierIgnoresDirectory | scripts/sync.py:74 | the identifier depends only on the file name, not on the directory it is reached through |
| Paths.BasenameIgnoresDirectory | scripts/sync.py:74 | a directory prefix never changes the basename |
| Paths.JoinKeepsBasename | scripts/sync.py:46 | `join(d, pattern)` ends with `pattern` and has its basename |
| Paths.AbsPathKeepsBasename | scripts/sync.py:99 | `abspath` keeps an absolute path, makes a relative one absolute under an absolute working directory, and never changes the basename |
| Paths.IdentifierOfAbsolutePath | scripts/sync.py:74 | "/a/b/parks.gpkg" names the datastore "parks" |
| Paths.IdentifierKeepsInnerDots | scripts/sync.py:74 | only the final extension goes: "a.b.gpkg" names "a.b" |
| Paths.IdentifierOfDotFile | scripts/sync.py:74 | a leading dot is not an extension: ".gpkg" names ".gpkg" |
| Rest.ItemUnderCollection | scripts/sync.py:87-91 | every URL lies under the workspace's base address, and an item's URL is its collection's URL plus "/" and its name |
| Listings.StoreListingReadsBack | scripts/sync.py:80-85 | a datastore listing, including the server's `""` for none, parses without error, to the names of exactly the datastores the workspace holds |
| Listings.LayerListingReadsBack | scripts/sync.py:115-120 | a feature type listing, including `""` for none, parses without error, to the names of exactly the store's feature types |
| Listings.StoreListingShapes | scripts/sync.py:80-85 | a non-object `dataStores` counts as no stores; a missing `dataStores` or `dataStore` key raises KeyError, which is not caught; a non-JSON body raises a decoding error |
| Listings.StoreListingItems | scripts/sync.py:82 | a listed item that is an object yields its `name`, and raises KeyError when it has none; an item that is not an object makes the list count as empty |
| Listings.LayerListingShapes | scripts/sync.py:115-120 | a missing `featureTypes` or `featureType`, or a non-object `featureTypes`, counts as no feature types; a non-JSON body raises |
| Listings.NumberCollectionDiffers | scripts/sync.py:116-118 | the feature type parser catches only AttributeError, so a numeric `featureType` raises TypeError; the datastore parser reads the same shape as empty |
| Listings.NonObjectDocumentIsEmpty | scripts/sync.py:80-85 | a listing document that is not an object counts as empty for both parsers |
| Protocol.WorkspaceMissingStopsBeforeWrites | scripts/sync.py:76-79 | a 404 on the datastore listing fails with "workspace missing" after that single GET; no mutating request is sent |
| Protocol.DatastoreUpsertRule | scripts/sync.py:87-109 | after a readable listing, exactly one more request is sent. It is a PUT to `{base}/datastores/{id}` iff `id` is listed, else a POST to `{base}/datastores`. It carries exactly `{name: id, enabled: true, entries [database ↦ file://abspath(path), dbtype ↦ geopkg]}`. The step fails iff the status is 400–599, with that status and target; otherwise it returns `(id, listed)` |
| Protocol.DatastoreListingUnreadable | scripts/sync.py:80-85 | a listing that raises an exception the `except` clause does not catch ends the step after the GET, carrying that exception |
| Protocol.LayerUpsertRule | scripts/sync.py:111-146 | the feature types are re-listed, then one upsert follows. It is a PUT to `.../featuretypes/{id}` iff the row's `id` is listed, else a POST to `.../featuretypes`. Its payload has `name = nativeName = id`, namespace `{name: workspace, href: base + ".json"}`, the row's title and description, and keywords exactly `[dtype]`. Only 200 or 201 succeeds; any other status fails with status, verb and target. The result is whether `id` was listed |
| Protocol.LayerListingUnreadable | scripts/sync.py:113-120 | a feature type listing that raises an uncaught exception ends the layer step after the GET |
| Protocol.CatalogFailuresSendNothing | scripts/sync.py:52-65 | an unreadable package, or a catalog with no rows, fails `sync_file` with the world unchanged: no request is sent |
| Protocol.LayersInOrder | scripts/sync.py:69-70 | a successful layer loop reports one flag per row and sends, for each row in catalog order, a fresh listing followed by that row's upsert |
| Protocol.SyncFileOrder | scripts/sync.py:64-71 | a successful `sync_file` read the catalog, reports one flag per row, and sent exactly the datastore listing and upsert, then each row's listing and upsert in catalog order |
| Protocol.FirstFailureEndsLayers | scripts/sync.py:69-70 | looping over rows `a + b` is looping over `a`, then over `b` only if no row of `a` failed |
| Protocol.FirstFailureEndsRun | scripts/sync.py:47-48 | syncing files `a + b` is syncing `a`, then `b` from the resulting world only if no file of `a` failed |
| Protocol.SyncReportsEveryFile | scripts/sync.py:47-48 | a successful run gives one report per file, after those already reported |
| Protocol.SyncReportsFileByFile | scripts/sync.py:47-48 | a successful run reports the files in order: in a run over `a + [path] + b`, the report after those of `a` is what syncing `path` gave, in the world the files of `a` left |
| Protocol.ResumeAfter | scripts/sync.py:47-48 | a successful run over `a + [path] + b` passes through the point after the files of `a`, with one report for each, and carries on from that world |
| Protocol.NextReport | scripts/sync.py:47-48 | the first report a successful run adds, right after those already made, is that of its first file |
| Protocol.SyncInputs | scripts/sync.py:37-48 | no files and no pattern fails, and a non-directory `dir` fails even when files are given; both fail before any request and leave the file list as it was. Given files are synced as given, whatever the pattern; only without files are the pattern's matches collected, and then those are synced |
| Protocol.LayerRequestsSamePayloads | scripts/sync.py:128-140 | the layer requests for the same rows carry the same payloads position by position, whatever was listed |
| Protocol.LayerRequestsAllListed | scripts/sync.py:122-126 | when every row was listed, the layer loop sends only GETs and PUTs |
| Protocol.FileRequestsCompare | scripts/sync.py:87-140 | two runs over the same catalog send equally many requests with the same payloads; a run that found everything listed sends no POST |
| Protocol.RerunRequests | scripts/sync.py:67-71 | for any server, two successful consecutive runs on one package send the same number of requests with the same payloads, in order; if the second found everything listed, it sends only GETs and PUTs |
| Idempotence.DatastoreStepUpserts | scripts/sync.py:73-109 | on a healthy workspace, the datastore step creates or replaces the datastore by name (`PutStore`) and reports whether it existed |
| Idempotence.LayerStepUpserts | scripts/sync.py:111-146 | on a healthy workspace with the store present, the layer step creates or replaces the feature type by name (`PutLayer`) and reports whether it existed |
| Idempotence.LayersStepUpserts | scripts/sync.py:69-70 | the layer loop succeeds and upserts every row, in order (`PutLayers`) |
| Idempotence.PutLayersPublishes | scripts/sync.py:69-70 | upserting the rows of a catalog with distinct table names leaves each row's feature type present, carrying that row's payload |
| Idempotence.LayerStepAgain | scripts/sync.py:122-126 | a row whose feature type is already published is found listed, and its step changes nothing |
| Idempotence.LayersStepAgain | scripts/sync.py:122-126 | over published rows, the layer loop reports every row as listed and changes nothing |
| Idempotence.FirstRunPublishes | scripts/sync.py:50-71 | on a healthy workspace, syncing a readable, non-empty package succeeds and publishes the datastore and every row's feature type with the importer's payloads |
| Idempotence.RerunChangesNothing | scripts/sync.py:87-91 | syncing a published package reports the datastore and every layer as existing, and leaves the server unchanged |
| Idempotence.SecondRunOnlyUpdates | scripts/sync.py:50-71 | syncing the same package twice: the second run succeeds, finds everything listed, leaves the server as the first run left it, and sends as many requests as the first, with the same payloads in order, all of them GETs and PUTs |
| Importing.Remote.Send | scripts/sync.py:106 | one request through the session: the server's answer and new state, with the request appended to the log |
| Importing.Importer.Sync | scripts/sync.py:36-48 | `sync()` ends with exactly the result, world and file list of `SyncStep`, including the in-place extension of the importer's own file list |
| Importing.Importer.SyncEach | scripts/sync.py:47-48 | the file loop ends with exactly the result and world of `SyncFiles` |
| Importing.Importer.ReadCatalog | scripts/sync.py:52-62 | the catalog rows in order, or "unreadable package"; the connection is closed on every path |
| Importing.Importer.SyncFile | scripts/sync.py:50-71 | `sync_file` ends with exactly the result and world of `SyncFileStep` |
| Importing.Importer.CreateOrUpdateDatastore | scripts/sync.py:73-109 | ends with exactly the result and world of `DatastoreStep` |
| Importing.Importer.CreateOrUpdateLayer | scripts/sync.py:111-146 | ends with exactly the result and world of `LayerStep` |
| Importing.Importer.constructor | scripts/sync.py:27-34 | keeps the settings and file list, and derives the workspace's base address from host, port and workspace |
| Importing.Connection.Open | scripts/sync.py:53 | a fresh, open connection to the package |
| Importing.Connection.Close | scripts/sync.py:62 | the connection is closed |

## Left out

- The HTTP transport: the session, basic authentication, headers and JSON
  encoding. Payloads are the structured values built before `json.dumps`, and
  URLs are structured targets that `Rest.Url` renders.
- The server itself. The steps hold for any server behaviour. The idempotence
  results use an in-memory stand-in (`GeoServer.Serve`) with no injected
  faults, not GeoServer.
- The filesystem and SQLite: `os.walk`, `glob.glob`, `os.path.isdir` and the
  catalog query are given data (`Local.Disk`). The working directory is a
  parameter.
- `sqlite3.connect` failing before the `try` block (scripts/sync.py:53), and
  the empty file it creates for a missing path. A missing package reads as an
  unreadable catalog.
- `os.path.abspath`'s `normpath` step (collapsing `..`, `.` and repeated
  slashes).
- Catalog rows with fewer than four columns, which make the unpacking at
  scripts/sync.py:112 raise `ValueError`. Columns beyond the fourth are not
  modelled.
- Floating-point JSON numbers.
- Exception messages, logging and `print` output. Failures are structured
  `Failure` values.
- The command line and configuration (`argparse`, `ConfigParser`, environment
  variables, exit codes), scripts/sync.py:149-191.
- handler.py and scripts/handler.py (webhook signature check and shelling out)
  are not part of this model.
- Idempotence.SecondRunOnlyUpdates: assumes no injected faults, an existing
  workspace, and distinct table names in the catalog, which is the catalog's
  primary key.
