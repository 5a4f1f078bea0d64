/**
 * An in-memory map server standing in for the GeoServer REST API. For each
 * workspace (keyed by its base address) it keeps the datastores in catalog
 * order, each with its connection payload and its feature types. A POST adds
 * a resource, a PUT replaces one wholesale, a GET lists names in the JSON
 * shape the server uses, including its habit of writing an empty collection
 * as the empty string. `faults` lets a target answer with a fixed status and
 * change nothing, which is how server-side failures enter the model.
 */
module GeoServer {
  import opened PyJson
  import opened Rest

  datatype Store = Store(config: StorePayload, layers: seq<LayerPayload>)

  datatype ServerState = ServerState(workspaces: map<Base, seq<Store>>, faults: map<Target, int>)

  /**
   * How a server answers one request: its state afterwards and its response.
   * `Serve` below is the map server's behaviour; the importer's steps are
   * stated for any such behaviour.
   */
  type Server = (ServerState, Request) -> (ServerState, Response)

  /** Position of the first datastore called `name`, or `|stores|` when there is none. */
  function StoreIndex(stores: seq<Store>, name: string): (i: nat)
    ensures i <= |stores|
    ensures i < |stores| ==> stores[i].config.name == name
    ensures forall j :: 0 <= j < i ==> stores[j].config.name != name
  {
    if stores == [] then 0
    else if stores[0].config.name == name then 0
    else 1 + StoreIndex(stores[1..], name)
  }

  /** Position of the first feature type called `name`, or `|layers|` when there is none. */
  function LayerIndex(layers: seq<LayerPayload>, name: string): (i: nat)
    ensures i <= |layers|
    ensures i < |layers| ==> layers[i].name == name
    ensures forall j :: 0 <= j < i ==> layers[j].name != name
  {
    if layers == [] then 0
    else if layers[0].name == name then 0
    else 1 + LayerIndex(layers[1..], name)
  }

  function StoreNames(stores: seq<Store>): seq<string>
  {
    if stores == [] then [] else [stores[0].config.name] + StoreNames(stores[1..])
  }

  function LayerNames(layers: seq<LayerPayload>): seq<string>
  {
    if layers == [] then [] else [layers[0].name] + LayerNames(layers[1..])
  }

  /** `[{"name": n} for n in names]` */
  function NameEntries(names: seq<string>): seq<Json>
  {
    if names == [] then [] else [JObj(map["name" := JStr(names[0])])] + NameEntries(names[1..])
  }

  /** `{"dataStores": {"dataStore": [...]}}`, or `{"dataStores": ""}` when there are none. */
  function StoreListing(stores: seq<Store>): Json
  {
    JObj(map["dataStores" :=
      if stores == [] then JStr("")
      else JObj(map["dataStore" := JArr(NameEntries(StoreNames(stores)))])])
  }

  /** `{"featureTypes": {"featureType": [...]}}`, or `{"featureTypes": ""}` when there are none. */
  function LayerListing(layers: seq<LayerPayload>): Json
  {
    JObj(map["featureTypes" :=
      if layers == [] then JStr("")
      else JObj(map["featureType" := JArr(NameEntries(LayerNames(layers)))])])
  }

  /** A request to `{base}/datastores`: list, or create a datastore. */
  function ServeStores(stores: seq<Store>, m: Verb, payload: Payload): (r: (seq<Store>, Response))
  {
    if m == GET then (stores, Response(OK, Doc(StoreListing(stores))))
    else if m == POST && payload.StoreDoc? then
      if StoreIndex(stores, payload.store.name) < |stores| then (stores, Response(INTERNAL_SERVER_ERROR, Text))
      else (stores + [Store(payload.store, [])], Response(CREATED, Text))
    else (stores, Response(METHOD_NOT_ALLOWED, Text))
  }

  /** A request to `{base}/datastores/{id}`: replace the datastore's connection settings. */
  function ServeStore(stores: seq<Store>, m: Verb, id: string, payload: Payload): (r: (seq<Store>, Response))
  {
    if m == PUT && payload.StoreDoc? then
      var i := StoreIndex(stores, id);
      if i == |stores| then (stores, Response(NOT_FOUND, Text))
      else (stores[i := Store(payload.store, stores[i].layers)], Response(OK, Text))
    else (stores, Response(METHOD_NOT_ALLOWED, Text))
  }

  /** A request to `{base}/datastores/{store}/featuretypes`: list, or create a feature type. */
  function ServeLayers(stores: seq<Store>, m: Verb, store: string, payload: Payload): (r: (seq<Store>, Response))
  {
    var i := StoreIndex(stores, store);
    if m == GET then
      if i == |stores| then (stores, Response(NOT_FOUND, Text))
      else (stores, Response(OK, Doc(LayerListing(stores[i].layers))))
    else if m == POST && payload.LayerDoc? then
      if i == |stores| then (stores, Response(NOT_FOUND, Text))
      else
        var layers := stores[i].layers;
        if LayerIndex(layers, payload.layer.name) < |layers| then (stores, Response(INTERNAL_SERVER_ERROR, Text))
        else (stores[i := stores[i].(layers := layers + [payload.layer])], Response(CREATED, Text))
    else (stores, Response(METHOD_NOT_ALLOWED, Text))
  }

  /** A request to `{base}/datastores/{store}/featuretypes/{id}`: replace the feature type. */
  function ServeLayer(stores: seq<Store>, m: Verb, store: string, id: string, payload: Payload): (r: (seq<Store>, Response))
  {
    if m == PUT && payload.LayerDoc? then
      var i := StoreIndex(stores, store);
      if i == |stores| then (stores, Response(NOT_FOUND, Text))
      else
        var layers := stores[i].layers;
        var j := LayerIndex(layers, id);
        if j == |layers| then (stores, Response(NOT_FOUND, Text))
        else (stores[i := stores[i].(layers := layers[j := payload.layer])], Response(OK, Text))
    else (stores, Response(METHOD_NOT_ALLOWED, Text))
  }

  /** One request against one workspace's datastores. */
  function ServeIn(stores: seq<Store>, m: Verb, route: Route, payload: Payload): (r: (seq<Store>, Response))
    ensures m == GET || r.1.status !in {OK, CREATED} ==> r.0 == stores
  {
    match route
    case Datastores => ServeStores(stores, m, payload)
    case Datastore(id) => ServeStore(stores, m, id, payload)
    case FeatureTypes(store) => ServeLayers(stores, m, store, payload)
    case FeatureType(store, id) => ServeLayer(stores, m, store, id, payload)
  }

  /**
   * The server's answer to a request and its state afterwards. A GET never
   * changes anything, and neither does a request it does not answer with
   * 200 or 201; the fault table never changes.
   */
  function Serve(s: ServerState, req: Request): (r: (ServerState, Response))
    ensures r.0.faults == s.faults
    ensures req.verb == GET || r.1.status !in {OK, CREATED} ==> r.0 == s
    ensures req.target !in s.faults && req.target.base !in s.workspaces ==> r == (s, Response(NOT_FOUND, Text))
  {
    var t := req.target;
    if t in s.faults then (s, Response(s.faults[t], Text))
    else if t.base !in s.workspaces then (s, Response(NOT_FOUND, Text))
    else
      var stores := s.workspaces[t.base];
      var (stores', resp) := ServeIn(stores, req.verb, t.route, req.payload);
      assert stores' == stores ==> s.workspaces[t.base := stores'] == s.workspaces;
      (s.(workspaces := s.workspaces[t.base := stores']), resp)
  }

  /** The listed names are exactly the datastores' names. */
  lemma {:induction false} StoreIndexFindsListed(stores: seq<Store>, name: string)
    ensures StoreIndex(stores, name) < |stores| <==> name in StoreNames(stores)
  {
    if stores != [] {
      StoreIndexFindsListed(stores[1..], name);
    }
  }

  /** The listed names are exactly the feature types' names. */
  lemma {:induction false} LayerIndexFindsListed(layers: seq<LayerPayload>, name: string)
    ensures LayerIndex(layers, name) < |layers| <==> name in LayerNames(layers)
  {
    if layers != [] {
      LayerIndexFindsListed(layers[1..], name);
    }
  }

  /**
   * Reading `[x["name"] for x in ...]` back from a rendered name list gives a
   * list holding exactly the rendered names.
   */
  lemma {:induction false} NameEntriesReadBack(names: seq<string>)
    ensures EachName(NameEntries(names)).Value?
    ensures forall n :: JStr(n) in EachName(NameEntries(names)).v <==> n in names
    ensures names != [] ==> EachName(NameEntries(names)).v != []
  {
    if names != [] {
      NameEntriesReadBack(names[1..]);
      var e := NameEntries(names);
      assert e[0] == JObj(map["name" := JStr(names[0])]);
      assert e[1..] == NameEntries(names[1..]);
    }
  }
}
