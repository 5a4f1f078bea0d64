/**
 * The REST surface the importer talks to: the routes under a workspace's base
 * address, the request methods, the two JSON payload shapes it sends, and the
 * responses it reads. JSON encoding of payloads is not modelled; a payload is
 * the structured value the importer builds before `json.dumps`.
 */
module Rest {
  import opened PyJson

  datatype Option<T> = None | Some(value: T)

  const OK: int := 200
  const CREATED: int := 201
  const NOT_FOUND: int := 404
  const METHOD_NOT_ALLOWED: int := 405
  const INTERNAL_SERVER_ERROR: int := 500

  datatype Verb = GET | POST | PUT

  /** The resources below `{base}`. */
  datatype Route =
    | Datastores                                // {base}/datastores
    | Datastore(id: string)                     // {base}/datastores/{id}
    | FeatureTypes(store: string)               // {base}/datastores/{store}/featuretypes
    | FeatureType(store: string, id: string)    // {base}/datastores/{store}/featuretypes/{id}

  /** The REST address of one workspace on one server. */
  datatype Base = Base(host: string, port: string, workspace: string)

  /** `http://{host}:{port}/geoserver/rest/workspaces/{workspace}` */
  function BaseUrl(b: Base): string
  {
    "http://" + b.host + ":" + b.port + "/geoserver/rest/workspaces/" + b.workspace
  }

  /** A route under a workspace's base address. */
  datatype Target = Target(base: Base, route: Route)

  /** The URL a request to `t` goes to. */
  function Url(t: Target): string
  {
    var base := BaseUrl(t.base);
    match t.route
    case Datastores => base + "/datastores"
    case Datastore(id) => base + "/datastores/" + id
    case FeatureTypes(store) => base + "/datastores/" + store + "/featuretypes"
    case FeatureType(store, id) => base + "/datastores/" + store + "/featuretypes/" + id
  }

  /**
   * Every URL lies under the workspace's base address, and an item's URL is
   * its collection's URL followed by "/" and the item's name: the upsert of a
   * listed name goes to the entry the listing came from.
   */
  lemma ItemUnderCollection(b: Base, store: string, id: string)
    ensures Url(Target(b, Datastore(id))) == Url(Target(b, Datastores)) + "/" + id
    ensures Url(Target(b, FeatureType(store, id))) == Url(Target(b, FeatureTypes(store))) + "/" + id
    ensures forall r: Route :: BaseUrl(b) <= Url(Target(b, r))
  {
  }

  /** One `{"@key": key, "$": value}` connection parameter. */
  datatype Entry = Entry(key: string, value: string)

  /** `{"dataStore": {"name", "enabled", "connectionParameters": {"entry": [...]}}}` */
  datatype StorePayload = StorePayload(name: string, enabled: bool, entries: seq<Entry>)

  /** `{"name": workspace, "href": BaseUrl(base) + ".json"}` */
  datatype Namespace = Namespace(name: string, base: Base)
  {
    function Href(): string
    {
      BaseUrl(base) + ".json"
    }
  }

  /**
   * `{"featureType": {"name", "nativeName", "namespace", "title", "description",
   * "keywords": {"string": [...]}}}`; a title or description that is SQL NULL
   * is sent as JSON null (`None`).
   */
  datatype LayerPayload = LayerPayload(
    name: string,
    nativeName: string,
    namespace: Namespace,
    title: Option<string>,
    description: Option<string>,
    keywords: seq<string>)

  datatype Payload = NoPayload | StoreDoc(store: StorePayload) | LayerDoc(layer: LayerPayload)

  datatype Request = Request(verb: Verb, target: Target, payload: Payload)

  /** A response body: a JSON document, or text that `Response.json()` cannot decode. */
  datatype Body = Text | Doc(json: Json)

  datatype Response = Response(status: int, body: Body)
}
