/**
 * The local machine as the importer sees it: which paths are directories,
 * what `os.walk` and `glob.glob` report, and what the catalog query
 * `SELECT * FROM gpkg_contents` yields for each package file. These are given
 * facts, not computed: the filesystem and SQLite are outside the model.
 */
module Local {
  import opened Rest
  import opened Paths

  /**
   * The leading columns of a `gpkg_contents` row, as the importer unpacks
   * them: the table name (the layer identifier), its data type, the
   * human-readable title and the description. The last two may be NULL.
   */
  datatype Row = Row(identifier: string, dtype: string, title: Option<string>, description: Option<string>)

  /**
   * What the cursor over the catalog query produces: the rows it yields, in
   * the catalog's order, and whether it then raises `sqlite3.DatabaseError`
   * (after `rows`, possibly none) instead of finishing.
   */
  datatype Catalog = Catalog(rows: seq<Row>, failed: bool)

  datatype Disk = Disk(
    cwd: string,                        // os.getcwd()
    dirs: set<string>,                  // absolute paths that are directories
    walk: map<string, seq<string>>,     // os.walk(top): the directories it visits, in order
    glob: map<string, seq<string>>,     // glob.glob(pattern): the matching paths, in order
    packages: map<string, Catalog>)     // by absolute path: what the catalog query yields
  {
    /** `os.path.isdir(p)` */
    predicate IsDir(p: string)
    {
      AbsPath(cwd, p) in dirs
    }

    /** The directories `os.walk(top)` visits; none when `top` does not exist. */
    function Walk(top: string): seq<string>
    {
      if top in walk then walk[top] else []
    }

    /** `glob.glob(pattern)`; nothing matches a pattern the disk does not list. */
    function Glob(pattern: string): seq<string>
    {
      if pattern in glob then glob[pattern] else []
    }

    /**
     * The catalog query on `sqlite3.connect(path)`. Connecting to a path that
     * holds no database creates an empty one, whose query then fails for want
     * of the `gpkg_contents` table.
     */
    function Read(path: string): Catalog
    {
      var abs := AbsPath(cwd, path);
      if abs in packages then packages[abs] else Catalog([], true)
    }
  }
}
