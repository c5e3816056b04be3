/**
 * The data the profile code works on: settings trees, paths and an abstract
 * filesystem standing in for `os.path.exists`, `os.makedirs` and parsing with
 * `json5.load`.
 */
module Settings {
  import opened Wrappers

  /** A settings document: a JSON-like tagged union (objects, arrays, scalars). */
  datatype Tree =
    | Object(fields: map<string, Tree>)
    | Array(items: seq<Tree>)
    | Str(text: string)
    | Number(number: real)
    | Bool(flag: bool)
    | Null

  /** The empty object `{}` that both settings trees start from. */
  const Empty: Tree := Object(map[])

  /** `recursive_update(dst, src)`: the merged tree; its definition lives outside this model. */
  type Merge = (Tree, Tree) -> Tree

  /** A filesystem path as its list of components (what `os.path.join` joins). */
  type Path = seq<string>

  /** `os.path.join(root, name, *parts)`. */
  function Join(root: string, name: string, parts: seq<string>): Path
  {
    [root, name] + parts
  }

  /** `os.path.split(p)[0]`: the directory that contains `p` (empty for the empty path). */
  function Parent(p: Path): Path
  {
    if p == [] then [] else p[..|p| - 1]
  }

  /** Every non-empty prefix of `dir`: `dir` and all of its ancestors. */
  function Ancestors(dir: Path): (s: set<Path>)
    ensures dir != [] ==> dir in s
    ensures forall a :: a in s ==> a != [] && |a| <= |dir| && a == dir[..|a|]
  {
    assert dir[..|dir|] == dir;
    set k | 1 <= k <= |dir| :: dir[..k]
  }

  datatype LoadError =
    | NotFound(missing: Path)       // `open` raises FileNotFoundError
    | Unreadable(broken: Path)      // the path exists but cannot be opened or parsed

  /**
   * The state of the filesystem as the profile code sees it:
   * `existing` answers `os.path.exists`, `creatable` is where
   * `os.makedirs(dir, exist_ok=True)` succeeds, and `documents` holds what
   * `json5.load` yields for every file that opens and parses.
   */
  datatype FileSystem = FileSystem(existing: set<Path>, creatable: set<Path>, documents: map<Path, Tree>) {

    /** Whatever opens is also reported as existing. */
    predicate Consistent() {
      documents.Keys <= existing
    }

    /** `json5.load(open(p))`. */
    function Open(p: Path): Result<Tree, LoadError>
    {
      if p in documents then Ok(documents[p])
      else if p in existing then Err(Unreadable(p))
      else Err(NotFound(p))
    }

    /**
     * `os.makedirs(dir, exist_ok=True)`: on success `dir` and all of its
     * ancestors exist afterwards and nothing else changes; on failure
     * nothing changes.
     */
    function MakeDirs(dir: Path): (r: Option<FileSystem>)
      ensures Consistent() && r.Some? ==> r.value.Consistent()
    {
      if dir in creatable then Some(this.(existing := existing + Ancestors(dir))) else None
    }
  }
}
