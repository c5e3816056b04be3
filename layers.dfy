/**
 * Layer loading of a profile (`load_profile`) as a function of the system and
 * user roots, the layer selector and the filesystem. `recursive_update` is
 * the parameter `merge`: nothing is assumed about it, so every property below
 * is a statement about the order in which documents are merged.
 */
module Layers {
  import opened Wrappers
  import opened Settings
  import Paths

  const DefaultsFile: string := "defaults.json"
  const ProfileFile: string := "profile.json"

  /** The selector includes the defaults stage (`"all"` or `"defaults"`). */
  predicate LoadsDefaults(layers: string) {
    layers == "all" || layers == "defaults"
  }

  /** The selector includes the overlay stage (`"all"` or `"profile"`). */
  predicate LoadsOverlays(layers: string) {
    layers == "all" || layers == "profile"
  }

  /** `<system root>/defaults.json`. */
  function DefaultsPath(systemDir: string): Path {
    [systemDir, DefaultsFile]
  }

  /** `<system root>/<name>/profile.json`, the mandatory system profile. */
  function SystemProfilePath(systemDir: string, name: string): Path {
    Join(systemDir, name, [ProfileFile])
  }

  /** `xs[::-1]`. */
  function Reverse<T>(xs: seq<T>): seq<T>
  {
    seq(|xs|, i requires 0 <= i < |xs| => xs[|xs| - 1 - i])
  }

  /** The overlay files, `<root>/<name>/profile.json` for each root in reverse root order. */
  function OverlayPaths(roots: seq<string>, name: string): seq<Path> {
    Paths.Candidates(Reverse(roots), name, [ProfileFile])
  }

  /** `load_defaults(system_profiles_dir)`: the parsed `defaults.json` of the system root. */
  function LoadDefaults(systemDir: string, fs: FileSystem): (r: Result<Tree, LoadError>)
    ensures r.Ok? <==> DefaultsPath(systemDir) in fs.documents
    ensures r.Ok? ==> r.value == fs.documents[DefaultsPath(systemDir)]
  {
    fs.Open(DefaultsPath(systemDir))
  }

  /**
   * The overlay stage: every file of `paths` that exists is parsed and merged
   * into the tree, in the order of `paths`; a file that does not exist is
   * skipped, and one that exists but does not parse aborts the load.
   */
  function Overlay(t: Tree, paths: seq<Path>, fs: FileSystem, merge: Merge): (r: Result<Tree, LoadError>)
    ensures r.Ok? <==> forall p :: p in paths && p in fs.existing ==> p in fs.documents
    ensures r.Err? ==> r.error.Unreadable? && r.error.broken in paths
                       && r.error.broken in fs.existing && r.error.broken !in fs.documents
    ensures (forall p :: p in paths ==> p !in fs.existing) ==> r == Ok(t)
  {
    if paths == [] then Ok(t)
    else
      var before :- Overlay(t, paths[..|paths| - 1], fs, merge);
      var p := paths[|paths| - 1];
      if p !in fs.existing then Ok(before)
      else
        var doc :- fs.Open(p);
        Ok(merge(before, doc))
  }

  /** Once a prefix of the overlay files aborts the load, the whole overlay stage aborts with that error. */
  lemma {:induction false} OverlayErrorPersists(t: Tree, paths: seq<Path>, k: nat, fs: FileSystem, merge: Merge)
    requires k <= |paths| && Overlay(t, paths[..k], fs, merge).Err?
    ensures Overlay(t, paths, fs, merge) == Overlay(t, paths[..k], fs, merge)
    decreases |paths| - k
  {
    if k < |paths| {
      var init := paths[..|paths| - 1];
      assert init[..k] == paths[..k];
      OverlayErrorPersists(t, init, k, fs, merge);
    } else {
      assert paths[..k] == paths;
    }
  }

  /** What a successful load leaves in the profile. */
  datatype Loaded = Loaded(json: Tree, systemJson: Tree, jsonPath: Path)

  /** The tree both settings trees start from: the defaults when the selector loads them, else `{}`. */
  function StartTree(systemDir: string, layers: string, fs: FileSystem): Result<Tree, LoadError> {
    if LoadsDefaults(layers) then LoadDefaults(systemDir, fs) else Ok(Empty)
  }

  /**
   * `load_profile()` for the roots `[user_dir, system_dir]`: the defaults stage,
   * the system profile merged into `system_json` only, the path of
   * `profile.json` as `read_path` finds it, and the overlay stage over the
   * roots in reverse order, merging into `json`.
   */
  function Load(name: string, systemDir: string, userDir: string, layers: string, fs: FileSystem, merge: Merge)
    : (r: Result<Loaded, LoadError>)
    ensures r.Ok? <==> && (LoadsDefaults(layers) ==> DefaultsPath(systemDir) in fs.documents)
                       && SystemProfilePath(systemDir, name) in fs.documents
                       && (LoadsOverlays(layers) ==>
                             forall p :: (p in OverlayPaths([userDir, systemDir], name) && p in fs.existing)
                                         ==> p in fs.documents)
  {
    var base :- StartTree(systemDir, layers, fs);
    var system :- fs.Open(SystemProfilePath(systemDir, name));
    var jsonPath := Paths.ResolveRead([userDir, systemDir], name, [ProfileFile], fs.existing);
    var json :- if LoadsOverlays(layers) then Overlay(base, OverlayPaths([userDir, systemDir], name), fs, merge)
                else Ok(base);
    Ok(Loaded(json, merge(base, system), jsonPath.value))
  }

  /**
   * The mandatory files: a missing or unparsable `defaults.json` (when the
   * selector loads it) aborts the load with its error, and so, next, does the
   * system `profile.json`.
   */
  lemma LoadMandatoryFiles(name: string, systemDir: string, userDir: string, layers: string,
                           fs: FileSystem, merge: Merge)
    ensures var d := DefaultsPath(systemDir);
            LoadsDefaults(layers) && d !in fs.documents
            ==> Load(name, systemDir, userDir, layers, fs, merge)
                == Err(if d in fs.existing then Unreadable(d) else NotFound(d))
    ensures var d, s := DefaultsPath(systemDir), SystemProfilePath(systemDir, name);
            (LoadsDefaults(layers) ==> d in fs.documents) && s !in fs.documents
            ==> Load(name, systemDir, userDir, layers, fs, merge)
                == Err(if s in fs.existing then Unreadable(s) else NotFound(s))
    ensures Load(name, systemDir, userDir, layers, fs, merge).Ok?
            ==> (LoadsDefaults(layers) ==> DefaultsPath(systemDir) in fs.documents)
                && SystemProfilePath(systemDir, name) in fs.documents
  {
  }

  /**
   * `system_json` is the system profile merged into the defaults (into `{}`
   * when the selector skips the defaults), whatever the overlay files hold.
   */
  lemma LoadSystemJson(name: string, systemDir: string, userDir: string, layers: string,
                       fs: FileSystem, merge: Merge)
    requires Load(name, systemDir, userDir, layers, fs, merge).Ok?
    ensures var d := if LoadsDefaults(layers) then fs.documents[DefaultsPath(systemDir)] else Empty;
            Load(name, systemDir, userDir, layers, fs, merge).value.systemJson
            == merge(d, fs.documents[SystemProfilePath(systemDir, name)])
  {
  }

  /**
   * With the overlay stage, `json` is the defaults, then the system root's
   * `profile.json` (the same file as the system profile), then the user
   * root's when it exists: the user's settings are merged last. An existing
   * user file that does not parse aborts the load.
   */
  lemma {:induction false} LoadOverlayOrder(name: string, systemDir: string, userDir: string, layers: string,
                                           fs: FileSystem, merge: Merge)
    requires fs.Consistent() && LoadsOverlays(layers)
    requires LoadsDefaults(layers) ==> DefaultsPath(systemDir) in fs.documents
    requires SystemProfilePath(systemDir, name) in fs.documents
    ensures var d := if LoadsDefaults(layers) then fs.documents[DefaultsPath(systemDir)] else Empty;
            var system := fs.documents[SystemProfilePath(systemDir, name)];
            var u := Join(userDir, name, [ProfileFile]);
            var r := Load(name, systemDir, userDir, layers, fs, merge);
            && (u !in fs.existing ==> r.Ok? && r.value.json == merge(d, system))
            && (u in fs.documents ==> r.Ok? && r.value.json == merge(merge(d, system), fs.documents[u]))
            && (u in fs.existing && u !in fs.documents ==> r == Err(Unreadable(u)))
  {
    var d := if LoadsDefaults(layers) then fs.documents[DefaultsPath(systemDir)] else Empty;
    var s := SystemProfilePath(systemDir, name);
    var u := Join(userDir, name, [ProfileFile]);
    var paths := OverlayPaths([userDir, systemDir], name);
    assert paths == [s, u];
    assert paths[..1] == [s] && paths[..1][..0] == [];
    assert Overlay(d, paths[..1], fs, merge) == Ok(merge(d, fs.documents[s]));
  }

  /**
   * Without the overlay stage (`"defaults"` or an unknown selector), no
   * profile file reaches `json`: it is exactly what `load_defaults` reads
   * with `"defaults"`, and `{}` otherwise.
   */
  lemma LoadWithoutOverlays(name: string, systemDir: string, userDir: string, layers: string,
                            fs: FileSystem, merge: Merge)
    requires !LoadsOverlays(layers)
    requires LoadsDefaults(layers) ==> DefaultsPath(systemDir) in fs.documents
    requires SystemProfilePath(systemDir, name) in fs.documents
    ensures Load(name, systemDir, userDir, layers, fs, merge).Ok?
    ensures var json := Load(name, systemDir, userDir, layers, fs, merge).value.json;
            if layers == "defaults" then LoadDefaults(systemDir, fs) == Ok(json) else json == Empty
  {
  }
}
