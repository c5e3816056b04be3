/**
 * The profile handle: its name, its two roots in read order, the layer
 * selector and the two settings trees that loading fills in. Its methods are
 * the loops of the Python class `Profile`, each proved to compute the corresponding
 * function of `Paths` or `Layers`.
 */
module Profiles {
  import opened Wrappers
  import opened Settings
  import Paths
  import Layers

  class Profile {
    const name: string
    const systemProfilesDir: string
    const userProfilesDir: string
    /** The roots in read order: the user root first, then the system root. */
    const profilesDirs: seq<string> := [userProfilesDir, systemProfilesDir]
    const layers: string

    var json: Tree
    var systemJson: Tree
    var jsonPath: Path

    /** The handle before loading: both trees are `{}`. */
    constructor (name: string, systemProfilesDir: string, userProfilesDir: string, layers: string := "all")
      ensures this.name == name && this.systemProfilesDir == systemProfilesDir
      ensures this.userProfilesDir == userProfilesDir && this.layers == layers
      ensures json == Empty && systemJson == Empty && jsonPath == []
    {
      this.name := name;
      this.systemProfilesDir := systemProfilesDir;
      this.userProfilesDir := userProfilesDir;
      this.layers := layers;
      json := Empty;
      systemJson := Empty;
      jsonPath := [];
    }

    /**
     * `Profile(name, system_profiles_dir, user_profiles_dir, layers)`: builds
     * the handle and loads it; a load that raises yields no handle.
     */
    static method Create(name: string, systemProfilesDir: string, userProfilesDir: string,
                         fs: FileSystem, merge: Merge, layers: string := "all")
      returns (r: Result<Profile, LoadError>)
      ensures match Layers.Load(name, systemProfilesDir, userProfilesDir, layers, fs, merge)
              case Ok(l) =>
                && r.Ok? && fresh(r.value)
                && r.value.name == name && r.value.layers == layers
                && r.value.profilesDirs == [userProfilesDir, systemProfilesDir]
                && r.value.json == l.json && r.value.systemJson == l.systemJson && r.value.jsonPath == l.jsonPath
              case Err(e) => r == Err(e)
    {
      var profile := new Profile(name, systemProfilesDir, userProfilesDir, layers);
      var outcome := profile.LoadProfile(fs, merge);
      if outcome.Fail? {
        return Err(outcome.error);
      }
      return Ok(profile);
    }

    /** `load_profile()`: fills `json`, `system_json` and `json_path` as `Layers.Load` describes. */
    method LoadProfile(fs: FileSystem, merge: Merge) returns (outcome: Outcome<LoadError>)
      modifies this
      ensures match Layers.Load(name, systemProfilesDir, userProfilesDir, layers, fs, merge)
              case Ok(l) => outcome == Pass && json == l.json && systemJson == l.systemJson && jsonPath == l.jsonPath
              case Err(e) => outcome == Fail(e)
    {
      json := Empty;
      systemJson := Empty;

      if Layers.LoadsDefaults(layers) {
        // The source parses the file twice so that the two trees share nothing;
        // trees are values here, so one parse serves both.
        var defaults := fs.Open(Layers.DefaultsPath(systemProfilesDir));
        if defaults.Err? {
          return Fail(defaults.error);
        }
        json := defaults.value;
        systemJson := defaults.value;
      }

      var system := fs.Open(Layers.SystemProfilePath(systemProfilesDir, name));
      if system.Err? {
        return Fail(system.error);
      }
      systemJson := merge(systemJson, system.value);

      var found := ReadPath(fs, [Layers.ProfileFile]);
      jsonPath := found.value;

      if Layers.LoadsOverlays(layers) {
        outcome := ApplyOverlays(fs, merge);
        return;
      }
      return Pass;
    }

    /**
     * The overlay stage of `load_profile()`: for each root in reverse root
     * order, merges its `profile.json` into `json` when the file exists.
     */
    method ApplyOverlays(fs: FileSystem, merge: Merge) returns (outcome: Outcome<LoadError>)
      modifies this`json
      ensures match Layers.Overlay(old(json), Layers.OverlayPaths(profilesDirs, name), fs, merge)
              case Ok(t) => outcome == Pass && json == t
              case Err(e) => outcome == Fail(e)
    {
      var dirs := Layers.Reverse(profilesDirs);
      ghost var paths := Layers.OverlayPaths(profilesDirs, name);
      ghost var base := json;
      for i := 0 to |dirs|
        invariant Layers.Overlay(base, paths[..i], fs, merge) == Ok(json)
      {
        var path := Join(dirs[i], name, [Layers.ProfileFile]);
        assert paths[..i + 1][..i] == paths[..i];
        if path in fs.existing {
          var doc := fs.Open(path);
          if doc.Err? {
            Layers.OverlayErrorPersists(base, paths, i + 1, fs, merge);
            return Fail(doc.error);
          }
          json := merge(json, doc.value);
        }
      }
      assert paths[..|dirs|] == paths;
      return Pass;
    }

    /** `read_path(*parts)`: the first existing candidate in root order, else the base fallback. */
    method ReadPath(fs: FileSystem, parts: seq<string>) returns (r: Result<Path, Paths.ResolveError>)
      ensures r == Paths.ResolveRead(profilesDirs, name, parts, fs.existing)
    {
      for i := 0 to |profilesDirs|
        invariant forall j :: 0 <= j < i ==> Join(profilesDirs[j], name, parts) !in fs.existing
      {
        var fullPath := Join(profilesDirs[i], name, parts);
        if fullPath in fs.existing {
          return Ok(fullPath);
        }
      }
      if parts == [] {
        return Err(Paths.NoPathParts);
      }
      return Ok(Paths.ReadFallback(name, parts));
    }

    /** `read_paths(*parts)`: every existing candidate, appended in root order. */
    method ReadPaths(fs: FileSystem, parts: seq<string>) returns (found: seq<Path>)
      ensures found == Paths.ResolveReadAll(profilesDirs, name, parts, fs.existing)
      ensures |found| <= 2
    {
      found := [];
      ghost var candidates := Paths.Candidates(profilesDirs, name, parts);
      for i := 0 to |profilesDirs|
        invariant found == Paths.KeepIn(candidates[..i], fs.existing)
      {
        var fullPath := Join(profilesDirs[i], name, parts);
        assert candidates[..i + 1][..i] == candidates[..i];
        if fullPath in fs.existing {
          found := found + [fullPath];
        }
      }
      assert candidates[..|profilesDirs|] == candidates;
    }

    /**
     * `write_path(*parts)`: tries to create the containing directory under
     * each root in turn, then under the base fallback; returns the chosen
     * path and the filesystem after the successful `makedirs`.
     */
    method WritePath(fs: FileSystem, parts: seq<string>) returns (r: Result<Path, Paths.ResolveError>, after: FileSystem)
      ensures r == Paths.ResolveWrite(profilesDirs, name, parts, fs.creatable)
      ensures after == if r.Ok? then fs.MakeDirs(Parent(r.value)).value else fs
      ensures r.Ok? ==> Parent(r.value) in after.existing
    {
      for i := 0 to |profilesDirs|
        invariant forall j :: 0 <= j < i ==> Parent(Join(profilesDirs[j], name, parts)) !in fs.creatable
      {
        var fullPath := Join(profilesDirs[i], name, parts);
        var made := fs.MakeDirs(Parent(fullPath));
        if made.Some? {
          return Ok(fullPath), made.value;
        }
        // the source logs the failure and tries the next root
      }
      var fullPath := Paths.WriteFallback(name, parts);
      var made := fs.MakeDirs(Parent(fullPath));
      if made.None? {
        return Err(Paths.CannotCreate(Parent(fullPath))), fs;
      }
      return Ok(fullPath), made.value;
    }

    /**
     * `write_dir(*parts)`: like `WritePath`, but the directory created is the
     * returned path itself.
     */
    method WriteDir(fs: FileSystem, parts: seq<string>) returns (r: Result<Path, Paths.ResolveError>, after: FileSystem)
      ensures r == Paths.ResolveWriteDir(profilesDirs, name, parts, fs.creatable)
      ensures after == if r.Ok? then fs.MakeDirs(r.value).value else fs
      ensures r.Ok? ==> r.value in after.existing
    {
      for i := 0 to |profilesDirs|
        invariant forall j :: 0 <= j < i ==> Join(profilesDirs[j], name, parts) !in fs.creatable
      {
        var dirPath := Join(profilesDirs[i], name, parts);
        var made := fs.MakeDirs(dirPath);
        if made.Some? {
          return Ok(dirPath), made.value;
        }
        // the source logs the failure and tries the next root
      }
      var dirPath := Paths.WriteFallback(name, parts);
      var made := fs.MakeDirs(dirPath);
      if made.None? {
        return Err(Paths.CannotCreate(dirPath)), fs;
      }
      return Ok(dirPath), made.value;
    }
  }
}
