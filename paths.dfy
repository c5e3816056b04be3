/**
 * Path resolution of a profile: `read_path`, `read_paths`, `write_path` and
 * `write_dir` as functions of an ordered root list, a profile name, the
 * requested parts and the state of the filesystem. The profile's methods are
 * proved to compute exactly these.
 */
module Paths {
  import opened Wrappers
  import opened Settings

  /** The relative base directory used when no root works. */
  const Base: string := "profiles"

  datatype ResolveError =
    | NoPathParts               // `path_parts[-1]` on no parts raises IndexError
    | CannotCreate(dir: Path)   // `os.makedirs` of the fallback directory raised

  /** `root/name/parts` for every root, in root order. */
  function Candidates(roots: seq<string>, name: string, parts: seq<string>): (cs: seq<Path>)
    ensures |cs| == |roots| && forall i :: 0 <= i < |roots| ==> cs[i] == Join(roots[i], name, parts)
  {
    seq(|roots|, i requires 0 <= i < |roots| => Join(roots[i], name, parts))
  }

  /** The directory containing each candidate, in root order. */
  function ContainingDirs(roots: seq<string>, name: string, parts: seq<string>): (ds: seq<Path>)
    ensures |ds| == |roots| && forall i :: 0 <= i < |roots| ==> ds[i] == Parent(Join(roots[i], name, parts))
  {
    seq(|roots|, i requires 0 <= i < |roots| => Parent(Join(roots[i], name, parts)))
  }

  /** The fallback of `read_path`: the base directory, the name and only the last part. */
  function ReadFallback(name: string, parts: seq<string>): Path
    requires parts != []
  {
    [Base, name, parts[|parts| - 1]]
  }

  /** The fallback of `write_path` and `write_dir`: the base directory, the name and every part. */
  function WriteFallback(name: string, parts: seq<string>): Path
  {
    [Base, name] + parts
  }

  /** The index of the first of `ps` that lies in `good`, or `|ps|` when none does. */
  function FirstIn(ps: seq<Path>, good: set<Path>): (k: nat)
    ensures k <= |ps|
    ensures forall j :: 0 <= j < k ==> ps[j] !in good
    ensures k < |ps| ==> ps[k] in good
    ensures forall i :: 0 <= i < |ps| && ps[i] in good ==> k <= i
  {
    if ps == [] then 0
    else if ps[0] in good then 0
    else 1 + FirstIn(ps[1..], good)
  }

  /** The members of `ps` that lie in `good`, in their order in `ps`. */
  function KeepIn(ps: seq<Path>, good: set<Path>): (r: seq<Path>)
    ensures |r| <= |ps|
    ensures forall p :: p in r <==> p in ps && p in good
  {
    if ps == [] then []
    else
      var last := ps[|ps| - 1];
      KeepIn(ps[..|ps| - 1], good) + (if last in good then [last] else [])
  }

  /** The first member of `ps` in `good` is the head of the members of `ps` in `good`. */
  lemma {:induction false} FirstInHeadsKeepIn(ps: seq<Path>, good: set<Path>)
    ensures FirstIn(ps, good) < |ps| <==> KeepIn(ps, good) != []
    ensures FirstIn(ps, good) < |ps| ==> KeepIn(ps, good)[0] == ps[FirstIn(ps, good)]
  {
    if ps != [] {
      var init := ps[..|ps| - 1];
      FirstInHeadsKeepIn(init, good);
      var k := FirstIn(init, good);
      if k < |init| {
        assert init[k] == ps[k];
        assert FirstIn(ps, good) == k;
      } else {
        assert forall j :: 0 <= j < |init| ==> ps[j] == init[j];
        assert KeepIn(init, good) == [];
      }
    }
  }

  /**
   * `read_path(*parts)`: the candidate of the first root under which it
   * exists; when none exists, the fallback keeping only the last part, which
   * is not checked for existence (and is an error when there are no parts).
   */
  function ResolveRead(roots: seq<string>, name: string, parts: seq<string>, existing: set<Path>)
    : (r: Result<Path, ResolveError>)
    ensures forall i :: 0 <= i < |roots| && Join(roots[i], name, parts) in existing
                        && (forall j :: 0 <= j < i ==> Join(roots[j], name, parts) !in existing)
                        ==> r == Ok(Join(roots[i], name, parts))
    ensures (forall i :: 0 <= i < |roots| ==> Join(roots[i], name, parts) !in existing)
            ==> r == if parts == [] then Err(NoPathParts) else Ok(ReadFallback(name, parts))
    ensures r.Err? <==> parts == [] && r == Err(NoPathParts)
  {
    var cs := Candidates(roots, name, parts);
    var k := FirstIn(cs, existing);
    if k < |cs| then Ok(cs[k])
    else if parts == [] then Err(NoPathParts)
    else Ok(ReadFallback(name, parts))
  }

  /** `read_paths(*parts)`: every existing candidate, in root order, with no fallback. */
  function ResolveReadAll(roots: seq<string>, name: string, parts: seq<string>, existing: set<Path>)
    : (r: seq<Path>)
    ensures |r| <= |roots|
    ensures forall p :: p in r <==> p in existing && p in Candidates(roots, name, parts)
  {
    KeepIn(Candidates(roots, name, parts), existing)
  }

  /** `read_path` answers the first entry of `read_paths`, and falls back exactly when that is empty. */
  lemma ReadPathHeadsReadPaths(roots: seq<string>, name: string, parts: seq<string>, existing: set<Path>)
    ensures var all := ResolveReadAll(roots, name, parts, existing);
            all != [] ==> ResolveRead(roots, name, parts, existing) == Ok(all[0])
    ensures var all := ResolveReadAll(roots, name, parts, existing);
            all == [] ==> ResolveRead(roots, name, parts, existing)
                          == if parts == [] then Err(NoPathParts) else Ok(ReadFallback(name, parts))
  {
    FirstInHeadsKeepIn(Candidates(roots, name, parts), existing);
  }

  /** With the roots `[user, system]`, a path under the user root wins over one under the system root. */
  lemma ReadPrecedence(user: string, system: string, name: string, parts: seq<string>, existing: set<Path>)
    ensures Join(user, name, parts) in existing
            ==> ResolveRead([user, system], name, parts, existing) == Ok(Join(user, name, parts))
    ensures Join(user, name, parts) !in existing && Join(system, name, parts) in existing
            ==> ResolveRead([user, system], name, parts, existing) == Ok(Join(system, name, parts))
  {
    if Join(user, name, parts) !in existing && Join(system, name, parts) in existing {
      var roots := [user, system];
      assert forall j :: 0 <= j < 1 ==> Join(roots[j], name, parts) !in existing;
      assert Join(roots[1], name, parts) in existing;
    }
  }

  /** With the roots `[user, system]`, `read_paths` is the user candidate then the system one, each if it exists. */
  lemma ReadAllUserThenSystem(user: string, system: string, name: string, parts: seq<string>, existing: set<Path>)
    ensures var u, s := Join(user, name, parts), Join(system, name, parts);
            ResolveReadAll([user, system], name, parts, existing)
            == (if u in existing then [u] else []) + (if s in existing then [s] else [])
  {
    var cs := Candidates([user, system], name, parts);
    assert cs == [Join(user, name, parts), Join(system, name, parts)];
    var u, s := Join(user, name, parts), Join(system, name, parts);
    assert cs[..1][..0] == [];
    assert KeepIn(cs[..1], existing) == (if u in existing then [u] else []);
    assert cs[..|cs| - 1] == cs[..1];
  }

  /**
   * `write_path(*parts)`: the candidate of the first root whose containing
   * directory can be created; when none can, the fallback keeping every part,
   * which is an error when its own containing directory cannot be created.
   */
  function ResolveWrite(roots: seq<string>, name: string, parts: seq<string>, creatable: set<Path>)
    : (r: Result<Path, ResolveError>)
    ensures forall i :: 0 <= i < |roots| && Parent(Join(roots[i], name, parts)) in creatable
                        && (forall j :: 0 <= j < i ==> Parent(Join(roots[j], name, parts)) !in creatable)
                        ==> r == Ok(Join(roots[i], name, parts))
    ensures (forall i :: 0 <= i < |roots| ==> Parent(Join(roots[i], name, parts)) !in creatable)
            ==> var f := WriteFallback(name, parts);
                r == if Parent(f) in creatable then Ok(f) else Err(CannotCreate(Parent(f)))
    ensures r.Ok? ==> Parent(r.value) in creatable
  {
    var cs := Candidates(roots, name, parts);
    var k := FirstIn(ContainingDirs(roots, name, parts), creatable);
    if k < |cs| then Ok(cs[k])
    else
      var f := WriteFallback(name, parts);
      if Parent(f) in creatable then Ok(f) else Err(CannotCreate(Parent(f)))
  }

  /**
   * `write_dir(*parts)`: like `write_path`, except that the directory that
   * must be creatable is the candidate itself rather than its parent.
   */
  function ResolveWriteDir(roots: seq<string>, name: string, parts: seq<string>, creatable: set<Path>)
    : (r: Result<Path, ResolveError>)
    ensures forall i :: 0 <= i < |roots| && Join(roots[i], name, parts) in creatable
                        && (forall j :: 0 <= j < i ==> Join(roots[j], name, parts) !in creatable)
                        ==> r == Ok(Join(roots[i], name, parts))
    ensures (forall i :: 0 <= i < |roots| ==> Join(roots[i], name, parts) !in creatable)
            ==> var f := WriteFallback(name, parts);
                r == if f in creatable then Ok(f) else Err(CannotCreate(f))
    ensures r.Ok? ==> r.value in creatable
  {
    var cs := Candidates(roots, name, parts);
    var k := FirstIn(cs, creatable);
    if k < |cs| then Ok(cs[k])
    else
      var f := WriteFallback(name, parts);
      if f in creatable then Ok(f) else Err(CannotCreate(f))
  }

  /**
   * When no root is usable, `write_path` and `read_path` fall back to
   * different files as soon as there are two or more parts: the write keeps
   * the intermediate parts, the read drops them.
   */
  lemma FallbacksDiffer(roots: seq<string>, name: string, parts: seq<string>, fs: FileSystem)
    requires |parts| >= 2
    requires forall i :: 0 <= i < |roots| ==> Join(roots[i], name, parts) !in fs.existing
    requires forall i :: 0 <= i < |roots| ==> Parent(Join(roots[i], name, parts)) !in fs.creatable
    requires Parent(WriteFallback(name, parts)) in fs.creatable
    ensures ResolveWrite(roots, name, parts, fs.creatable) == Ok([Base, name] + parts)
    ensures ResolveRead(roots, name, parts, fs.existing) == Ok([Base, name, parts[|parts| - 1]])
    ensures ResolveWrite(roots, name, parts, fs.creatable) != ResolveRead(roots, name, parts, fs.existing)
  {
  }

  /**
   * With the roots `[user, system]`: once `write_dir` has prepared a
   * directory under a root, `read_path` of the same parts finds a directory
   * under a root, never the fallback, and the user one when the user root
   * was chosen.
   */
  lemma WriteDirThenRead(user: string, system: string, name: string, parts: seq<string>, fs: FileSystem)
    requires ResolveWriteDir([user, system], name, parts, fs.creatable).Ok?
    ensures var d := ResolveWriteDir([user, system], name, parts, fs.creatable).value;
            var after := fs.MakeDirs(d).value.existing;
            && (d == Join(user, name, parts) ==> ResolveRead([user, system], name, parts, after) == Ok(d))
            && (d == Join(system, name, parts) ==> ResolveRead([user, system], name, parts, after)
                                                   in {Ok(Join(user, name, parts)), Ok(d)})
  {
    var d := ResolveWriteDir([user, system], name, parts, fs.creatable).value;
    var after := fs.MakeDirs(d).value.existing;
    assert d in after;
    ReadPrecedence(user, system, name, parts, after);
  }
}
