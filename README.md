# Rhasspy profile settings: path resolution and layer loading

A model of `rhasspy/profiles.py`, the class `Profile` that holds Rhasspy's
settings for one named profile. A profile lives in two directory trees, the
user root and the system root, kept in that order (`profiles_dirs`). The model
covers:

- **Path resolution.** `read_path` returns the first `root/name/parts...` that exists.
  If none exists, it falls back to `profiles/name/<last part>`. `read_paths`
  returns every existing candidate. `write_path` and `write_dir` return the
  first candidate whose directory `os.makedirs` can create, and fall back to
  `profiles/name/parts...`.
- **Layer loading.** `load_profile` builds two settings trees.
  - `system_json` is the defaults plus the system `profile.json`.
  - `json` is the defaults plus each root's `profile.json`, merged in reverse
    root order, so the user's settings come last.
  - The `layers` selector (`"all"`, `"defaults"` or `"profile"`) decides which
    stages run.

The filesystem is a value (`Settings.FileSystem`) with three parts:

- the set of paths `os.path.exists` reports;
- the set of directories `os.makedirs(..., exist_ok=True)` can create;
- the parsed document of every file that opens and parses.

Paths are lists of components. The write operations return the filesystem as
it is after the directory creation they perform. `recursive_update` (in
`rhasspy.utils`, which is not part of this model) is a parameter
`merge: (Tree, Tree) -> Tree` about which nothing is assumed. So every
property of the loader is a statement about which documents are merged, and
in which order.

Files:

- `wrappers.dfy`: result types.
- `settings.dfy`: trees, paths and the filesystem.
- `paths.dfy`: the resolution functions and their properties.
- `layers.dfy`: the loading function and its properties.
- `profiles.dfy`: the class `Profile`. Its loops are proved to compute exactly
  those functions.

Behaviours of the code worth noting:

- With `layers == "defaults"`, `json` is just the defaults. The system profile
  is merged only into `system_json` (line 75). It reaches `json` only through
  the overlay loop (lines 79-85), and that loop does not run for this
  selector.
- A selector other than the three names runs neither optional stage.
- An overlay file that exists but does not parse aborts the load.
- `read_path` with no parts raises `IndexError` in its fallback. That is the
  error `NoPathParts`.

## Model

| member | source | states |
|---|---|---|
| Paths.ResolveRead | rhasspy/profiles.py:87-97 | the result is the candidate of the first root where it exists. If no candidate exists, it is `profiles/name/<last part>`, unchecked, or an error when there are no parts. Nothing else is an error |
| Paths.ResolveReadAll | rhasspy/profiles.py:99-110 | the result holds exactly the existing candidates, at most one per root |
| Paths.ReadPathHeadsReadPaths | rhasspy/profiles.py:87-110 | `read_path` returns the first entry of `read_paths`. It uses its fallback exactly when `read_paths` is empty |
| Paths.ReadPrecedence | rhasspy/profiles.py:89-94 | with roots `[user, system]`, an existing user path wins. The system path is returned only when the user path is missing |
| Paths.ReadAllUserThenSystem | rhasspy/profiles.py:101-110 | with roots `[user, system]`, `read_paths` is the user path, if it exists, followed by the system path, if it exists |
| Paths.ResolveWrite | rhasspy/profiles.py:112-130 | the result is the candidate of the first root whose containing directory can be created. Otherwise it is `profiles/name/parts...`, or an error naming that fallback's directory when it cannot be created. The containing directory of any result can be created |
| Paths.ResolveWriteDir | rhasspy/profiles.py:132-148 | the same first-success order, where the directory that must be creatable is the returned path itself. The fallback `profiles/name/parts...` is an error when it cannot be created |
| Paths.FallbacksDiffer | rhasspy/profiles.py:96-130 | when no root is usable and there are two or more parts, `write_path` keeps every part but `read_path` keeps only the last, so they name different files |
| Paths.WriteDirThenRead | rhasspy/profiles.py:132-148 | after `write_dir` prepares a directory under a root, `read_path` of the same parts finds a root directory. It finds the user one when the user root was chosen |
| Layers.Load | rhasspy/profiles.py:56-85 | the load succeeds exactly when `defaults.json` parses (if the selector loads it), the system `profile.json` parses, and (with the overlay stage) every existing overlay file parses. Its results are stated by `LoadMandatoryFiles`, `LoadSystemJson`, `LoadOverlayOrder` and `LoadWithoutOverlays` |
| Layers.LoadDefaults | rhasspy/profiles.py:36-42 | succeeds exactly when the system root's `defaults.json` parses, and yields that document |
| Layers.Overlay | rhasspy/profiles.py:81-85 | succeeds exactly when every existing overlay file parses. Any failure names an existing file that does not parse. When no file exists, the tree is unchanged |
| Layers.OverlayErrorPersists | rhasspy/profiles.py:81-85 | an overlay file that fails aborts the whole overlay stage with its error |
| Layers.LoadMandatoryFiles | rhasspy/profiles.py:62-75 | a missing or unparsable `defaults.json` (when selected) is the load's error. Otherwise a missing or unparsable system `profile.json` is. A successful load had both files |
| Layers.LoadSystemJson | rhasspy/profiles.py:59-75 | `system_json == merge(D, P_sys)`, where D is the defaults, or `{}` when the selector skips them |
| Layers.LoadOverlayOrder | rhasspy/profiles.py:77-85 | with the overlay stage, `json == merge(merge(D, P_sys), P_user)` when the user file parses. It is `merge(D, P_sys)` when the user file is missing, and the load fails when the user file exists but does not parse |
| Layers.LoadWithoutOverlays | rhasspy/profiles.py:59-85 | without the overlay stage, the load succeeds when both mandatory files parse, and `json` is exactly what `load_defaults` reads (selector `"defaults"`), or `{}` |
| Profiles.Profile.constructor | rhasspy/profiles.py:19-31 | stores the name, the roots in the order `[user, system]` and the selector, which defaults to `"all"` |
| Profiles.Profile.Create | rhasspy/profiles.py:19-32 | a fresh handle whose trees and `json_path` are those of `Layers.Load`, or the load's error and no handle |
| Profiles.Profile.LoadProfile | rhasspy/profiles.py:56-85 | sets `json`, `system_json` and `json_path` to what `Layers.Load` gives, or fails with its error |
| Profiles.Profile.ApplyOverlays | rhasspy/profiles.py:79-85 | after the loop over the reversed roots, `json` is `Layers.Overlay` of the old `json`, or the loop fails with its error |
| Profiles.Profile.ReadPath | rhasspy/profiles.py:87-97 | the loop with early return computes `Paths.ResolveRead` over the handle's roots |
| Profiles.Profile.ReadPaths | rhasspy/profiles.py:99-110 | the appending loop computes `Paths.ResolveReadAll`, with at most two entries |
| Profiles.Profile.WritePath | rhasspy/profiles.py:112-130 | computes `Paths.ResolveWrite`. The filesystem changes only by the successful `makedirs`, after which the returned path's directory exists |
| Profiles.Profile.WriteDir | rhasspy/profiles.py:132-148 | computes `Paths.ResolveWriteDir`. The filesystem changes only by the successful `makedirs`, after which the returned directory exists |

## Left out

- `json5` parsing and opening files: each parsed document is given in the filesystem value. A file missing from it fails to open (`NotFound`) or to parse (`Unreadable`).
- The body of `recursive_update`: it is the `merge` parameter. No merge law (idempotence, deep-merge behaviour) is stated or used.
- `get` and `set`: wrappers over `pydash` dotted-path access, whose semantics are not part of this model.
- Logging of failed directory creation: the model only moves on to the next root.
- `os.path.join` string semantics: a root is a single path component, and an absolute later component does not reset the path.
- Profiles.Profile.WritePath: a failed `os.makedirs` leaves the filesystem unchanged, although a real one may have created some ancestors before failing.
- Profiles.Profile.WriteDir: a failed `os.makedirs` leaves the filesystem unchanged, although a real one may have created some ancestors before failing.
- Aliasing between `json` and `system_json`: trees are values, so the two separate parses of `defaults.json` are modelled as one document read once.
- Profiles.Profile.ApplyOverlays: the loop of `load_profile` is its own method.
- Profiles.Profile.LoadProfile: a failed load leaves the fields partly assigned, as in the source. No handle is returned then.
