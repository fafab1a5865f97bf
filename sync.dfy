/** The sync command (src/sync.ts): for every project definition found
    under the library's import paths, find or create the project's albums
    in the remote library, match the project's files to remote assets, add
    each album's assets to it, and collect the proxy videos into an SQL
    update script. The remote library, the file system and the glob
    scanner are inputs. */
module Sync {
  import opened Wrappers
  import opened Strings
  import opened Seqs
  import opened PathAlias
  import opened Project

  const RequiredEnvVars: seq<string> := ["IMMICH_BASE_URL", "IMMICH_API_KEY", "IMMICH_LIBRARY_NAME"]

  /** The extensions used when `IMMICH_FILE_EXTENSIONS` is not set. */
  const DefaultExtensions: seq<string> := [".JPG", ".MOV", ".MP4", ".PNG", ".jpg", ".mov", ".mp4", ".png"]

  /** An external library of the remote server; `importPaths` is `None`
      when the field is missing or not an array. */
  datatype Library = Library(id: string, name: string, importPaths: Option<seq<string>>)

  /** The errors that end a sync run. `NullSubAlbum` is the model's tag
      for the TypeError a `null` sub-album entry raises (reading `suffix`
      of `null`); the program's message does not name the project. */
  datatype SyncError =
    | MissingEnv(variable: string)
    | LibraryNotFound(name: string)
    | ImportPathsNotArray
    | NullSubAlbum(project: string)

  // ---------------------------------------------------------------------
  // Environment and library

  /** An environment variable as `!Bun.env[v]` tests it: unset or empty. */
  predicate Unset(env: map<string, string>, v: string) {
    v !in env || env[v] == ""
  }

  /** The first of `vars` that is unset, in order. */
  function FirstUnset(env: map<string, string>, vars: seq<string>): (r: Option<string>)
    ensures r.None? <==> forall k :: 0 <= k < |vars| ==> !Unset(env, vars[k])
    ensures r.Some? ==> exists k :: 0 <= k < |vars| && vars[k] == r.value && Unset(env, r.value)
                                    && forall j :: 0 <= j < k ==> !Unset(env, vars[j])
  {
    if vars == [] then None
    else if Unset(env, vars[0]) then Some(vars[0])
    else
      var r := FirstUnset(env, vars[1..]);
      assert forall k :: 1 <= k < |vars| ==> vars[k] == vars[1..][k - 1];
      if r.Some? then
        var k :| 0 <= k < |vars[1..]| && vars[1..][k] == r.value && Unset(env, r.value)
                 && forall j :: 0 <= j < k ==> !Unset(env, vars[1..][j]);
        assert vars[k + 1] == r.value;
        r
      else r
  }

  /** The check of the required variables: the first one missing is the
      error. */
  function CheckEnv(env: map<string, string>): (r: Outcome<SyncError>)
    ensures r.Pass? <==> forall v :: v in RequiredEnvVars ==> !Unset(env, v)
    ensures r.Fail? ==> r.error.MissingEnv? && r.error.variable in RequiredEnvVars && Unset(env, r.error.variable)
  {
    match FirstUnset(env, RequiredEnvVars)
    case None => Pass
    case Some(v) => Fail(MissingEnv(v))
  }

  /** `res.find((lib) => lib.name === name)`. */
  function FindLibrary(libraries: seq<Library>, name: string): (r: Option<Library>)
    ensures r.Some? ==> r.value in libraries && r.value.name == name
    ensures r.Some? ==> exists k :: 0 <= k < |libraries| && libraries[k] == r.value
                                    && forall j :: 0 <= j < k ==> libraries[j].name != name
    ensures r.None? <==> forall l :: l in libraries ==> l.name != name
  {
    match FindIndex(libraries, (l: Library) => l.name == name)
    case None => None
    case Some(k) => Some(libraries[k])
  }


  // ---------------------------------------------------------------------
  // Search paths

  /** An import path `fs.access` accepts once resolved. */
  function IsAccessible(aliases: AliasTable, accessible: set<string>): string -> bool {
    p => ResolvePath(aliases, p) in accessible
  }

  /** The import paths that exist, in their original order. */
  function SearchPaths(importPaths: seq<string>, aliases: AliasTable, accessible: set<string>): (r: seq<string>)
    ensures forall p :: p in r <==> p in importPaths && ResolvePath(aliases, p) in accessible
  {
    Filter(importPaths, IsAccessible(aliases, accessible))
  }

  /** The loop that pushes every accessible import path onto `searchPaths`;
      a library without an `importPaths` array is fatal. */
  method CollectSearchPaths(library: Library, aliases: AliasTable, accessible: set<string>)
    returns (r: Result<seq<string>, SyncError>)
    ensures library.importPaths.None? ==> r == Failure(ImportPathsNotArray)
    ensures library.importPaths.Some? ==> r == Success(SearchPaths(library.importPaths.value, aliases, accessible))
  {
    if library.importPaths.None? {
      return Failure(ImportPathsNotArray);
    }
    var importPaths := library.importPaths.value;
    var searchPaths: seq<string> := [];
    ghost var accepts := IsAccessible(aliases, accessible);
    var i := 0;
    while i < |importPaths|
      invariant 0 <= i <= |importPaths|
      invariant searchPaths == Filter(importPaths[..i], accepts)
    {
      FilterSnoc(importPaths[..i], importPaths[i], accepts);
      assert importPaths[..i + 1] == importPaths[..i] + [importPaths[i]];
      assert accepts(importPaths[i]) == (ResolvePath(aliases, importPaths[i]) in accessible);
      if ResolvePath(aliases, importPaths[i]) in accessible {
        searchPaths := searchPaths + [importPaths[i]];
      }
      i := i + 1;
    }
    assert importPaths[..i] == importPaths;
    r := Success(searchPaths);
  }

  // ---------------------------------------------------------------------
  // Albums

  /** `immichAlbums.find((a) => a.albumName === name)`. */
  function FindAlbum(snapshot: seq<Album>, name: string): (r: Option<Album>)
    ensures r.Some? ==> r.value in snapshot && r.value.albumName == name
    ensures r.Some? ==> exists k :: 0 <= k < |snapshot| && snapshot[k] == r.value
                                    && forall j :: 0 <= j < k ==> snapshot[j].albumName != name
    ensures r.None? <==> forall a :: a in snapshot ==> a.albumName != name
  {
    match FindIndex(snapshot, (a: Album) => a.albumName == name)
    case None => None
    case Some(k) => Some(snapshot[k])
  }


  /** `findOrCreateAlbum`: the snapshot album with exactly this name, or a
      new album from `createAlbum`. `created` lists the names passed to
      `createAlbum` so far, and `mint(n)` is the id the server gives the
      n-th album created. The snapshot itself is never extended. */
  function FindOrCreate(snapshot: seq<Album>, name: string, created: seq<string>, mint: nat -> string)
    : (r: (Album, seq<string>))
    ensures r.0.albumName == name
    ensures (exists a :: a in snapshot && a.albumName == name) ==> r.0 in snapshot && r.1 == created
    ensures (forall a :: a in snapshot ==> a.albumName != name)
            ==> r.0.id == mint(|created|) && r.1 == created + [name]
    ensures r.1 == created + (if FindAlbum(snapshot, name).None? then [name] else [])
    ensures FindAlbum(snapshot, name).Some? ==> r.0 == FindAlbum(snapshot, name).value
  {
    match FindAlbum(snapshot, name)
    case Some(a) => (a, created)
    case None => (Album(mint(|created|), name), created + [name])
  }

  /** Because the snapshot is not updated after a create, asking twice for
      a name it lacks creates two albums of that name. */
  lemma MissingAlbumCreatedTwice(snapshot: seq<Album>, name: string, created: seq<string>, mint: nat -> string)
    requires forall a :: a in snapshot ==> a.albumName != name
    ensures var (first, c1) := FindOrCreate(snapshot, name, created, mint);
            var (second, c2) := FindOrCreate(snapshot, name, c1, mint);
            c2 == created + [name, name] && first.id == mint(|created|) && second.id == mint(|created| + 1)
  {
  }

  /** An album the project wants: its name and the directory whose files
      belong to it. */
  datatype AlbumTarget = AlbumTarget(name: string, path: string)

  /** The sub-album entries of a definition as targets; a `null` entry
      fails when its `suffix` is read. */
  function SubAlbumTargets(project: string, dir: string, subs: seq<Option<SubAlbum>>)
    : (r: Result<seq<AlbumTarget>, SyncError>)
    ensures r.Success? <==> forall k :: 0 <= k < |subs| ==> subs[k].Some?
    ensures r.Failure? ==> r.error == NullSubAlbum(project)
    ensures r.Success? ==> |r.value| == |subs|
    ensures r.Success? ==> forall k :: 0 <= k < |subs|
                              ==> r.value[k] == AlbumTarget(project + subs[k].value.suffix, JoinPath(dir, subs[k].value.path))
  {
    if subs == [] then Success([])
    else if subs[0].None? then Failure(NullSubAlbum(project))
    else
      var rest := SubAlbumTargets(project, dir, subs[1..]);
      assert forall k :: 1 <= k < |subs| ==> subs[k] == subs[1..][k - 1];
      if rest.Failure? then rest
      else
        var s := subs[0].value;
        Success([AlbumTarget(project + s.suffix, JoinPath(dir, s.path))] + rest.value)
  }

  /** The album list of a project: the primary album, named like the
      project and rooted at its directory, then one album per sub-album
      entry, in order (`?? []` when there is no `subAlbums` field). */
  function AlbumTargets(def: ProjectDefinition, dir: string): (r: Result<seq<AlbumTarget>, SyncError>)
    ensures r.Success? <==> def.subAlbums.None? || forall k :: 0 <= k < |def.subAlbums.value| ==> def.subAlbums.value[k].Some?
    ensures r.Failure? ==> r.error == NullSubAlbum(def.name)
    ensures r.Success? ==> |r.value| >= 1 && r.value[0] == AlbumTarget(def.name, dir)
    ensures r.Success? && def.subAlbums.None? ==> |r.value| == 1
    ensures r.Success? && def.subAlbums.Some? ==>
              var subs := def.subAlbums.value;
              |r.value| == 1 + |subs|
              && forall k :: 0 <= k < |subs|
                   ==> r.value[k + 1] == AlbumTarget(def.name + subs[k].value.suffix, JoinPath(dir, subs[k].value.path))
  {
    var primary := AlbumTarget(def.name, dir);
    if def.subAlbums.None? then Success([primary])
    else
      match SubAlbumTargets(def.name, dir, def.subAlbums.value)
      case Failure(e) => Failure(e)
      case Success(subs) => Success([primary] + subs)
  }

  /** Each target with the album `findOrCreateAlbum` gives it, in target
      order, and the names created along the way. */
  function FindOrCreateAll(snapshot: seq<Album>, targets: seq<AlbumTarget>, created: seq<string>, mint: nat -> string)
    : (r: (seq<(AlbumTarget, Album)>, seq<string>))
    ensures |r.0| == |targets|
    ensures forall k :: 0 <= k < |targets| ==> r.0[k].0 == targets[k] && r.0[k].1.albumName == targets[k].name
    ensures r.1 == created + MissingNames(snapshot, targets)
    ensures forall k :: 0 <= k < |targets| && FindAlbum(snapshot, targets[k].name).Some?
              ==> r.0[k].1 == FindAlbum(snapshot, targets[k].name).value
  {
    if targets == [] then ([], created)
    else
      var (album, c1) := FindOrCreate(snapshot, targets[0].name, created, mint);
      var (rest, c2) := FindOrCreateAll(snapshot, targets[1..], c1, mint);
      assert forall k :: 1 <= k < |targets| ==> targets[k] == targets[1..][k - 1];
      assert c2 == created + MissingNames(snapshot, targets) by {
        var first := if FindAlbum(snapshot, targets[0].name).None? then [targets[0].name] else [];
        AppendAssoc(created, first, MissingNames(snapshot, targets[1..]));
      }
      ([(targets[0], album)] + rest, c2)
  }

  lemma AppendAssoc<T>(a: seq<T>, b: seq<T>, c: seq<T>)
    ensures a + b + c == a + (b + c)
  {
  }

  /** The names of the targets the snapshot has no album for, in order,
      repeats included. */
  function MissingNames(snapshot: seq<Album>, targets: seq<AlbumTarget>): seq<string> {
    if targets == [] then []
    else (if FindAlbum(snapshot, targets[0].name).None? then [targets[0].name] else [])
         + MissingNames(snapshot, targets[1..])
  }

  /** A name is missing exactly when it is a target's name and no snapshot
      album has it. */
  lemma {:induction false} MissingNamesMembers(snapshot: seq<Album>, targets: seq<AlbumTarget>)
    ensures forall n :: n in MissingNames(snapshot, targets)
              <==> (exists t :: t in targets && t.name == n) && forall a :: a in snapshot ==> a.albumName != n
  {
    if targets != [] {
      MissingNamesMembers(snapshot, targets[1..]);
      assert forall t :: t in targets <==> t == targets[0] || t in targets[1..];
    }
  }

  /** The albums of the project's album list. The sub-albums are looked up
      (and created) first: their `map` starts before the primary album's
      call. The result is in album-list order. */
  function ResolveAlbums(snapshot: seq<Album>, targets: seq<AlbumTarget>, created: seq<string>, mint: nat -> string)
    : (r: (seq<(AlbumTarget, Album)>, seq<string>))
    requires |targets| >= 1
    ensures |r.0| == |targets|
    ensures forall k :: 0 <= k < |targets| ==> r.0[k].0 == targets[k] && r.0[k].1.albumName == targets[k].name
    ensures r.1 == created + MissingNames(snapshot, targets[1..] + [targets[0]])
    ensures forall k :: 0 <= k < |targets| && FindAlbum(snapshot, targets[k].name).Some?
              ==> r.0[k].1 == FindAlbum(snapshot, targets[k].name).value
  {
    var (subs, c1) := FindOrCreateAll(snapshot, targets[1..], created, mint);
    var (primary, c2) := FindOrCreate(snapshot, targets[0].name, c1, mint);
    assert forall k :: 1 <= k < |targets| ==> targets[k] == targets[1..][k - 1];
    MissingNamesAppend(snapshot, targets[1..], [targets[0]]);
    ([(targets[0], primary)] + subs, c2)
  }

  lemma {:induction false} MissingNamesAppend(snapshot: seq<Album>, a: seq<AlbumTarget>, b: seq<AlbumTarget>)
    ensures MissingNames(snapshot, a + b) == MissingNames(snapshot, a) + MissingNames(snapshot, b)
  {
    if a != [] {
      assert (a + b)[1..] == a[1..] + b;
      MissingNamesAppend(snapshot, a[1..], b);
    } else {
      assert a + b == b;
    }
  }

  // ---------------------------------------------------------------------
  // Files, assets and proxies

  /** `join(parse(file).dir, "/Proxy/" + parse(file).name + ".mov")`: the
      proxy video beside a file. */
  function ProxyPath(file: string): string {
    var dir := ParseDir(file);
    (if dir == "/" then "" else dir) + "/Proxy/" + ParseName(file) + ".mov"
  }

  /** `dir` and `base` of `dir/base`, for a base without `/`. */
  lemma ParseOf(dir: string, base: string)
    requires dir != "/" && '/' !in base
    ensures ParseBase(dir + "/" + base) == base
    ensures ParseDir(dir + "/" + base) == if dir == "" then "/" else dir
  {
    var file := dir + "/" + base;
    LastIndexOfAfter(dir, '/', base);
    assert file[|dir| + 1..] == base;
    assert file[..|dir|] == dir;
  }

  /** In `name.ext`, for an extension without `.`, the last `.` ends `name`. */
  lemma LastDotOf(name: string, ext: string)
    requires '.' !in ext && name != "" && name != "."
    ensures LastIndexOf(name + "." + ext, '.') == Some(|name|)
    ensures name + "." + ext != ".."
  {
    LastIndexOfAfter(name, '.', ext);
    NotDotDot(name, ext);
  }

  lemma NotDotDot(name: string, ext: string)
    requires name != "" && name != "."
    ensures name + "." + ext != ".."
  {
    if |name| == 1 {
      assert name == [name[0]];
      assert (name + "." + ext)[0] == name[0];
    } else {
      assert |name + "." + ext| > 2;
    }
  }

  /** The name of a file whose base is `name.ext`, for an extension
      without `.`. */
  lemma NameOf(file: string, name: string, ext: string)
    requires ParseBase(file) == name + "." + ext
    requires '.' !in ext && name != "" && name != "."
    ensures ParseName(file) == name
  {
    LastDotOf(name, ext);
    assert (name + "." + ext)[..|name|] == name;
  }

  /** The proxy of `dir/name.ext` is `dir/Proxy/name.mov`: the extension
      is what follows the last `.` of the base name. */
  lemma ProxyPathOf(dir: string, name: string, ext: string)
    requires dir != "/" && '/' !in name && '/' !in ext && '.' !in ext
    requires name != "" && name != "."
    ensures ProxyPath(dir + "/" + name + "." + ext) == dir + "/Proxy/" + name + ".mov"
  {
    var base := name + "." + ext;
    assert dir + "/" + name + "." + ext == dir + "/" + base;
    ParseOf(dir, base);
    NameOf(dir + "/" + base, name, ext);
  }

  /** A remote asset matched to a local file. */
  datatype ResolvedAsset = ResolvedAsset(id: string, path: string)

  /** An asset whose encoded video is to be pointed at a proxy file. */
  datatype AssetWithProxy = AssetWithProxy(id: string, encodedVideoPath: string)

  /** `searchMetadata` by original path: the ids of the assets found, or
      `None` when the search throws. */
  type Search = string -> Option<seq<string>>

  /** The assets one file contributes: every asset whose original path is
      the file's aliased path, or nothing when the search fails. */
  function FileAssets(aliases: AliasTable, search: Search, file: string): seq<ResolvedAsset> {
    match search(ResolveAlias(aliases, file))
    case None => []
    case Some(ids) => seq(|ids|, k requires 0 <= k < |ids| => ResolvedAsset(ids[k], file))
  }

  /** `metaResults.flat()`: the assets of every file, in file order. */
  function ProjectAssets(aliases: AliasTable, search: Search, files: seq<string>): seq<ResolvedAsset> {
    FlatMap(files, AssetsOf(aliases, search))
  }

  function AssetsOf(aliases: AliasTable, search: Search): string -> seq<ResolvedAsset> {
    file => FileAssets(aliases, search, file)
  }

  /** An asset of a file carries that file's path. */
  lemma FileAssetsPath(aliases: AliasTable, search: Search, file: string, a: ResolvedAsset)
    requires a in FileAssets(aliases, search, file)
    ensures a.path == file
  {
    var assets := FileAssets(aliases, search, file);
    var i :| 0 <= i < |assets| && assets[i] == a;
  }

  /** The project's assets are exactly the assets of its files, and each
      carries the path of a project file. */
  lemma {:induction false} ProjectAssetsMembers(aliases: AliasTable, search: Search, files: seq<string>)
    ensures forall a :: a in ProjectAssets(aliases, search, files)
              <==> exists k :: 0 <= k < |files| && a in FileAssets(aliases, search, files[k])
    ensures forall a :: a in ProjectAssets(aliases, search, files) ==> a.path in files
  {
    if files != [] {
      var head := FileAssets(aliases, search, files[0]);
      var rest := ProjectAssets(aliases, search, files[1..]);
      ProjectAssetsMembers(aliases, search, files[1..]);
      assert ProjectAssets(aliases, search, files) == head + rest;
      forall a: ResolvedAsset
        ensures a in head + rest <==> exists k :: 0 <= k < |files| && a in FileAssets(aliases, search, files[k])
      {
        if a in rest {
          var k :| 0 <= k < |files[1..]| && a in FileAssets(aliases, search, files[1..][k]);
          assert files[1..][k] == files[k + 1];
        }
        if k :| 0 <= k < |files| && a in FileAssets(aliases, search, files[k]) {
          if k > 0 {
            assert files[k] == files[1..][k - 1];
          }
        }
      }
      forall a: ResolvedAsset | a in head + rest
        ensures a.path in files
      {
        var k :| 0 <= k < |files| && a in FileAssets(aliases, search, files[k]);
        FileAssetsPath(aliases, search, files[k], a);
      }
    }
  }

  /** The proxy entries one file contributes: one per asset found, when the
      file's proxy exists; nothing when the search fails. */
  function FileProxies(aliases: AliasTable, search: Search, existing: set<string>, file: string)
    : seq<AssetWithProxy>
  {
    match search(ResolveAlias(aliases, file))
    case None => []
    case Some(ids) =>
      if ProxyPath(file) in existing then seq(|ids|, k requires 0 <= k < |ids| => AssetWithProxy(ids[k], ProxyPath(file)))
      else []
  }

  function ProjectProxies(aliases: AliasTable, search: Search, existing: set<string>, files: seq<string>)
    : seq<AssetWithProxy>
  {
    FlatMap(files, ProxiesOf(aliases, search, existing))
  }

  function ProxiesOf(aliases: AliasTable, search: Search, existing: set<string>): string -> seq<AssetWithProxy> {
    file => FileProxies(aliases, search, existing, file)
  }

  lemma ProjectProxiesSnoc(aliases: AliasTable, search: Search, existing: set<string>, files: seq<string>, i: nat)
    requires i < |files|
    ensures ProjectProxies(aliases, search, existing, files[..i + 1])
            == ProjectProxies(aliases, search, existing, files[..i]) + FileProxies(aliases, search, existing, files[i])
  {
    assert files[..i + 1] == files[..i] + [files[i]];
    FlatMapSnoc(files[..i], files[i], ProxiesOf(aliases, search, existing));
  }

  lemma FileProxiesMatch(aliases: AliasTable, search: Search, existing: set<string>, file: string)
    ensures forall p :: p in FileProxies(aliases, search, existing, file)
              ==> p.encodedVideoPath in existing && p.encodedVideoPath == ProxyPath(file)
                  && ResolvedAsset(p.id, file) in FileAssets(aliases, search, file)
  {
    var proxies := FileProxies(aliases, search, existing, file);
    forall p | p in proxies
      ensures p.encodedVideoPath in existing && p.encodedVideoPath == ProxyPath(file)
      ensures ResolvedAsset(p.id, file) in FileAssets(aliases, search, file)
    {
      var i :| 0 <= i < |proxies| && proxies[i] == p;
      assert FileAssets(aliases, search, file)[i] == ResolvedAsset(p.id, file);
    }
  }

  /** A file's proxy entries are its assets' ids, in order, each paired
      with the file's proxy, when that proxy exists; there are none when
      it does not. */
  lemma FileProxiesComplete(aliases: AliasTable, search: Search, existing: set<string>, file: string)
    ensures var assets := FileAssets(aliases, search, file);
            var proxies := FileProxies(aliases, search, existing, file);
            |proxies| == (if ProxyPath(file) in existing then |assets| else 0)
            && forall k :: 0 <= k < |proxies| ==> proxies[k] == AssetWithProxy(assets[k].id, ProxyPath(file))
  {
  }

  /** Every asset matched to a project file whose proxy exists gets a
      proxy entry naming that proxy. */
  lemma ProxiesComplete(aliases: AliasTable, search: Search, existing: set<string>, files: seq<string>)
    ensures forall a :: a in ProjectAssets(aliases, search, files) && ProxyPath(a.path) in existing
              ==> AssetWithProxy(a.id, ProxyPath(a.path)) in ProjectProxies(aliases, search, existing, files)
  {
    ProjectAssetsMembers(aliases, search, files);
    FlatMapMembers(files, ProxiesOf(aliases, search, existing));
    forall a | a in ProjectAssets(aliases, search, files) && ProxyPath(a.path) in existing
      ensures AssetWithProxy(a.id, ProxyPath(a.path)) in ProjectProxies(aliases, search, existing, files)
    {
      var k :| 0 <= k < |files| && a in FileAssets(aliases, search, files[k]);
      FileAssetsPath(aliases, search, files[k], a);
      var assets := FileAssets(aliases, search, files[k]);
      var i :| 0 <= i < |assets| && assets[i] == a;
      FileProxiesComplete(aliases, search, existing, files[k]);
      var proxies := FileProxies(aliases, search, existing, files[k]);
      assert proxies[i] == AssetWithProxy(a.id, ProxyPath(a.path));
      assert AssetWithProxy(a.id, ProxyPath(a.path)) in ProxiesOf(aliases, search, existing)(files[k]);
    }
  }

  /** Each proxy entry pairs an asset matched to a file with that file's
      proxy, and that proxy exists. */
  lemma ProxiesMatchAssets(aliases: AliasTable, search: Search, existing: set<string>, files: seq<string>)
    ensures forall p :: p in ProjectProxies(aliases, search, existing, files)
              ==> p.encodedVideoPath in existing
                  && exists k :: 0 <= k < |files| && p.encodedVideoPath == ProxyPath(files[k])
                                 && ResolvedAsset(p.id, files[k]) in ProjectAssets(aliases, search, files)
  {
    ProxiesMatchFileAssets(aliases, search, existing, files);
    ProjectAssetsMembers(aliases, search, files);
  }

  /** `ProxiesMatchAssets` with the asset found among its own file's assets. */
  lemma {:induction false} ProxiesMatchFileAssets(aliases: AliasTable, search: Search, existing: set<string>,
                                                  files: seq<string>)
    ensures forall p :: p in ProjectProxies(aliases, search, existing, files)
              ==> p.encodedVideoPath in existing
                  && exists k :: 0 <= k < |files| && p.encodedVideoPath == ProxyPath(files[k])
                                 && ResolvedAsset(p.id, files[k]) in FileAssets(aliases, search, files[k])
  {
    if files != [] {
      ProxiesMatchFileAssets(aliases, search, existing, files[1..]);
      FileProxiesMatch(aliases, search, existing, files[0]);
      var head := FileProxies(aliases, search, existing, files[0]);
      var tail := ProjectProxies(aliases, search, existing, files[1..]);
      assert ProjectProxies(aliases, search, existing, files) == head + tail;
      forall p: AssetWithProxy | p in head + tail
        ensures p.encodedVideoPath in existing
        ensures exists k :: 0 <= k < |files| && p.encodedVideoPath == ProxyPath(files[k])
                            && ResolvedAsset(p.id, files[k]) in FileAssets(aliases, search, files[k])
      {
        if p !in head {
          var k :| 0 <= k < |files[1..]| && p.encodedVideoPath == ProxyPath(files[1..][k])
                   && ResolvedAsset(p.id, files[1..][k]) in FileAssets(aliases, search, files[1..][k]);
          assert files[1..][k] == files[k + 1];
        }
      }
    }
  }

  /** The `assetsWithProxies.push(...ap)` accumulation over one project's
      files, in file order. */
  method CollectProxies(aliases: AliasTable, search: Search, existing: set<string>, files: seq<string>)
    returns (r: seq<AssetWithProxy>)
    ensures r == ProjectProxies(aliases, search, existing, files)
  {
    r := [];
    var i := 0;
    while i < |files|
      invariant 0 <= i <= |files|
      invariant r == ProjectProxies(aliases, search, existing, files[..i])
    {
      ProjectProxiesSnoc(aliases, search, existing, files, i);
      r := r + FileProxies(aliases, search, existing, files[i]);
      i := i + 1;
    }
    assert files[..i] == files;
  }

  lemma ProjectAssetsAppend(aliases: AliasTable, search: Search, a: seq<string>, b: seq<string>)
    ensures ProjectAssets(aliases, search, a + b) == ProjectAssets(aliases, search, a) + ProjectAssets(aliases, search, b)
  {
    FlatMapAppend(a, b, AssetsOf(aliases, search));
  }

  /** A file whose search fails adds no asset, and the files after it are
      still matched. */
  lemma FailedSearchSkipped(aliases: AliasTable, search: Search, before: seq<string>, file: string, after: seq<string>)
    requires search(ResolveAlias(aliases, file)).None?
    ensures ProjectAssets(aliases, search, before + [file] + after)
            == ProjectAssets(aliases, search, before) + ProjectAssets(aliases, search, after)
  {
    ProjectAssetsAppend(aliases, search, before + [file], after);
    FlatMapSnoc(before, file, AssetsOf(aliases, search));
    assert FileAssets(aliases, search, file) == [];
    assert ProjectAssets(aliases, search, before) + [] == ProjectAssets(aliases, search, before);
  }

  // ---------------------------------------------------------------------
  // Album membership

  /** The album glob `${albumPath}/**/*{ext,...}`, taken as: below the
      album's directory, with a name ending in one of the extensions. */
  predicate InAlbum(path: string, albumPath: string, extensions: seq<string>) {
    StartsWith(path, albumPath + "/")
    && exists k :: 0 <= k < |extensions| && |albumPath| + 1 + |extensions[k]| <= |path| && EndsWith(path, extensions[k])
  }

  function AlbumMember(albumPath: string, extensions: seq<string>): ResolvedAsset -> bool {
    (a: ResolvedAsset) => InAlbum(a.path, albumPath, extensions)
  }

  function AssetId(a: ResolvedAsset): string {
    a.id
  }

  /** The ids added to an album: the project's assets whose path the
      album's glob matches, in asset order. */
  function AddList(assets: seq<ResolvedAsset>, albumPath: string, extensions: seq<string>): (ids: seq<string>)
    ensures |ids| <= |assets|
    ensures forall id :: id in ids <==> exists a :: a in assets && InAlbum(a.path, albumPath, extensions) && a.id == id
  {
    var members := Filter(assets, AlbumMember(albumPath, extensions));
    var ids := Map(members, AssetId);
    forall id
      ensures id in ids <==> exists a :: a in assets && InAlbum(a.path, albumPath, extensions) && a.id == id
    {
      IdsOfMembers(members, id);
    }
    ids
  }

  /** An id is among the ids of `members` exactly when some member has it. */
  lemma IdsOfMembers(members: seq<ResolvedAsset>, id: string)
    ensures id in Map(members, AssetId) <==> exists a :: a in members && a.id == id
  {
    var ids := Map(members, AssetId);
    if id in ids {
      var k :| 0 <= k < |ids| && ids[k] == id;
      assert members[k] in members;
    }
    if a :| a in members && a.id == id {
      var k :| 0 <= k < |members| && members[k] == a;
      assert ids[k] == id;
    }
  }

  /** Whatever a sub-album's glob matches, the primary album's glob
      matches too: a sub-album directory lies below the project
      directory. */
  lemma SubAlbumInPrimary(path: string, dir: string, sub: string, extensions: seq<string>)
    requires InAlbum(path, JoinPath(dir, sub), extensions)
    ensures InAlbum(path, dir, extensions)
  {
    var k :| 0 <= k < |extensions| && |JoinPath(dir, sub)| + 1 + |extensions[k]| <= |path| && EndsWith(path, extensions[k]);
    assert (dir + "/") <= JoinPath(dir, sub) + "/";
  }

  /** When every file lies below the project directory with a configured
      extension, the primary album's add-list holds every asset found for
      the project. The files are scanned below `resolvePath(dir)`, so this
      holds when no alias applies to the project directory. */
  lemma PrimaryTakesAll(aliases: AliasTable, search: Search, files: seq<string>, dir: string, extensions: seq<string>)
    requires forall k :: 0 <= k < |files| ==> InAlbum(files[k], dir, extensions)
    ensures Filter(ProjectAssets(aliases, search, files), AlbumMember(dir, extensions))
            == ProjectAssets(aliases, search, files)
  {
    var assets := ProjectAssets(aliases, search, files);
    ProjectAssetsMembers(aliases, search, files);
    forall k | 0 <= k < |assets|
      ensures AlbumMember(dir, extensions)(assets[k])
    {
      assert assets[k] in assets;
    }
    FilterAll(assets, AlbumMember(dir, extensions));
  }

  /** A project "Trip" at `/p` with the export sub-album: a file under
      `/p/export` is added to the sub-album and to the primary album. */
  lemma ExportFileInBothAlbums()
    ensures "1" in AddList([ResolvedAsset("1", "/p/export/a.mp4")], "/p", [".mp4"])
    ensures "1" in AddList([ResolvedAsset("1", "/p/export/a.mp4")], JoinPath("/p", "export"), [".mp4"])
  {
    var a := ResolvedAsset("1", "/p/export/a.mp4");
    var sub := JoinPath("/p", "export");
    assert InAlbum(a.path, sub, [".mp4"]) by {
      assert sub == "/p/export";
      assert StartsWith(a.path, sub + "/");
      assert EndsWith(a.path, [".mp4"][0]);
    }
    SubAlbumInPrimary(a.path, "/p", "export", [".mp4"]);
    AddedWhenInAlbum(a, "/p", [".mp4"]);
    AddedWhenInAlbum(a, sub, [".mp4"]);
  }

  /** A single asset in an album's directory is added to the album. */
  lemma AddedWhenInAlbum(a: ResolvedAsset, albumPath: string, extensions: seq<string>)
    requires InAlbum(a.path, albumPath, extensions)
    ensures a.id in AddList([a], albumPath, extensions)
  {
    assert a in [a];
  }

  // ---------------------------------------------------------------------
  // Error summary

  /** One entry of `addAssetsToAlbum`'s answer; `error` is `None` when the
      field is absent. */
  datatype BulkResult = BulkResult(id: string, success: bool, error: Option<string>)

  /** `res.filter(r => !r.success).length`. */
  function FailureCount(res: seq<BulkResult>): (n: nat)
    ensures n <= |res|
  {
    if res == [] then 0
    else FailureCount(res[..|res| - 1]) + (if res[|res| - 1].success then 0 else 1)
  }

  /** A result counted under `e`: a failure carrying the message `e`, which
      must be non-empty to pass the truthiness test. */
  predicate CountsAs(r: BulkResult, e: string) {
    !r.success && r.error == Some(e) && e != ""
  }

  /** The number of results counted under `e`. */
  function Tally(res: seq<BulkResult>, e: string): (n: nat)
    ensures n <= FailureCount(res)
  {
    if res == [] then 0
    else Tally(res[..|res| - 1], e) + (if CountsAs(res[|res| - 1], e) then 1 else 0)
  }

  /** The messages some counted failure carries. */
  function Messages(res: seq<BulkResult>): (msgs: set<string>)
    ensures forall e :: e in msgs <==> Tally(res, e) > 0
  {
    if res == [] then {}
    else
      var last := res[|res| - 1];
      Messages(res[..|res| - 1])
      + (if !last.success && last.error.Some? && last.error.value != "" then {last.error.value} else {})
  }

  /** The summary of one album's answer: none when nothing failed;
      otherwise each message with the number of failed results carrying it. */
  function ErrorSummary(res: seq<BulkResult>): (r: Option<map<string, nat>>)
    ensures r.None? <==> FailureCount(res) == 0
    ensures r.Some? ==> forall e :: e in r.value <==> Tally(res, e) > 0
    ensures r.Some? ==> forall e :: e in r.value ==> r.value[e] == Tally(res, e)
  {
    if FailureCount(res) == 0 then None
    else Some(Counts(res))
  }

  /** Each message with the number of counted failures carrying it. */
  function Counts(res: seq<BulkResult>): map<string, nat> {
    map e | e in Messages(res) :: Tally(res, e)
  }

  /** What the `forEach` body does to the dictionary for one result. */
  function Bump(errors: map<string, nat>, r: BulkResult): map<string, nat> {
    if !r.success && r.error.Some? && r.error.value != "" then
      var e := r.error.value;
      errors[e := (if e in errors then errors[e] else 0) + 1]
    else errors
  }

  /** The counts after one more result are the earlier counts bumped by it. */
  lemma CountsStep(res: seq<BulkResult>, i: nat)
    requires i < |res|
    ensures Counts(res[..i + 1]) == Bump(Counts(res[..i]), res[i])
  {
    var before, after := res[..i], res[..i + 1];
    assert after[..i] == before && after[i] == res[i];
    var m, n := Counts(before), Bump(Counts(before), res[i]);
    forall e
      ensures e in Counts(after) <==> e in n
      ensures e in n ==> Counts(after)[e] == n[e]
    {
      assert Tally(after, e) == Tally(before, e) + (if CountsAs(res[i], e) then 1 else 0);
    }
  }

  /** Writing a key twice keeps the second value. */
  lemma UpdateTwice(m: map<string, nat>, k: string, v: nat, w: nat)
    ensures m[k := v][k := w] == m[k := w]
  {
  }

  /** The warning block of one album: the `errors` dictionary, filled by
      the `forEach` over the answer when `errorCount > 0`. */
  method SummarizeErrors(res: seq<BulkResult>) returns (summary: Option<map<string, nat>>)
    ensures summary == ErrorSummary(res)
  {
    var errorCount := FailureCount(res);
    if errorCount == 0 {
      return None;
    }
    var errors: map<string, nat> := map[];
    var i := 0;
    assert res[..0] == [];
    while i < |res|
      invariant 0 <= i <= |res|
      invariant errors == Counts(res[..i])
    {
      var r := res[i];
      CountsStep(res, i);
      ghost var before := errors;
      if !r.success && r.error.Some? && r.error.value != "" {
        var e := r.error.value;
        if e !in errors {
          errors := errors[e := 0];
          UpdateTwice(before, e, 0, 1);
        }
        errors := errors[e := errors[e] + 1];
      }
      assert errors == Bump(before, r);
      i := i + 1;
    }
    assert res[..i] == res;
    summary := Some(errors);
  }

  /** A failure without a message, or with an empty one, is counted in
      `errorCount` but under no key: the summary has an entry all the same
      and the counts of every message are unchanged. */
  lemma MessagelessFailureUntallied(res: seq<BulkResult>, r: BulkResult)
    requires !r.success && (r.error.None? || r.error.value == "")
    ensures FailureCount(res + [r]) == FailureCount(res) + 1
    ensures forall e :: Tally(res + [r], e) == Tally(res, e)
    ensures ErrorSummary(res + [r]).Some?
    ensures Counts(res + [r]) == Counts(res)
  {
    assert (res + [r])[..|res|] == res;
  }

  // ---------------------------------------------------------------------
  // SQL update script

  const SqlUpdate: string := "UPDATE assets SET "
  const SqlColumn: string := "\"encodedVideoPath\" = '"
  const SqlWhere: string := "' WHERE id = '"
  const SqlEnd: string := "';"

  /** The statement for one proxy entry, without its newline; nothing is
      escaped. */
  function SqlStatement(aliases: AliasTable, p: AssetWithProxy): string {
    SqlUpdate + SqlColumn + ResolveAlias(aliases, p.encodedVideoPath) + SqlWhere + p.id + SqlEnd
  }

  /** The text `sql` holds after the loop: one statement and a newline per
      entry, in order. */
  function SqlScript(aliases: AliasTable, proxies: seq<AssetWithProxy>): string {
    if proxies == [] then "" else SqlStatement(aliases, proxies[0]) + "\n" + SqlScript(aliases, proxies[1..])
  }

  lemma {:induction false} SqlScriptAppend(aliases: AliasTable, a: seq<AssetWithProxy>, b: seq<AssetWithProxy>)
    ensures SqlScript(aliases, a + b) == SqlScript(aliases, a) + SqlScript(aliases, b)
  {
    if a != [] {
      assert (a + b)[1..] == a[1..] + b;
      SqlScriptAppend(aliases, a[1..], b);
    } else {
      assert a + b == b;
    }
  }

  /** The `sql +=` loop; `None` when there are no proxies, in which case no
      file is written. */
  method EmitSql(aliases: AliasTable, proxies: seq<AssetWithProxy>) returns (sql: Option<string>)
    ensures proxies == [] <==> sql.None?
    ensures sql.Some? ==> sql.value == SqlScript(aliases, proxies)
  {
    if |proxies| == 0 {
      return None;
    }
    var text := "";
    var i := 0;
    while i < |proxies|
      invariant 0 <= i <= |proxies|
      invariant text == SqlScript(aliases, proxies[..i])
    {
      SqlScriptAppend(aliases, proxies[..i], [proxies[i]]);
      assert proxies[..i + 1] == proxies[..i] + [proxies[i]];
      assert SqlScript(aliases, [proxies[i]]) == SqlStatement(aliases, proxies[i]) + "\n" by {
        assert [proxies[i]][1..] == [];
      }
      text := text + (SqlStatement(aliases, proxies[i]) + "\n");
      i := i + 1;
    }
    assert proxies[..i] == proxies;
    sql := Some(text);
  }

  /** A statement has no line break when the id and the aliased proxy path
      have none. */
  lemma StatementOneLine(aliases: AliasTable, p: AssetWithProxy)
    requires '\n' !in ResolveAlias(aliases, p.encodedVideoPath) && '\n' !in p.id
    ensures '\n' !in SqlStatement(aliases, p)
  {
    assert '\n' !in SqlUpdate;
    assert '\n' !in SqlColumn;
    assert '\n' !in SqlWhere;
    assert '\n' !in SqlEnd;
  }

  /** Read back line by line, the script is one statement per proxy entry,
      in order, followed by the empty text after the last newline. */
  lemma {:induction false} SqlLines(aliases: AliasTable, proxies: seq<AssetWithProxy>)
    requires forall k :: 0 <= k < |proxies| ==>
               '\n' !in ResolveAlias(aliases, proxies[k].encodedVideoPath) && '\n' !in proxies[k].id
    ensures |Split(SqlScript(aliases, proxies), '\n')| == |proxies| + 1
    ensures forall k :: 0 <= k < |proxies| ==> Split(SqlScript(aliases, proxies), '\n')[k] == SqlStatement(aliases, proxies[k])
    ensures Split(SqlScript(aliases, proxies), '\n')[|proxies|] == ""
  {
    if proxies != [] {
      SqlLines(aliases, proxies[1..]);
      StatementOneLine(aliases, proxies[0]);
      SplitAfterPiece(SqlStatement(aliases, proxies[0]), '\n', SqlScript(aliases, proxies[1..]));
    }
  }

  // ---------------------------------------------------------------------
  // The run

  /** What a run reads from the world around it. The remote library is
      `libraries`, the `albums` snapshot, `search`, `addResults` (the
      answer of `addAssetsToAlbum` for an album id and asset ids) and
      `mint` (the id of the n-th created album); the file system is
      `accessible`, `existing`, `definitionsUnder` (the definition files
      below a directory) and `definitionAt` and `filesUnder` (a project's
      files with a configured extension); `keep` is the `--filter` glob,
      true for every name when no filter is given. */
  datatype Inputs = Inputs(
    env: map<string, string>,
    extensions: Option<seq<string>>,
    aliases: AliasTable,
    libraries: seq<Library>,
    accessible: set<string>,
    albums: seq<Album>,
    definitionsUnder: string -> seq<string>,
    definitionAt: string -> ProjectDefinition,
    filesUnder: string -> seq<string>,
    search: Search,
    existing: set<string>,
    keep: string -> bool,
    addResults: (string, seq<string>) -> seq<BulkResult>,
    mint: nat -> string)

  /** `IMMICH_FILE_EXTENSIONS` once parsed, or the default list. */
  function Extensions(inputs: Inputs): seq<string> {
    if inputs.extensions.Some? then inputs.extensions.value else DefaultExtensions
  }

  /** The `addAssetsToAlbum` call of one album and what it logs. */
  datatype AlbumUpdate = AlbumUpdate(albumId: string, albumName: string, ids: seq<string>,
                                     errors: Option<map<string, nat>>)

  /** What the run has done so far: the albums it created, the album
      updates it sent, and the proxy entries it collected. */
  datatype RunState = RunState(created: seq<string>, updates: seq<AlbumUpdate>, proxies: seq<AssetWithProxy>)

  /** What a run that stops leaves: the error, and the state reached
      before it. The albums created and the updates sent for earlier
      projects stay done; their proxy entries are collected but the SQL
      file is never written. */
  datatype Aborted = Aborted(error: SyncError, state: RunState)

  /** What a successful run leaves: its state and the SQL file, if any. */
  datatype Report = Report(state: RunState, sql: Option<string>)

  /** The update of one album: its add-list, sent under the album's id. */
  function Update(inputs: Inputs, assets: seq<ResolvedAsset>, pair: (AlbumTarget, Album)): AlbumUpdate {
    var ids := AddList(assets, pair.0.path, Extensions(inputs));
    AlbumUpdate(pair.1.id, pair.0.name, ids, ErrorSummary(inputs.addResults(pair.1.id, ids)))
  }

  /** The album loop of one project, over the album list in order. */
  function Updates(inputs: Inputs, assets: seq<ResolvedAsset>, pairs: seq<(AlbumTarget, Album)>)
    : (r: seq<AlbumUpdate>)
    ensures |r| == |pairs|
    ensures forall k :: 0 <= k < |pairs| ==> r[k].albumId == pairs[k].1.id && r[k].albumName == pairs[k].0.name
  {
    if pairs == [] then []
    else Updates(inputs, assets, pairs[..|pairs| - 1]) + [Update(inputs, assets, pairs[|pairs| - 1])]
  }

  /** One project definition file: skipped when the filter rejects the
      name, fatal when a sub-album entry is `null`, and otherwise albums
      found or created, assets matched, albums updated and proxies
      collected. */
  function ProjectStep(inputs: Inputs, st: RunState, definitionFile: string): Result<RunState, Aborted> {
    var dir := ProjectDir(definitionFile);
    var def := inputs.definitionAt(definitionFile);
    if !inputs.keep(def.name) then Success(st)
    else
      match AlbumTargets(def, dir)
      case Failure(e) => Failure(Aborted(e, st))
      case Success(targets) =>
        var files := inputs.filesUnder(ResolvePath(inputs.aliases, dir));
        var (pairs, created) := ResolveAlbums(inputs.albums, targets, st.created, inputs.mint);
        var assets := ProjectAssets(inputs.aliases, inputs.search, files);
        Success(RunState(created, st.updates + Updates(inputs, assets, pairs),
                         st.proxies + ProjectProxies(inputs.aliases, inputs.search, inputs.existing, files)))
  }

  /** The projects processed in order from the empty state; the first
      failure ends the run. */
  function Projects(inputs: Inputs, definitionFiles: seq<string>): Result<RunState, Aborted> {
    if definitionFiles == [] then Success(RunState([], [], []))
    else
      match Projects(inputs, definitionFiles[..|definitionFiles| - 1])
      case Failure(e) => Failure(e)
      case Success(st) => ProjectStep(inputs, st, definitionFiles[|definitionFiles| - 1])
  }

  /** The definition files below each search path, search path by search
      path. */
  function DefinitionFiles(inputs: Inputs, searchPaths: seq<string>): seq<string> {
    if searchPaths == [] then []
    else DefinitionFiles(inputs, searchPaths[..|searchPaths| - 1])
         + inputs.definitionsUnder(ResolvePath(inputs.aliases, searchPaths[|searchPaths| - 1]))
  }

  /** The checks before any project is read: the environment, the
      library, and its import paths that exist. */
  function Setup(inputs: Inputs): Result<seq<string>, SyncError> {
    match CheckEnv(inputs.env)
    case Fail(e) => Failure(e)
    case Pass =>
      assert RequiredEnvVars[2] in RequiredEnvVars;
      var name := inputs.env["IMMICH_LIBRARY_NAME"];
      match FindLibrary(inputs.libraries, name)
      case None => Failure(LibraryNotFound(name))
      case Some(library) =>
        if library.importPaths.None? then Failure(ImportPathsNotArray)
        else Success(SearchPaths(library.importPaths.value, inputs.aliases, inputs.accessible))
  }

  /** The whole of `syncProjects`. */
  function Run(inputs: Inputs): Result<Report, Aborted> {
    match Setup(inputs)
    case Failure(e) => Failure(Aborted(e, RunState([], [], [])))
    case Success(searchPaths) => Finish(inputs.aliases, Projects(inputs, DefinitionFiles(inputs, searchPaths)))
  }

  /** The end of the run: the projects' failure, with no SQL script, or
      their state with the SQL script when there is a proxy entry. */
  function Finish(aliases: AliasTable, projects: Result<RunState, Aborted>): Result<Report, Aborted> {
    match projects
    case Failure(e) => Failure(e)
    case Success(st) => Success(Report(st, if st.proxies == [] then None else Some(SqlScript(aliases, st.proxies))))
  }

  /** Processing one more definition file. */
  lemma ProjectsSnoc(inputs: Inputs, done: seq<string>, file: string)
    ensures Projects(inputs, done).Failure? ==> Projects(inputs, done + [file]) == Projects(inputs, done)
    ensures Projects(inputs, done).Success?
            ==> Projects(inputs, done + [file]) == ProjectStep(inputs, Projects(inputs, done).value, file)
  {
    assert (done + [file])[..|done|] == done;
  }

  /** The first failure ends the run: nothing after it is processed and
      its error is the run's error. */
  lemma {:induction false} FailureIsFinal(inputs: Inputs, done: seq<string>, rest: seq<string>)
    requires Projects(inputs, done).Failure?
    ensures Projects(inputs, done + rest) == Projects(inputs, done)
  {
    if rest != [] {
      var front := rest[..|rest| - 1];
      FailureIsFinal(inputs, done, front);
      assert done + rest == (done + front) + [rest[|rest| - 1]];
      ProjectsSnoc(inputs, done + front, rest[|rest| - 1]);
    } else {
      assert done + rest == done;
    }
  }

  /** The search paths' definition files, one more search path at a time. */
  lemma DefinitionFilesSnoc(inputs: Inputs, searchPaths: seq<string>, i: nat)
    requires i < |searchPaths|
    ensures DefinitionFiles(inputs, searchPaths[..i + 1])
            == DefinitionFiles(inputs, searchPaths[..i]) + inputs.definitionsUnder(ResolvePath(inputs.aliases, searchPaths[i]))
  {
    assert searchPaths[..i + 1][..i] == searchPaths[..i];
  }

  /** The definition files of the first search paths come first. */
  lemma {:induction false} DefinitionFilesPrefix(inputs: Inputs, searchPaths: seq<string>, i: nat)
    requires i <= |searchPaths|
    ensures DefinitionFiles(inputs, searchPaths[..i]) <= DefinitionFiles(inputs, searchPaths)
  {
    if i == |searchPaths| {
      assert searchPaths[..i] == searchPaths;
    } else {
      var front := searchPaths[..|searchPaths| - 1];
      DefinitionFilesPrefix(inputs, front, i);
      assert front[..i] == searchPaths[..i];
    }
  }

  /** The album loop of one project: each album's add-list sent, and the
      answer summarised. */
  method UpdateAlbums(inputs: Inputs, assets: seq<ResolvedAsset>, pairs: seq<(AlbumTarget, Album)>)
    returns (updates: seq<AlbumUpdate>)
    ensures updates == Updates(inputs, assets, pairs)
  {
    updates := [];
    var i := 0;
    while i < |pairs|
      invariant 0 <= i <= |pairs|
      invariant updates == Updates(inputs, assets, pairs[..i])
    {
      assert pairs[..i + 1][..i] == pairs[..i];
      var (target, album) := pairs[i];
      var ids := AddList(assets, target.path, Extensions(inputs));
      var res := inputs.addResults(album.id, ids);
      var errors := SummarizeErrors(res);
      updates := updates + [AlbumUpdate(album.id, target.name, ids, errors)];
      i := i + 1;
    }
    assert pairs[..i] == pairs;
  }

  /** The body of the loop over definition files. */
  method SyncProject(inputs: Inputs, st: RunState, definitionFile: string) returns (r: Result<RunState, Aborted>)
    ensures r == ProjectStep(inputs, st, definitionFile)
  {
    var dir := ProjectDir(definitionFile);
    var def := inputs.definitionAt(definitionFile);
    if !inputs.keep(def.name) {
      return Success(st);
    }
    var files := inputs.filesUnder(ResolvePath(inputs.aliases, dir));
    var targets := AlbumTargets(def, dir);
    if targets.Failure? {
      return Failure(Aborted(targets.error, st));
    }
    var (pairs, created) := ResolveAlbums(inputs.albums, targets.value, st.created, inputs.mint);
    var proxies := CollectProxies(inputs.aliases, inputs.search, inputs.existing, files);
    var assets := ProjectAssets(inputs.aliases, inputs.search, files);
    var updates := UpdateAlbums(inputs, assets, pairs);
    r := Success(RunState(created, st.updates + updates, st.proxies + proxies));
  }

  /** What holds of a run's state at every step: an album is created only
      under a name the snapshot lacks, and every proxy entry names a proxy
      file that exists. */
  predicate RunInvariant(inputs: Inputs, st: RunState) {
    (forall n :: n in st.created ==> forall a :: a in inputs.albums ==> a.albumName != n)
    && (forall p :: p in st.proxies ==> p.encodedVideoPath in inputs.existing)
  }

  lemma ProjectStepKeepsInvariant(inputs: Inputs, st: RunState, definitionFile: string)
    requires RunInvariant(inputs, st)
    requires ProjectStep(inputs, st, definitionFile).Success?
    ensures RunInvariant(inputs, ProjectStep(inputs, st, definitionFile).value)
  {
    var dir := ProjectDir(definitionFile);
    var def := inputs.definitionAt(definitionFile);
    if inputs.keep(def.name) {
      var targets := AlbumTargets(def, dir).value;
      var files := inputs.filesUnder(ResolvePath(inputs.aliases, dir));
      MissingNamesMembers(inputs.albums, targets[1..] + [targets[0]]);
      ProxiesMatchAssets(inputs.aliases, inputs.search, inputs.existing, files);
    }
  }

  /** The invariant holds of every state a run reaches. */
  lemma {:induction false} ProjectsKeepInvariant(inputs: Inputs, definitionFiles: seq<string>)
    requires Projects(inputs, definitionFiles).Success?
    ensures RunInvariant(inputs, Projects(inputs, definitionFiles).value)
  {
    if definitionFiles != [] {
      var front := definitionFiles[..|definitionFiles| - 1];
      ProjectsKeepInvariant(inputs, front);
      ProjectStepKeepsInvariant(inputs, Projects(inputs, front).value, definitionFiles[|definitionFiles| - 1]);
    }
  }

  /** A kept project whose definition has a `null` sub-album entry ends
      the run, whatever comes after it, with the failure tagged by that
      project's name; the state the earlier projects reached is kept in
      the failure, and no SQL is written for their proxies. */
  lemma NullSubAlbumEndsRun(inputs: Inputs, done: seq<string>, file: string, rest: seq<string>, k: nat)
    requires Projects(inputs, done).Success?
    requires inputs.keep(inputs.definitionAt(file).name)
    requires inputs.definitionAt(file).subAlbums.Some?
    requires k < |inputs.definitionAt(file).subAlbums.value| && inputs.definitionAt(file).subAlbums.value[k].None?
    ensures Projects(inputs, done + [file] + rest)
            == Failure(Aborted(NullSubAlbum(inputs.definitionAt(file).name), Projects(inputs, done).value))
    ensures Finish(inputs.aliases, Projects(inputs, done + [file] + rest))
            == Failure(Aborted(NullSubAlbum(inputs.definitionAt(file).name), Projects(inputs, done).value))
  {
    ProjectsSnoc(inputs, done, file);
    FailureIsFinal(inputs, done + [file], rest);
  }

  /** A run that fails makes no SQL script, and one that succeeds writes
      one exactly when it collected a proxy entry. */
  lemma RunWritesSqlIffProxies(inputs: Inputs)
    requires Run(inputs).Success?
    ensures Run(inputs).value.sql.Some? <==> Run(inputs).value.state.proxies != []
    ensures Run(inputs).value.sql.Some? ==> Run(inputs).value.sql.value == SqlScript(inputs.aliases, Run(inputs).value.state.proxies)
    ensures RunInvariant(inputs, Run(inputs).value.state)
  {
    var searchPaths := Setup(inputs).value;
    ProjectsKeepInvariant(inputs, DefinitionFiles(inputs, searchPaths));
  }

  /** The environment check, the library lookup and the search paths. */
  method StartRun(inputs: Inputs) returns (r: Result<seq<string>, SyncError>)
    ensures r == Setup(inputs)
  {
    var env := CheckEnv(inputs.env);
    if env.Fail? {
      return Failure(env.error);
    }
    assert RequiredEnvVars[2] in RequiredEnvVars;
    var name := inputs.env["IMMICH_LIBRARY_NAME"];
    var library := FindLibrary(inputs.libraries, name);
    if library.None? {
      return Failure(LibraryNotFound(name));
    }
    r := CollectSearchPaths(library.value, inputs.aliases, inputs.accessible);
  }

  /** The loop over one search path's definition files, continuing from
      the state the earlier files left; it stops at the first failure. */
  method SyncDefinitionFiles(inputs: Inputs, st0: RunState, ghost before: seq<string>, definitionFiles: seq<string>)
    returns (r: Result<RunState, Aborted>)
    requires Projects(inputs, before) == Success(st0)
    ensures r == Projects(inputs, before + definitionFiles)
  {
    var st := st0;
    var j := 0;
    assert before + definitionFiles[..0] == before;
    while j < |definitionFiles|
      invariant 0 <= j <= |definitionFiles|
      invariant Projects(inputs, before + definitionFiles[..j]) == Success(st)
    {
      DefinitionFileStep(inputs, before, definitionFiles, j, st);
      var next := SyncProject(inputs, st, definitionFiles[j]);
      if next.Failure? {
        return next;
      }
      st := next.value;
      j := j + 1;
    }
    assert definitionFiles[..j] == definitionFiles;
    r := Success(st);
  }

  /** One turn of the definition-file loop: a failing project is the
      result of the whole loop, a succeeding one extends the prefix. */
  lemma DefinitionFileStep(inputs: Inputs, before: seq<string>, definitionFiles: seq<string>, j: nat, st: RunState)
    requires j < |definitionFiles|
    requires Projects(inputs, before + definitionFiles[..j]) == Success(st)
    ensures ProjectStep(inputs, st, definitionFiles[j]).Failure?
            ==> Projects(inputs, before + definitionFiles) == ProjectStep(inputs, st, definitionFiles[j])
    ensures ProjectStep(inputs, st, definitionFiles[j]).Success?
            ==> Projects(inputs, before + definitionFiles[..j + 1]) == ProjectStep(inputs, st, definitionFiles[j])
  {
    ghost var done := before + definitionFiles[..j + 1];
    assert done == before + definitionFiles[..j] + [definitionFiles[j]];
    ProjectsSnoc(inputs, before + definitionFiles[..j], definitionFiles[j]);
    if ProjectStep(inputs, st, definitionFiles[j]).Failure? {
      assert before + definitionFiles == done + definitionFiles[j + 1..];
      FailureIsFinal(inputs, done, definitionFiles[j + 1..]);
    }
  }

  /** The loop over search paths; it stops at the first failure. */
  method SyncSearchPaths(inputs: Inputs, searchPaths: seq<string>) returns (r: Result<RunState, Aborted>)
    ensures r == Projects(inputs, DefinitionFiles(inputs, searchPaths))
  {
    var st := RunState([], [], []);
    var i := 0;
    while i < |searchPaths|
      invariant 0 <= i <= |searchPaths|
      invariant Projects(inputs, DefinitionFiles(inputs, searchPaths[..i])) == Success(st)
    {
      var definitionFiles := inputs.definitionsUnder(ResolvePath(inputs.aliases, searchPaths[i]));
      DefinitionFilesSnoc(inputs, searchPaths, i);
      var next := SyncDefinitionFiles(inputs, st, DefinitionFiles(inputs, searchPaths[..i]), definitionFiles);
      if next.Failure? {
        ghost var done := DefinitionFiles(inputs, searchPaths[..i + 1]);
        ghost var all := DefinitionFiles(inputs, searchPaths);
        DefinitionFilesPrefix(inputs, searchPaths, i + 1);
        assert all == done + all[|done|..];
        FailureIsFinal(inputs, done, all[|done|..]);
        return next;
      }
      st := next.value;
      i := i + 1;
    }
    assert searchPaths[..i] == searchPaths;
    r := Success(st);
  }

  /** `syncProjects`: the checks, the two nested loops over search paths
      and definition files, and the SQL script. */
  method SyncProjects(inputs: Inputs) returns (r: Result<Report, Aborted>)
    ensures r == Run(inputs)
  {
    var setup := StartRun(inputs);
    if setup.Failure? {
      return Failure(Aborted(setup.error, RunState([], [], [])));
    }
    var projects := SyncSearchPaths(inputs, setup.value);
    r := FinishRun(inputs.aliases, projects);
  }

  /** The projects' failure, or the report with the SQL script. */
  method FinishRun(aliases: AliasTable, projects: Result<RunState, Aborted>) returns (r: Result<Report, Aborted>)
    ensures r == Finish(aliases, projects)
  {
    if projects.Failure? {
      return Failure(projects.error);
    }
    var st := projects.value;
    var sql := EmitSql(aliases, st.proxies);
    r := Success(Report(st, sql));
  }
}
