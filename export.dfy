/** The export command (src/export.ts): for one project, the remote albums
    whose names start with the project's name become subfolders of a
    DaVinci Resolve import script. */
module Export {
  import opened Wrappers
  import opened Strings
  import opened Seqs
  import opened PathAlias
  import opened ImportScript
  import opened Project

  /** What `getAlbumInfo` returns that export uses: the album's name and
      the original path of each of its assets, in order. */
  datatype AlbumInfo = AlbumInfo(albumName: string, originalPaths: seq<string>)

  /** The project's albums: those whose name starts with the project's
      name, in snapshot order. */
  function ProjectAlbums(albums: seq<Album>, projectName: string): (r: seq<Album>)
    ensures forall a :: a in r <==> a in albums && StartsWith(a.albumName, projectName)
  {
    Filter(albums, (a: Album) => StartsWith(a.albumName, projectName))
  }

  /** `albumName.replace(projectName, '').replace(' /', '').trim()`. */
  function FolderName(albumName: string, projectName: string): string {
    Trim(ReplaceFirst(ReplaceFirst(albumName, projectName, ""), " /", ""))
  }

  /** `./scripts/${projectName.replace(' / ', '/')}.py`. */
  function OutputPath(projectName: string): string {
    "./scripts/" + ReplaceFirst(projectName, " / ", "/") + ".py"
  }

  /** An album's files: each asset's original path through `resolvePath`. */
  function AlbumFiles(aliases: AliasTable, info: AlbumInfo): (files: seq<string>)
    ensures |files| == |info.originalPaths|
    ensures forall k :: 0 <= k < |files| ==> files[k] == ResolvePath(aliases, info.originalPaths[k])
  {
    Map(info.originalPaths, p => ResolvePath(aliases, p))
  }

  /** Arguments with which `createSubfolderWithFiles` does not throw. */
  predicate ValidCall(c: (string, seq<string>)) {
    Trim(c.0) != "" && c.1 != []
  }

  /** The `createSubfolderWithFiles` call one album leads to: none for an
      album without assets or with an empty folder name. */
  function AlbumCall(aliases: AliasTable, info: AlbumInfo, projectName: string): (r: seq<(string, seq<string>)>)
    ensures |r| <= 1
    ensures |r| == 1 ==> r[0].0 != "" && r[0].1 != []
  {
    var files := AlbumFiles(aliases, info);
    var folder := FolderName(info.albumName, projectName);
    if |files| == 0 || |folder| == 0 then []
    else [(folder, files)]
  }

  /** A folder name that is not empty is not blank either: it was trimmed. */
  lemma FolderNameNotBlank(albumName: string, projectName: string)
    requires |FolderName(albumName, projectName)| > 0
    ensures Trim(FolderName(albumName, projectName)) != ""
  {
    TrimIdempotent(ReplaceFirst(ReplaceFirst(albumName, projectName, ""), " /", ""));
  }

  /** The `(folderName, files)` arguments of the generator calls the album
      loop makes, in album order. Each has a folder name that is not blank
      after trimming and a non-empty file list, so neither of the
      generator's exceptions can fire from export. */
  function ExportCalls(albums: seq<Album>, infoOf: string -> AlbumInfo, aliases: AliasTable,
                       projectName: string): (calls: seq<(string, seq<string>)>)
    ensures |calls| <= |albums|
  {
    CallsOfAtMostOne(infoOf, aliases, projectName);
    FlatMapAtMostOne(albums, CallsOf(infoOf, aliases, projectName));
    FlatMap(albums, CallsOf(infoOf, aliases, projectName))
  }

  /** The calls of one album, as a function of the album. */
  function CallsOf(infoOf: string -> AlbumInfo, aliases: AliasTable, projectName: string)
    : Album -> seq<(string, seq<string>)>
  {
    (album: Album) => AlbumCall(aliases, infoOf(album.id), projectName)
  }

  /** An album makes at most one call. */
  lemma CallsOfAtMostOne(infoOf: string -> AlbumInfo, aliases: AliasTable, projectName: string)
    ensures forall album :: |CallsOf(infoOf, aliases, projectName)(album)| <= 1
  {
    forall album: Album
      ensures |CallsOf(infoOf, aliases, projectName)(album)| <= 1
    {
      assert CallsOf(infoOf, aliases, projectName)(album) == AlbumCall(aliases, infoOf(album.id), projectName);
    }
  }

  /** The call one album makes, if any, passes the generator's checks. */
  lemma AlbumCallValid(aliases: AliasTable, info: AlbumInfo, projectName: string)
    ensures forall k :: 0 <= k < |AlbumCall(aliases, info, projectName)| ==> ValidCall(AlbumCall(aliases, info, projectName)[k])
  {
    var files := AlbumFiles(aliases, info);
    var folder := FolderName(info.albumName, projectName);
    if |files| > 0 && |folder| > 0 {
      FolderNameNotBlank(info.albumName, projectName);
      assert AlbumCall(aliases, info, projectName) == [(folder, files)];
    }
  }

  /** Every call export makes passes the generator's checks, so neither of
      its exceptions can fire from export. */
  lemma {:induction false} ExportCallsValid(albums: seq<Album>, infoOf: string -> AlbumInfo, aliases: AliasTable,
                                            projectName: string)
    ensures forall k :: 0 <= k < |ExportCalls(albums, infoOf, aliases, projectName)|
              ==> ValidCall(ExportCalls(albums, infoOf, aliases, projectName)[k])
  {
    if albums != [] {
      ExportCallsValid(albums[1..], infoOf, aliases, projectName);
      AlbumCallValid(aliases, infoOf(albums[0].id), projectName);
      AllAppend(AlbumCall(aliases, infoOf(albums[0].id), projectName),
                ExportCalls(albums[1..], infoOf, aliases, projectName), ValidCall);
    }
  }

  lemma ExportCallsAppend(a: seq<Album>, b: seq<Album>, infoOf: string -> AlbumInfo,
                                             aliases: AliasTable, projectName: string)
    ensures ExportCalls(a + b, infoOf, aliases, projectName)
            == ExportCalls(a, infoOf, aliases, projectName) + ExportCalls(b, infoOf, aliases, projectName)
  {
    FlatMapAppend(a, b, CallsOf(infoOf, aliases, projectName));
  }

  /** The operations the generator holds after the loop: one subfolder
      operation per call; export never adds a root import. */
  function ExportOperations(calls: seq<(string, seq<string>)>): (ops: seq<ScriptOperation>)
    ensures |ops| == |calls|
    ensures forall k :: 0 <= k < |calls| ==> ops[k] == Subfolder(calls[k].0, calls[k].1)
  {
    Map(calls, CallOperation)
  }

  function CallOperation(c: (string, seq<string>)): ScriptOperation {
    Subfolder(c.0, c.1)
  }

  /** An album named exactly like the project (the primary album) gives an
      empty folder name. */
  lemma PrimaryAlbumHasNoFolder(projectName: string)
    ensures FolderName(projectName, projectName) == ""
  {
    ReplaceAtPrefix(projectName, projectName, "");
    assert ReplaceFirst(projectName, projectName, "") == "";
    assert ReplaceFirst("", " /", "") == "";
  }

  /** A sub-album named `projectName + " /" + rest`, as sync names them,
      exports into the folder `rest`, trimmed. */
  lemma SubAlbumFolder(projectName: string, rest: string)
    ensures FolderName(projectName + " /" + rest, projectName) == Trim(rest)
  {
    var albumName := projectName + " /" + rest;
    var tail := " /" + rest;
    assert StartsWith(albumName, projectName);
    ReplaceAtPrefix(albumName, projectName, "");
    assert albumName[|projectName|..] == tail;
    assert ReplaceFirst(albumName, projectName, "") == tail;
    assert StartsWith(tail, " /");
    ReplaceAtPrefix(tail, " /", "");
    assert tail[2..] == rest;
    assert ReplaceFirst(tail, " /", "") == rest;
  }

  /** The albums exported for project "Trip" include "Trip2 Beach". */
  lemma PrefixSelectsLongerNames()
    ensures Album("2", "Trip2 Beach") in ProjectAlbums([Album("1", "Trip"), Album("2", "Trip2 Beach")], "Trip")
  {
    assert StartsWith("Trip2 Beach", "Trip");
  }

  /** A project named `a / b` writes its script to `./scripts/a/b.py`
      when the first ` / ` is the one after `a`; any later ` / ` in `b` is
      kept as it is. */
  lemma OutputPathNested(a: string, b: string)
    requires forall j :: 0 <= j < |a| ==> !OccursAt(a + " / " + b, " / ", j)
    ensures OutputPath(a + " / " + b) == "./scripts/" + a + "/" + b + ".py"
  {
    var s := a + " / " + b;
    assert OccursAt(s, " / ", |a|);
    assert IndexOf(s, " / ") == Some(|a|);
    assert s[..|a|] == a;
    assert s[|a| + 3..] == b;
  }

  /** A project name without ` / ` is used as it is. */
  lemma OutputPathFlat(projectName: string)
    requires forall j :: 0 <= j <= |projectName| ==> !OccursAt(projectName, " / ", j)
    ensures OutputPath(projectName) == "./scripts/" + projectName + ".py"
  {
  }

  /** One more album extends the operations by that album's call, if any. */
  lemma ExportCallsSingle(album: Album, infoOf: string -> AlbumInfo, aliases: AliasTable, projectName: string)
    ensures ExportCalls([album], infoOf, aliases, projectName) == AlbumCall(aliases, infoOf(album.id), projectName)
  {
    FlatMapSnoc([], album, CallsOf(infoOf, aliases, projectName));
    assert [] + [album] == [album];
  }

  /** The operation one album contributes, if any. */
  lemma AlbumOperations(aliases: AliasTable, info: AlbumInfo, projectName: string)
    ensures |AlbumFiles(aliases, info)| > 0 && |FolderName(info.albumName, projectName)| > 0
            ==> ExportOperations(AlbumCall(aliases, info, projectName))
                == [Subfolder(FolderName(info.albumName, projectName), AlbumFiles(aliases, info))]
    ensures |AlbumFiles(aliases, info)| == 0 || |FolderName(info.albumName, projectName)| == 0
            ==> ExportOperations(AlbumCall(aliases, info, projectName)) == []
  {
  }

  lemma ExportStep(selected: seq<Album>, i: nat, infoOf: string -> AlbumInfo, aliases: AliasTable, projectName: string)
    requires i < |selected|
    ensures ExportOperations(ExportCalls(selected[..i + 1], infoOf, aliases, projectName))
            == ExportOperations(ExportCalls(selected[..i], infoOf, aliases, projectName))
               + ExportOperations(AlbumCall(aliases, infoOf(selected[i].id), projectName))
  {
    var a := selected[..i];
    var b := [selected[i]];
    assert selected[..i + 1] == a + b;
    ExportCallsAppend(a, b, infoOf, aliases, projectName);
    ExportCallsSingle(selected[i], infoOf, aliases, projectName);
    MapAppend(ExportCalls(a, infoOf, aliases, projectName), AlbumCall(aliases, infoOf(selected[i].id), projectName),
              CallOperation);
  }

  /** One turn of the album loop: an album without assets is skipped, and
      one whose folder name is empty (the primary album) adds nothing. */
  method ExportAlbum(gen: ResolveImportScript, info: AlbumInfo, aliases: AliasTable, projectName: string)
    modifies gen
    ensures gen.operations == old(gen.operations) + ExportOperations(AlbumCall(aliases, info, projectName))
  {
    var files := AlbumFiles(aliases, info);
    var folderName := FolderName(info.albumName, projectName);
    ghost var ops := ExportOperations(AlbumCall(aliases, info, projectName));
    AlbumCallShape(aliases, info, projectName, files, folderName);
    if |files| > 0 && |folderName| > 0 {
      var outcome := gen.CreateSubfolderWithFiles(folderName, files);
      assert gen.operations == old(gen.operations) + ops;
    } else {
      assert gen.operations == old(gen.operations) + ops;
    }
  }

  /** `AlbumOperations` for the files and folder name the loop computes,
      with the folder name's trimmed form. */
  lemma AlbumCallShape(aliases: AliasTable, info: AlbumInfo, projectName: string, files: seq<string>, folder: string)
    requires files == AlbumFiles(aliases, info) && folder == FolderName(info.albumName, projectName)
    ensures |folder| > 0 ==> Trim(folder) != ""
    ensures |files| == 0 || |folder| == 0 ==> ExportOperations(AlbumCall(aliases, info, projectName)) == []
    ensures |files| > 0 && |folder| > 0 ==> ExportOperations(AlbumCall(aliases, info, projectName)) == [Subfolder(folder, files)]
  {
    AlbumOperations(aliases, info, projectName);
    if |folder| > 0 {
      FolderNameNotBlank(info.albumName, projectName);
    }
  }

  /** The album loop of one project, driving a fresh generator, and the
      path the script is written to. The generator never throws here
      (`ExportCalls` states why), so every call adds its operation. */
  method ExportProject(albums: seq<Album>, infoOf: string -> AlbumInfo, aliases: AliasTable, projectName: string)
    returns (script: string, outputPath: string)
    ensures script == TemplateHead
              + OperationsText(ExportOperations(ExportCalls(ProjectAlbums(albums, projectName), infoOf, aliases, projectName)))
              + TemplateTail
    ensures outputPath == OutputPath(projectName)
  {
    var selected := ProjectAlbums(albums, projectName);
    var gen := new ResolveImportScript();
    var i := 0;
    assert selected[..0] == [];
    while i < |selected|
      invariant 0 <= i <= |selected|
      invariant gen.operations == ExportOperations(ExportCalls(selected[..i], infoOf, aliases, projectName))
    {
      ExportStep(selected, i, infoOf, aliases, projectName);
      ExportAlbum(gen, infoOf(selected[i].id), aliases, projectName);
      i := i + 1;
    }
    assert selected[..i] == selected;
    script := gen.GenerateScript();
    outputPath := OutputPath(projectName);
  }
}
