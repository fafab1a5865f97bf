/** How the commands meet: `create` and `generate` write the definition
    that `sync` reads, and `sync` names the albums that `export` turns into
    folders. */
module Workflow {
  import opened Wrappers
  import opened Strings
  import opened Project
  import opened Scaffold
  import opened Sync
  import Export

  /** A project scaffolded with the default directories has two albums in
      sync: the primary album at the project directory and the export
      sub-album at its `export` directory. */
  lemma CreatedProjectAlbums(name: string, path: string)
    requires name != "" && path != ""
    ensures var s := CreateProject(Some(name), Some(path), None, [], []).value;
            AlbumTargets(s.definition, ProjectDir(s.definitionFile))
            == Success([AlbumTarget(name, path), AlbumTarget(name + " / Export", JoinPath(path, "export"))])
  {
    CreateDefaultsHaveExport(name, path);
    ProjectDirOfDefinitionFile(path);
    var s := CreateProject(Some(name), Some(path), None, [], []).value;
    assert s.definitionFile == DefinitionFile(path);
    var r := AlbumTargets(s.definition, path);
    assert r.Success? && |r.value| == 2;
    assert r.value[0] == AlbumTarget(name, path);
    assert r.value[1] == AlbumTarget(name + ExportSubAlbum.suffix, JoinPath(path, ExportSubAlbum.path));
    assert ExportSubAlbum.suffix == " / Export" && ExportSubAlbum.path == "export";
    assert r.value == [AlbumTarget(name, path), AlbumTarget(name + " / Export", JoinPath(path, "export"))];
  }

  /** A project generated without an `export` directory has a `null`
      sub-album entry, which makes sync fail on it. */
  lemma GeneratedWithoutExportFailsSync(name: string, path: string, dirs: string, dir: string)
    requires name != "" && path != "" && dirs != ""
    requires "export" !in Split(dirs, ',')
    ensures AlbumTargets(GenerateProject(Some(path), Some(name), Some(dirs)).value.definition, dir)
            == Failure(NullSubAlbum(name))
  {
    NoExportWritesNull(name, path, dirs);
  }

  /** The export sub-album sync creates for a scaffolded project becomes the
      folder `Export` of the project's import script. */
  lemma ExportSubAlbumFolder(name: string)
    ensures Export.FolderName(name + ExportSubAlbum.suffix, name) == "Export"
  {
    assert name + ExportSubAlbum.suffix == name + " /" + " Export";
    Export.SubAlbumFolder(name, " Export");
    TrimExport();
  }

  lemma TrimExport()
    ensures Trim(" Export") == "Export"
  {
    var e := "Export";
    assert !IsJsSpace(e[0]) && !IsJsSpace(e[|e| - 1]);
    assert (" " + e)[1..] == e;
    assert TrimStart(" " + e) == TrimStart(e);
  }
}
