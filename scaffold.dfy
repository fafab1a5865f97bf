/** The project scaffolding commands: `create` (src/create.ts), which
    prompts for what is missing, and `generate` (src/generate.ts), which
    insists on its arguments. Both split the directory list and build the
    project definition they write. */
module Scaffold {
  import opened Wrappers
  import opened Strings
  import opened Seqs
  import opened Project

  const DefaultDirectories: seq<string> := ["photo", "video", "export"]

  /** The only sub-album the scaffolding ever writes. */
  const ExportSubAlbum: SubAlbum := SubAlbum(" / Export", "export")

  /** What the commands produce: the definition, where it is written, and
      the subdirectories they try to create. */
  datatype Scaffolding = Scaffolding(definitionFile: string, definition: ProjectDefinition, subdirectories: seq<string>)

  datatype CreateError = Cancelled

  /** A command-line value as JavaScript tests it: absent or empty is falsy. */
  predicate Given(flag: Option<string>) {
    flag.Some? && flag.value != ""
  }

  /** `values.directories?.split(',') ?? ['photo', 'video', 'export']`. */
  function DirectoryList(flag: Option<string>): (dirs: seq<string>)
    ensures flag.None? ==> dirs == DefaultDirectories
    ensures flag.Some? ==> Join(dirs, ",") == flag.value
    ensures flag.Some? ==> |dirs| >= 1 && forall k :: 0 <= k < |dirs| ==> ',' !in dirs[k]
  {
    if flag.None? then DefaultDirectories
    else
      JoinSplit(flag.value, ',');
      Split(flag.value, ',')
  }

  /** The `projectDefinition` literal: the name, and a one-element
      `subAlbums` holding the export sub-album or `undefined` (written as
      `null`). */
  function BuildDefinition(name: string, dirs: seq<string>): (def: ProjectDefinition)
    ensures def.name == name
    ensures def.subAlbums.Some? && |def.subAlbums.value| == 1
    ensures def.subAlbums.value[0] == Some(ExportSubAlbum) <==> "export" in dirs
    ensures def.subAlbums.value[0] == None <==> "export" !in dirs
  {
    ProjectDefinition(name, Some([if "export" in dirs then Some(ExportSubAlbum) else None]))
  }

  /** `join(path, sub)` for every listed subdirectory. */
  function SubdirectoryPaths(path: string, dirs: seq<string>): (paths: seq<string>)
    ensures |paths| == |dirs|
    ensures forall k :: 0 <= k < |dirs| ==> paths[k] == JoinPath(path, dirs[k])
  {
    Map(dirs, d => JoinPath(path, d))
  }

  /** A `prompts` text question whose validation rejects the empty answer:
      the first non-empty answer in the order typed, or `None` when the user
      cancels (and the process exits) before giving one. */
  function Prompt(answers: seq<string>): (r: Option<string>)
    ensures r.Some? ==> r.value != "" && r.value in answers
    ensures r.Some? ==> exists k :: 0 <= k < |answers| && answers[k] == r.value
                                    && forall j :: 0 <= j < k ==> answers[j] == ""
    ensures r.None? <==> forall k :: 0 <= k < |answers| ==> answers[k] == ""
  {
    if answers == [] then None
    else if answers[0] != "" then Some(answers[0])
    else
      var r := Prompt(answers[1..]);
      assert forall k :: 1 <= k < |answers| ==> answers[k] == answers[1..][k - 1];
      if r.Some? then
        var k :| 0 <= k < |answers[1..]| && answers[1..][k] == r.value
                 && forall j :: 0 <= j < k ==> answers[1..][j] == "";
        assert answers[k + 1] == r.value;
        r
      else r
  }

  /** The `create` command: a missing name, then a missing path, is asked
      for; the definition is built from the name and the directory list. */
  function CreateProject(nameFlag: Option<string>, pathFlag: Option<string>, dirsFlag: Option<string>,
                         nameAnswers: seq<string>, pathAnswers: seq<string>): (r: Result<Scaffolding, CreateError>)
    ensures r.Success? <==> (Given(nameFlag) || Prompt(nameAnswers).Some?) && (Given(pathFlag) || Prompt(pathAnswers).Some?)
    ensures r.Failure? ==> r.error == Cancelled
    ensures r.Success? ==> r.value.definition.name != ""
    ensures r.Success? && Given(nameFlag) ==> r.value.definition.name == nameFlag.value
    ensures r.Success? && !Given(nameFlag) ==> r.value.definition.name == Prompt(nameAnswers).value
    ensures r.Success? ==> r.value.definition == BuildDefinition(r.value.definition.name, DirectoryList(dirsFlag))
    ensures r.Success? && Given(pathFlag)
            ==> r.value.definitionFile == DefinitionFile(pathFlag.value)
                && r.value.subdirectories == SubdirectoryPaths(pathFlag.value, DirectoryList(dirsFlag))
    ensures r.Success? && !Given(pathFlag)
            ==> r.value.definitionFile == DefinitionFile(Prompt(pathAnswers).value)
                && r.value.subdirectories == SubdirectoryPaths(Prompt(pathAnswers).value, DirectoryList(dirsFlag))
  {
    var name := if Given(nameFlag) then Some(nameFlag.value) else Prompt(nameAnswers);
    if name.None? then Failure(Cancelled)
    else
      var path := if Given(pathFlag) then Some(pathFlag.value) else Prompt(pathAnswers);
      if path.None? then Failure(Cancelled)
      else
        var dirs := DirectoryList(dirsFlag);
        Success(Scaffolding(DefinitionFile(path.value), BuildDefinition(name.value, dirs),
                            SubdirectoryPaths(path.value, dirs)))
  }

  /** The `generate` command: usage (`None`) unless path, name and
      directories are all given; the same definition as `create` otherwise. */
  function GenerateProject(pathFlag: Option<string>, nameFlag: Option<string>, dirsFlag: Option<string>)
    : (r: Option<Scaffolding>)
    ensures r.Some? <==> Given(pathFlag) && Given(nameFlag) && Given(dirsFlag)
    ensures r.Some? ==> r.value.definition.name == nameFlag.value
    ensures r.Some? ==> r.value.definitionFile == DefinitionFile(pathFlag.value)
  {
    if !Given(pathFlag) || !Given(nameFlag) || !Given(dirsFlag) then None
    else
      var dirs := DirectoryList(dirsFlag);
      Some(Scaffolding(DefinitionFile(pathFlag.value), BuildDefinition(nameFlag.value, dirs),
                       SubdirectoryPaths(pathFlag.value, dirs)))
  }

  /** Behind `generate`'s guard the default directory list cannot be
      reached: the list is always the split of `--directories`. */
  lemma GenerateNeverDefaults(pathFlag: Option<string>, nameFlag: Option<string>, dirsFlag: Option<string>)
    requires GenerateProject(pathFlag, nameFlag, dirsFlag).Some?
    ensures GenerateProject(pathFlag, nameFlag, dirsFlag).value.subdirectories
            == SubdirectoryPaths(pathFlag.value, Split(dirsFlag.value, ','))
    ensures GenerateProject(pathFlag, nameFlag, dirsFlag).value.definition
            == BuildDefinition(nameFlag.value, Split(dirsFlag.value, ','))
  {
  }

  /** `create` without `--directories` sets up photo, video and export and
      writes the export sub-album. */
  lemma CreateDefaultsHaveExport(name: string, path: string)
    requires name != "" && path != ""
    ensures CreateProject(Some(name), Some(path), None, [], []).Success?
    ensures CreateProject(Some(name), Some(path), None, [], []).value.definition
            == ProjectDefinition(name, Some([Some(ExportSubAlbum)]))
  {
    assert "export" in DefaultDirectories by {
      assert DefaultDirectories[2] == "export";
    }
  }

  /** With every argument given, `create` asks nothing and writes what
      `generate` writes. */
  lemma CreateAgreesWithGenerate(name: string, path: string, dirs: string, nameAnswers: seq<string>,
                                 pathAnswers: seq<string>)
    requires name != "" && path != "" && dirs != ""
    ensures CreateProject(Some(name), Some(path), Some(dirs), nameAnswers, pathAnswers)
            == Success(GenerateProject(Some(path), Some(name), Some(dirs)).value)
  {
  }

  /** What `create` writes as `subAlbums`: the single export entry when
      `export` is among the directories, `null` otherwise. */
  lemma CreateSubAlbums(nameFlag: Option<string>, pathFlag: Option<string>, dirsFlag: Option<string>,
                        nameAnswers: seq<string>, pathAnswers: seq<string>)
    requires CreateProject(nameFlag, pathFlag, dirsFlag, nameAnswers, pathAnswers).Success?
    ensures var def := CreateProject(nameFlag, pathFlag, dirsFlag, nameAnswers, pathAnswers).value.definition;
            def.subAlbums == Some([if "export" in DirectoryList(dirsFlag) then Some(ExportSubAlbum) else None])
  {
  }

  /** Without `export` among the directories the single `subAlbums` entry
      is `null`. */
  lemma NoExportWritesNull(name: string, path: string, dirs: string)
    requires name != "" && path != "" && dirs != ""
    requires "export" !in Split(dirs, ',')
    ensures GenerateProject(Some(path), Some(name), Some(dirs)).value.definition
            == ProjectDefinition(name, Some([None]))
  {
  }
}
