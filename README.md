# impm in Dafny

impm is a command-line companion to an Immich photo server and DaVinci
Resolve. This project models its decision and string-shaping core and
proves properties of it:

- **Path aliases** (`wrappers.dfy`, `strings.dfy`, `path_alias.dfy`).
  `resolvePath` and `resolveAlias` rewrite a path prefix through an
  ordered alias table. The first match wins, not the longest. A
  successful `startsWith` followed by `replace` is exactly a prefix swap.
  Round trips hold when the table is prefix-free, and a lemma shows one
  that fails when it is not. The lazily loaded table is a small class
  that loads it once.
- **Sync** (`sync.dfy`). The whole of `syncProjects` is modelled:
  - the environment check, the library lookup and the accessible search paths;
  - the definition files of each search path and the `--filter` skip;
  - the album list, built from the primary album and the sub-album entries;
  - `findOrCreateAlbum` against a snapshot that is never updated;
  - assets found per file, and proxy detection;
  - the per-album add-lists (the primary album takes every asset when the
    project's files lie under its directory, which holds when no alias
    applies to that directory);
  - the error summary of each bulk add;
  - the SQL update script.

  Pure functions (`Setup`, `ProjectStep`, `Projects`, `Run`) specify the
  run. The loops of the source are methods proved equal to them
  (`SyncProjects == Run`).
- **Import script generator** (`import_script.dfy`). `ResolveImportScript`
  is a class with a sequence of operations, guarded appends, `clear`,
  `count`, and `generateScript` as a template substitution.
- **Export** (`export.dfy`). It selects the albums of one
  project by name prefix, derives folder names, skips empty and primary
  albums, and drives the generator. It is proved never to trigger the
  generator's exceptions.
- **Offload** (`offload.dfy`). Photos and videos are copied by base name
  into `photo/` and `video/`, never over an existing file, and optionally
  removed. The file table is a map and the three counters are the fields
  of a class updated in place. Its behaviour is specified by the pure
  `Step`/`Steps`/`OffloadRun`.
- **create / generate** (`project.dfy`, `scaffold.dfy`). These split the
  directory list and build the project definition. Its single `subAlbums`
  entry is `null` unless `export` is listed.
- **How the commands meet** (`workflow.dfy`). A definition generated
  without `export` makes sync fail. A default `create` gives sync two
  albums, and its export sub-album becomes the import-script folder
  `Export`.

Effects are inputs:

- Immich calls (`getAllLibraries`, `getAllAlbums`, `createAlbum`,
  `searchMetadata`, `addAssetsToAlbum`, `getAlbumInfo`) are sequences and
  oracle functions. `createAlbum` returns `mint(n)` for the n-th album
  created.
- Bun globs are given file lists. For album membership the glob is taken
  as "below the album directory, ending in a configured extension".
- The file system is a set of accessible or existing paths (sync) or a
  table from paths to entries (offload).

The source is TypeScript, and JavaScript semantics are written out:

- `replace` with a string pattern replaces the first occurrence only.
- `trim` removes the ECMAScript white-space and line-terminator set.
- `split` on one character always yields at least one piece.
- Truthiness: an unset or empty value is falsy.
- `path.parse` gives the `dir`, `base` and `name` of a posix path.

## Model

| member | source | states |
|---|---|---|
| PathAlias.FirstMatch | src/utils/index.ts:23-24 | the index returned is the first entry, in table order, whose key is a prefix of the path; `None` exactly when no key is a prefix |
| PathAlias.Rewrite | src/utils/index.ts:23-29 | no contract; the loop over the table that both functions share, specified by `RewriteNoMatch`, `RewriteFirstMatch` and `RewriteSpec` |
| PathAlias.ResolvePath | src/utils/index.ts:19-30 | no contract; alias to resolved path, specified by `ResolvePathSpec` and the round-trip lemmas |
| PathAlias.ResolveAlias | src/utils/index.ts:37-48 | no contract; resolved path to alias, specified by `ResolveAliasSpec` and the round-trip lemmas |
| PathAlias.RewriteNoMatch | src/utils/index.ts:23-29 | with no entry matching, the path is returned unchanged |
| PathAlias.RewriteFirstMatch | src/utils/index.ts:24-25 | when entry i is the first match, the result is its target followed by the path after the matched key (`replace` hits index 0 after `startsWith`) |
| PathAlias.RewriteSpec | src/utils/index.ts:23-29 | both cases of the first-match rewrite at once, for either direction |
| PathAlias.ResolvePathSpec | src/utils/index.ts:19-30 | `resolvePath` is the identity when no alias is a prefix; otherwise, for the first matching `(a, r)`, it is `r + path[|a|..]` |
| PathAlias.ResolveAliasSpec | src/utils/index.ts:37-48 | `resolveAlias` is the mirror: the identity when no resolved path is a prefix; otherwise `a + path[|r|..]` for the first matching entry |
| PathAlias.EmptyTableIdentity | src/utils/index.ts:19-47 | with the default empty table both functions are the identity |
| PathAlias.FirstMatchNotLongest | src/utils/index.ts:23-26 | an earlier shorter alias wins over a later longer one (`/mnt` before `/mnt/photos`) |
| PathAlias.RewriteBack | src/utils/index.ts:19-47 | with prefix-free keys on the way back, a path starting with entry k's target rewrites back to entry k's key |
| PathAlias.RewriteRoundTrip | src/utils/index.ts:19-47 | rewriting one way and back restores a path that some entry matches, when the keys of the way back are prefix-free |
| PathAlias.AliasThenResolve | src/utils/index.ts:19-47 | `resolvePath(resolveAlias(p)) == p` for p under a resolved path, with prefix-free aliases |
| PathAlias.ResolveThenAlias | src/utils/index.ts:19-47 | `resolveAlias(resolvePath(p)) == p` for p under an alias, with prefix-free resolved paths |
| PathAlias.SingleEntryRoundTrip | src/utils/index.ts:19-47 | for the single-entry table `{a: r}` and p starting with r, `resolvePath(resolveAlias(p)) == p` |
| PathAlias.RoundTripNeedsPrefixFree | src/utils/index.ts:23-26 | an input whose round trip does not return the path when the table is not prefix-free |
| PathAlias.AliasCache.constructor | src/utils/index.ts:4-6 | the table starts unloaded |
| PathAlias.AliasCache.Table | src/utils/index.ts:8-12 | the first call loads the configured table; later calls reuse the loaded one unchanged |
| PathAlias.AliasCache.ResolvePathCached | src/utils/index.ts:19-30 | `resolvePath` through the cache: loads at most once, and the result is `ResolvePath` over the loaded table |
| PathAlias.AliasCache.ResolveAliasCached | src/utils/index.ts:37-48 | the same for `resolveAlias` |
| Strings.IndexOf | src/export.ts:85 | `indexOf`: the least index where the pattern occurs, or none when it occurs nowhere |
| Strings.ReplaceFirst | src/export.ts:85 | no contract; `replace` with a string pattern, first occurrence only, specified by `ReplaceAtPrefix` and used by `OutputPathNested` |
| Strings.ReplaceAtPrefix | src/utils/index.ts:24-25 | `replace` right after a successful `startsWith` swaps exactly the prefix |
| Strings.Split | src/create.ts:80 | `split(',')` gives at least one piece and no piece contains the separator |
| Strings.JoinSplit | src/create.ts:80 | joining the pieces of `split(c)` with `c` gives the string back |
| Strings.SplitJoin | src/create.ts:80 | splitting a join of separator-free pieces gives the pieces back |
| Strings.JoinSnoc | src/utils/drb.ts:119-121 | joining one more part appends the separator and the part |
| Strings.TrimStart | src/export.ts:85 | only leading white space is removed, and the result does not start with white space |
| Strings.TrimEnd | src/export.ts:85 | only trailing white space is removed, and the result does not end with white space |
| Strings.Trim | src/export.ts:85 | no contract; `trim()`, specified by `TrimStart`, `TrimEnd`, `TrimIdempotent` and `TrimEmptyIff` |
| Strings.TrimIdempotent | src/export.ts:85 | trimming a trimmed string changes nothing |
| Strings.TrimEmptyIff | src/utils/drb.ts:79 | `trim()` is empty exactly when every character is white space |
| Seqs.Filter | src/sync.ts:156-158 | `filter` keeps exactly the elements satisfying the predicate |
| Seqs.FilterAppend | src/sync.ts:156-158 | filtering distributes over concatenation, so relative order is kept |
| Seqs.FilterAll | src/sync.ts:156-158 | when every element passes, the filter is the identity |
| Seqs.Map | src/sync.ts:158 | `map` applies the function at every index |
| Seqs.FindIndex | src/sync.ts:199 | the first index whose element satisfies the predicate; `None` exactly when no element does |
| Seqs.FlatMapMembers | src/sync.ts:151 | an element of `flat()` comes from some element's list, and every element's list is in it |
| Seqs.FlatMapAppend | src/sync.ts:151 | `flat()` over the results of two lists is the flattening of each, in order |
| Project.LastIndexOf | src/sync.ts:127-128 | the last index of a character, with no occurrence after it; `None` exactly when it does not occur |
| Project.ParseDir | src/sync.ts:128 | `parse(file).dir` is empty, `/`, or a proper prefix of the path |
| Project.ParseBase | src/offload.ts:83 | `basename` has no `/` and ends the path |
| Project.LastIndexOfIs | src/sync.ts:127-128 | an occurrence of a character with none after it is the one `LastIndexOf` finds |
| Project.LastIndexOfAfter | src/sync.ts:127-128 | in `a + c + b` with no `c` in `b`, the last `c` is the one right after `a` |
| Project.ParseName | src/sync.ts:127 | `parse(file).name` is a prefix of the base name |
| Project.ProjectDir | src/sync.ts:86 | removing a trailing `/immich-project.json` leaves a prefix 20 characters shorter; any other path is unchanged |
| Project.ProjectDirOfDefinitionFile | src/create.ts:101 | the directory sync derives from the file create writes is the project path |
| Scaffold.DirectoryList | src/create.ts:80 | without `--directories` the list is photo, video, export; with it, the pieces join back to the value and contain no comma |
| Scaffold.BuildDefinition | src/create.ts:94-99 | the name is kept; `subAlbums` has one entry, the export sub-album if and only if `export` is listed, `null` if and only if it is not |
| Scaffold.SubdirectoryPaths | src/create.ts:81-83 | one `join(path, sub)` per listed directory, in order |
| Scaffold.Prompt | src/create.ts:30-46 | the answer is the first non-empty one typed; cancellation happens exactly when every answer given was empty |
| Scaffold.CreateProject | src/create.ts:30-103 | succeeds exactly when a name and a path are each given or typed, and cancels otherwise; the name is the given one or the first non-empty answer; the definition is `BuildDefinition` of it and the directory list; the file is `join(path, "immich-project.json")` and the subdirectories `join(path, sub)` for the given or typed path |
| Scaffold.CreateAgreesWithGenerate | src/create.ts:30-103 | with every argument given, create asks nothing and writes exactly what generate writes |
| Scaffold.CreateSubAlbums | src/create.ts:94-99 | create writes one `subAlbums` entry: the export sub-album when `export` is among the directories, `null` otherwise |
| Scaffold.GenerateProject | src/generate.ts:33-76 | a definition is produced if and only if path, name and directories are all given; its name is `--name` and its file is `join(path, "immich-project.json")` |
| Scaffold.GenerateNeverDefaults | src/generate.ts:33-53 | behind the guard the directory list is always the split of `--directories` |
| Scaffold.CreateDefaultsHaveExport | src/create.ts:80-99 | create without `--directories` writes the export sub-album |
| Scaffold.NoExportWritesNull | src/generate.ts:67-72 | without `export` the single `subAlbums` entry is `null` |
| ImportScript.OperationsTextSnoc | src/utils/drb.ts:119-121 | one more operation adds a newline and its code at the end; the first one is the whole text |
| ImportScript.TemplateSubstitution | src/utils/drb.ts:123 | replacing the single marker puts the operations text exactly between the template head and tail |
| ImportScript.ResolveImportScript.constructor | src/utils/drb.ts:10-11 | a fresh generator has no operations |
| ImportScript.ResolveImportScript.AddFilesToRoot | src/utils/drb.ts:52-70 | an empty list throws and leaves the operations unchanged; otherwise exactly one root import is appended |
| ImportScript.ResolveImportScript.CreateSubfolderWithFiles | src/utils/drb.ts:78-111 | a blank name throws first, then an empty list; otherwise exactly one subfolder operation is appended |
| ImportScript.ResolveImportScript.GenerateScript | src/utils/drb.ts:118-133 | the script is the template head, the operations' code joined by newlines in insertion order, and the tail |
| ImportScript.ResolveImportScript.ClearOperations | src/utils/drb.ts:138-140 | no operations remain |
| ImportScript.ResolveImportScript.GetOperationCount | src/utils/drb.ts:146-148 | the count is the number of operations held |
| Export.ProjectAlbums | src/export.ts:68 | exactly the snapshot albums whose name starts with the project name |
| Export.AlbumFiles | src/export.ts:76-78 | each asset's original path through `resolvePath`, in asset order |
| Export.FolderName | src/export.ts:85 | no contract; the folder name of an album, specified by `PrimaryAlbumHasNoFolder`, `SubAlbumFolder` and `FolderNameNotBlank` |
| Export.OutputPath | src/export.ts:91 | no contract; the script path, specified by `OutputPathNested` and `OutputPathFlat` |
| Export.AlbumCall | src/export.ts:80-88 | an album adds at most one call, and only with a non-empty folder name and a non-empty file list |
| Export.FolderNameNotBlank | src/export.ts:85-87 | a non-empty folder name is not blank after trimming, because it was trimmed |
| Export.ExportCalls | src/export.ts:72-89 | at most one call per album |
| Export.AlbumCallValid | src/export.ts:80-88 | the call an album makes passes both of the generator's checks |
| Export.ExportCallsValid | src/export.ts:72-89 | every call export makes passes both checks, so `createSubfolderWithFiles` never throws from export |
| Export.ExportCallsAppend | src/export.ts:72-89 | the calls of two album lists in sequence are the calls of each, in order |
| Export.ExportOperations | src/export.ts:87 | one subfolder operation per call |
| Export.PrimaryAlbumHasNoFolder | src/export.ts:85 | the album named like the project gets an empty folder name, so nothing is added for it |
| Export.SubAlbumFolder | src/export.ts:85 | an album named `project + " /" + rest` exports into the folder `trim(rest)` |
| Export.PrefixSelectsLongerNames | src/export.ts:68 | project "Trip" also exports the album "Trip2 Beach" |
| Export.OutputPathNested | src/export.ts:91 | project `a / b`, whose first ` / ` is the one after `a`, writes to `./scripts/a/b.py`, with any later ` / ` kept (so `a / b / c` writes to `./scripts/a/b / c.py`) |
| Export.OutputPathFlat | src/export.ts:91 | a project name without ` / ` is used as it is: `./scripts/name.py` |
| Export.AlbumOperations | src/export.ts:80-88 | an album with files and a non-empty folder name adds its subfolder operation; any other album adds nothing |
| Export.ExportStep | src/export.ts:72-89 | one more album extends the operations by that album's contribution |
| Export.ExportAlbum | src/export.ts:73-88 | one turn of the album loop appends that album's contribution to the generator |
| Export.ExportProject | src/export.ts:68-93 | the script is the template with the selected albums' subfolder operations in album order; the output path is `OutputPath` |
| Sync.FirstUnset | src/sync.ts:29-34 | the first unset or empty variable in order; `None` exactly when all are set |
| Sync.CheckEnv | src/sync.ts:29-34 | passes if and only if every required variable is set and non-empty; otherwise it names an unset one |
| Sync.FindLibrary | src/sync.ts:46-49 | the first library with that exact name; `None` exactly when there is none |
| Sync.SearchPaths | src/sync.ts:57-67 | exactly the import paths whose resolved path is accessible |
| Sync.CollectSearchPaths | src/sync.ts:57-70 | a missing `importPaths` array is fatal; otherwise the loop pushes exactly the accessible import paths, in order |
| Sync.FindAlbum | src/sync.ts:199 | the first snapshot album with exactly that name; `None` exactly when there is none |
| Sync.FindOrCreate | src/sync.ts:198-209 | the first snapshot album of that name (the one `find` returns) is returned without a create; a missing name is created once, with the id `mint(n)` for the n-th create; the snapshot is not extended |
| Sync.MissingAlbumCreatedTwice | src/sync.ts:198-209 | asking twice for a name the snapshot lacks creates two albums |
| Sync.SubAlbumTargets | src/sync.ts:103-109 | succeeds exactly when no entry is `null`; each entry gives `name + suffix` at `join(dir, path)` |
| Sync.AlbumTargets | src/sync.ts:103-114 | the primary album `(name, dir)` first, then one target per sub-album in order; a `null` entry fails the project (the failure is tagged `NullSubAlbum(name)` by the model; the program's TypeError does not name the project) |
| Sync.FindOrCreateAll | src/sync.ts:103-109 | each target paired with an album of exactly its name, the first snapshot album of that name when there is one; the names created are the missing ones, in order |
| Sync.MissingNamesMembers | src/sync.ts:198-209 | exactly the target names the snapshot has no album for |
| Sync.ResolveAlbums | src/sync.ts:103-114 | the album list in order with an album of the right name each, the first snapshot album of that name when there is one; sub-album creations come before the primary's |
| Sync.ParseOf | src/sync.ts:127-128 | `parse(dir/base)` gives `dir` (or `/` for the root) and `base`, for a base without `/` |
| Sync.NameOf | src/sync.ts:127 | the name of a file whose base is `name.ext` is `name`, for an extension without `.` and a name other than `.` |
| Sync.ProxyPath | src/sync.ts:127-128 | no contract; the proxy path of a file, specified by `ProxyPathOf` |
| Sync.ProxyPathOf | src/sync.ts:127-128 | for any directory other than `/` and any base name `name.ext` whose extension holds no `.`, the proxy of `dir/name.ext` is `dir/Proxy/name.mov` |
| Sync.FileAssets | src/sync.ts:116-148 | no contract; the assets found for one file, specified by `ProjectAssetsMembers` and `FailedSearchSkipped` |
| Sync.ProjectAssets | src/sync.ts:116-151 | no contract; the flattened assets of a project, specified by `ProjectAssetsMembers` and `ProjectAssetsAppend` |
| Sync.FileProxies | src/sync.ts:126-137 | no contract; the proxy entries of one file, specified by `FileProxiesMatch` and `FileProxiesComplete` |
| Sync.ProjectProxies | src/sync.ts:126-137 | no contract; the proxy entries of a project, specified by `ProxiesComplete`, `ProxiesMatchAssets` and `CollectProxies` |
| Sync.ProjectAssetsMembers | src/sync.ts:116-151 | the flattened assets are exactly the assets found for some project file, and each carries that file's path |
| Sync.FileProxiesMatch | src/sync.ts:126-137 | a file's proxy entries name its existing proxy and an asset found for it |
| Sync.FileProxiesComplete | src/sync.ts:126-137 | a file's proxy entries are exactly its assets' ids in order, each with the file's proxy, when that proxy exists, and none when it does not |
| Sync.ProxiesComplete | src/sync.ts:126-137 | every asset found for a project file whose proxy exists has a proxy entry naming that proxy |
| Sync.ProxiesMatchAssets | src/sync.ts:126-137 | every proxy entry names an existing `dir/Proxy/name.mov` of some file and an asset found for that file |
| Sync.CollectProxies | src/sync.ts:126-137 | the pushes over the project's files give exactly `ProjectProxies`, in file order |
| Sync.ProjectAssetsAppend | src/sync.ts:151 | the flattened assets of two file lists are the assets of each, in order |
| Sync.FailedSearchSkipped | src/sync.ts:145-148 | a file whose search fails adds nothing and the files after it are still matched |
| Sync.InAlbum | src/sync.ts:155-157 | no contract; the album glob match, specified by `AddList`, `SubAlbumInPrimary` and `PrimaryTakesAll` |
| Sync.AddList | src/sync.ts:155-158 | an id is in an album's add-list exactly when an asset with that id lies under the album path with a configured extension |
| Sync.SubAlbumInPrimary | src/sync.ts:155 | what a sub-album's glob matches, the primary album's glob matches too |
| Sync.PrimaryTakesAll | src/sync.ts:155-158 | when every project file lies under the project directory with a configured extension, the primary album's add-list holds every asset found for the project |
| Sync.ExportFileInBothAlbums | src/sync.ts:155-158 | a file under `export/` is added to both the sub-album and the primary album |
| Sync.FailureCount | src/sync.ts:168 | `errorCount` never exceeds the number of results |
| Sync.Tally | src/sync.ts:174-181 | the count under one message never exceeds `errorCount` |
| Sync.Messages | src/sync.ts:174-181 | a message is a key exactly when some failure carries it |
| Sync.ErrorSummary | src/sync.ts:168-182 | no summary exactly when nothing failed; otherwise each message maps to the number of failures carrying it |
| Sync.CountsStep | src/sync.ts:174-181 | one more result bumps the count of its message, from zero when the message is new, and changes no other count |
| Sync.SummarizeErrors | src/sync.ts:168-182 | the `forEach` loop builds exactly `ErrorSummary` |
| Sync.SqlStatement | src/sync.ts:192 | no contract; one `UPDATE` line, specified by `StatementOneLine` and `SqlLines` |
| Sync.SqlScript | src/sync.ts:190-193 | no contract; the text the `sql +=` loop builds, specified by `SqlScriptAppend`, `SqlLines` and `EmitSql` |
| Sync.MessagelessFailureUntallied | src/sync.ts:168-181 | a failure without a message, or with an empty one, adds one to `errorCount`, still yields a summary, and changes no message's count |
| Sync.SqlScriptAppend | src/sync.ts:190-193 | the script of two proxy lists is the script of each, in order |
| Sync.EmitSql | src/sync.ts:188-196 | nothing is written exactly when there are no proxies; otherwise the `sql +=` loop builds `SqlScript` |
| Sync.StatementOneLine | src/sync.ts:192 | a statement has no line break when its id and path have none |
| Sync.SqlLines | src/sync.ts:190-193 | read back by lines, the script is one statement per proxy entry in order, then the empty text after the last newline |
| Sync.Updates | src/sync.ts:154-184 | one update per album, in album order, sent under that album's id and name |
| Sync.ProjectStep | src/sync.ts:86-184 | no contract; one project of the run, which fails carrying the state reached before it, specified by `SyncProject` and `ProjectStepKeepsInvariant` |
| Sync.Projects | src/sync.ts:85-185 | no contract; the definition-file loop, specified by `ProjectsSnoc`, `FailureIsFinal`, `ProjectsKeepInvariant` and `NullSubAlbumEndsRun` |
| Sync.ProjectsSnoc | src/sync.ts:85-185 | one more definition file applies one project step, unless the run has already failed |
| Sync.FailureIsFinal | src/sync.ts:103-114 | after a failure nothing more is processed and the failure is the run's result |
| Sync.DefinitionFilesSnoc | src/sync.ts:78-85 | one more search path appends its definition files |
| Sync.DefinitionFilesPrefix | src/sync.ts:78-85 | the definition files of the first search paths come first |
| Sync.UpdateAlbums | src/sync.ts:154-184 | the album loop sends exactly the updates of `Updates` |
| Sync.SyncProject | src/sync.ts:86-184 | the loop body is exactly `ProjectStep`: filtered projects are skipped, a `null` sub-album fails, otherwise albums, updates and proxies are added |
| Sync.ProjectStepKeepsInvariant | src/sync.ts:198-209 | one project keeps the run invariant: created names are absent from the snapshot and proxy entries name existing files |
| Sync.ProjectsKeepInvariant | src/sync.ts:85-185 | the invariant holds of every state a run reaches |
| Sync.NullSubAlbumEndsRun | src/sync.ts:103-114 | a kept project with a `null` sub-album entry ends the run with the failure the model tags `NullSubAlbum(name)`, whatever follows; the failure carries the albums created, updates sent and proxies found for the projects before it, and no SQL is written |
| Sync.RunWritesSqlIffProxies | src/sync.ts:188-196 | a successful run writes SQL exactly when it collected proxies, that SQL is the script of them, and its state satisfies the invariant |
| Sync.Setup | src/sync.ts:29-70 | no contract; the checks before the project loop, specified by `StartRun` |
| Sync.Finish | src/sync.ts:188-196 | no contract; the SQL step after the loop, specified by `FinishRun` and `RunWritesSqlIffProxies` |
| Sync.Run | src/sync.ts:10-196 | no contract; the whole command, specified by `SyncProjects`, `RunWritesSqlIffProxies` and `NullSubAlbumEndsRun` |
| Sync.StartRun | src/sync.ts:29-70 | the environment check, the library lookup and the search-path loop give exactly `Setup` |
| Sync.DefinitionFileStep | src/sync.ts:85-185 | a failing project is the result of the whole definition-file loop; a succeeding one extends the processed prefix |
| Sync.SyncDefinitionFiles | src/sync.ts:85-185 | the loop over one search path's definition files gives `Projects` over them and stops at the first failure |
| Sync.SyncSearchPaths | src/sync.ts:78-186 | the loop over search paths gives `Projects` over all their definition files |
| Sync.FinishRun | src/sync.ts:188-196 | a failed run returns its error with the state reached so far and writes no SQL; a successful one reports its state and the SQL script exactly when it collected proxies |
| Sync.SyncProjects | src/sync.ts:10-196 | the whole command is exactly `Run`: a failing run stops at the first failure and returns it with the albums created, updates sent and proxies found before it, and writes no SQL |
| Workflow.CreatedProjectAlbums | src/create.ts:94-103 | a default `create` gives sync two albums: the project at its path, and `name / Export` at `path/export` |
| Workflow.GeneratedWithoutExportFailsSync | src/generate.ts:67-72 | a project generated without `export` makes sync fail on that project, with the failure the model tags `NullSubAlbum(name)` |
| Workflow.ExportSubAlbumFolder | src/create.ts:97 | the export sub-album's name exports into the folder `Export` |
| Offload.EnsureDirectory | src/utils/index.ts:50-64 | it throws exactly when the path exists, is not writable and is not a directory; otherwise the path exists afterwards and nothing else changes |
| Offload.NotAFileChangesNothing | src/offload.ts:77-81 | a path that `stat` cannot find, or one that is not a regular file, changes no file and no counter |
| Offload.Step | src/offload.ts:75-101 | no contract; one callback over the file table, specified by `StepNeverOverwrites`, `StepCopies`, `StepSkips`, `MoveDeletesSkipped` and `ProcessFile` |
| Offload.StepNeverOverwrites | src/offload.ts:83-97 | an entry that survives a callback is unchanged, only the source can disappear, and the only new entry is the destination, holding the source's content |
| Offload.MoveDeletesSkipped | src/offload.ts:85-97 | with `--move` a skipped source is deleted all the same, and the destination keeps its own content |
| Offload.StepCopies | src/offload.ts:85-97 | a regular source whose destination is absent is copied there with its content and counted as copied; with `--move` it is then removed unless `unlink` throws |
| Offload.StepSkips | src/offload.ts:85-97 | a regular source whose destination exists is counted as skipped, not copied, and the destination keeps its content |
| Offload.SelfMoveLosesFile | src/offload.ts:83-97 | a source that is its own destination is counted as skipped and, with `--move`, deleted with no copy left |
| Offload.StepsSnoc | src/offload.ts:75-101 | one more file applies one more callback |
| Offload.Steps | src/offload.ts:75-101 | no contract; the callbacks of a file list in order, specified by `StepsAppend`, `StepsCounters`, `StepsNewEntries` and `ProcessFiles` |
| Offload.StepsAppend | src/offload.ts:75-101 | the callbacks of two file lists run one list after the other |
| Offload.StepsNewEntries | src/offload.ts:83-91 | every entry the callbacks add is the destination of a listed file |
| Offload.FailedCopyIsolated | src/offload.ts:98-100 | a file whose copy throws leaves no trace, and the files after it are processed as if it were not listed |
| Offload.StepsCounters | src/offload.ts:61-97 | `cpCount + eeCount` grows by exactly the number of handled files (regular, and with a copy that does not throw or is not needed); nothing is removed without `--move`; with it, removals never exceed handled files, and equal them when no unlink throws |
| Offload.StepConservesEntries | src/offload.ts:85-97 | each copy adds one entry and each removal takes one away |
| Offload.StepsConserveEntries | src/offload.ts:85-97 | over a file list, the entries added are `cpCount` and the entries removed are `rmCount` |
| Offload.SameBaseCopiedOnce | src/offload.ts:83-91 | files sharing a base name, none of them the destination itself, are copied at most once, and never when the destination already exists |
| Offload.EarlyReturnsChangeNothing | src/offload.ts:46-59 | a missing or empty input or output, or an input that is not writable, changes nothing and ends early |
| Offload.NewEntries | src/offload.ts:65-137 | the only new entries are the output, `photo` and `video` directories and the destinations of listed photos under `photo/` and of listed videos under `video/` |
| Offload.OffloadRun | src/offload.ts:46-139 | no contract; the whole command, specified by `EarlyReturnsChangeNothing`, `NewEntries` and `Offload` |
| Offload.Offloader.constructor | src/offload.ts:61-63 | the counters start at zero over the file system as found |
| Offload.Offloader.EnsureDirectoryExists | src/utils/index.ts:50-64 | the directory check in place, equal to `EnsureDirectory` |
| Offload.Offloader.ProcessFile | src/offload.ts:75-101 | one callback updates the file table and the counters exactly as `Step` says |
| Offload.Offloader.ProcessFiles | src/offload.ts:75-101 | the callbacks of one glob's files, in order, equal `Steps` |
| Offload.Offloader.Offload | src/offload.ts:46-139 | the whole command updates the state and ends exactly as `OffloadRun` says |

## Left out

- Immich SDK calls, `init` and `scanLibrary`. The answers of the SDK calls are inputs. `scanLibrary` and `--skip-scan` only trigger a server-side scan.
- Bun `Glob` matching. File lists are inputs, and `--filter` is a predicate on the project name. An album's glob is taken as "starts with `albumPath/` and ends with a configured extension".
- File contents and I/O. This covers reading definition files, JSON parsing, `Bun.write`, `writeFile` of the SQL file, and `mkdir` in create and generate. `Bun.file().json()` is the `definitionAt` input.
- `IMMICH_FILE_EXTENSIONS` and `IMMICH_LIBRARY_PATH_ALIASES` are inputs already parsed. A value that is not valid JSON is not modelled.
- Concurrency. The `Promise.all` fan-outs run sequentially in list order. The order of proxy entries, and so of the SQL lines, depends on completion order in the program and is not claimed. Offload's exists-then-copy race between same-name files is likewise not modelled.
- Sync.NullSubAlbumEndsRun: the program rejects only after the other sub-albums' and the primary album's `findOrCreateAlbum` have started. Those albums may already have been created. The model fails the project before any create.
- `path.join` normalisation (`.`, `..`, repeated `/`). A join is `a + "/" + b`, except that the proxy path drops the leading `/` of `/Proxy/` after a root directory. `path.parse` of a path with a trailing `/` is not modelled.
- The content of the Python template around `{operations}`, and the `description` text, which the program stores but never reads. A script operation is held as the call that appended it. Its code is a function of that call's arguments.
- The `$` patterns of `String.replace` in the template substitution and in `resolvePath`. Inputs are taken as free of `$`.
- The key order of `Object.entries`. The alias table is taken as already in that order.
- Logging, `console.log` usage text, `process.exit`, and the summary counts logged by sync and offload.
- Offload's `ensureDirectoryExists` does not model the directories above the path. Whether a path is writable is a fixed input.
- Offload's per-file failures are inputs: the sources whose `copyFile` or `unlink` throws. `stat` throws when the source is absent from the table.
- Export handles one project. The library lookup, search paths and definition-file loop of export.ts repeat sync's and are not modelled again.
- A rejecting `getAllLibraries`, `getAllAlbums`, `createAlbum`, `getAlbumInfo` or `addAssetsToAlbum` aborts the program's run. The model's oracles always answer, so that abort is not modelled.
- Sync.Bump: `errors` is a plain object, so a message naming an `Object.prototype` member (`constructor`, `toString`, `__proto__`) does not start from 0 in the program. The model counts every message from 0. Immich's error values are not such names.
- Offload's `--photoGlob` and `--videoGlob` and their default patterns only choose the file lists, which are inputs.
- Create and generate: the `EEXIST` warning on an existing subdirectory is logging only, and is not modelled.

A file under a sub-album directory is added to that sub-album and to the primary album as well, because the primary album's glob is rooted at the project directory (`Sync.PrimaryTakesAll`, `Sync.ExportFileInBothAlbums`). The model follows the code here, not the intuition that sub-album files belong to the sub-album only.
