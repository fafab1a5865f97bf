/** The DaVinci Resolve import-script generator (src/utils/drb.ts): a list
    of operations, each a block of Python, substituted into a script
    template. */
module ImportScript {
  import opened Wrappers
  import opened Strings
  import opened Seqs

  /** An entry of the generator's `operations` list, held as the call that
      appended it: its `code` is a function of the call's arguments. */
  datatype ScriptOperation = RootImport(paths: seq<string>) | Subfolder(folder: string, paths: seq<string>)
  {
    /** The block of Python the operation contributes. */
    function Code(): string {
      match this
      case RootImport(paths) => RootImportCode(paths)
      case Subfolder(folder, paths) => SubfolderCode(folder, paths)
    }
  }

  const OperationsMarker: string := "{operations}"

  /** The template's text before the marker. Only its first line is kept:
      the Python around the marker is not part of this model; what matters
      is that no `{` comes before the marker. */
  const TemplateHead: string := "#!/usr/bin/env python\n"

  /** The template's text after the marker (not modelled). */
  const TemplateTail: string := "\n"

  const ScriptTemplate: string := TemplateHead + OperationsMarker + TemplateTail

  const EmptyPathsError: string := "File paths array cannot be empty"
  const EmptyFolderError: string := "Folder name cannot be empty"

  /** The file paths as a Python list body: each path in double quotes,
      joined by `", "`, nothing escaped. */
  function PathsList(paths: seq<string>): string {
    Join(Map(paths, p => "\"" + p + "\""), ", ")
  }

  /** The code of the operation `addFilesToRoot` appends. */
  function RootImportCode(paths: seq<string>): string {
    "\n    # Import files to root folder\n"
      + "    print(\"Importing files to root folder...\")\n"
      + "    clips = media_pool.ImportMedia([" + PathsList(paths) + "])\n"
      + "    if not clips:\n"
      + "      print(\"Failed to import some or all files to root folder\")\n"
      + "        "
  }

  /** The code of the operation `createSubfolderWithFiles` appends. */
  function SubfolderCode(folder: string, paths: seq<string>): string {
    "\n    # Create subfolder and import files\n"
      + "    print(\"Checking if subfolder '" + folder + "' exists...\")\n"
      + "    existing_folders = root_folder.GetSubFolderList()\n"
      + "    if \"" + folder + "\" in [folder.GetName() for folder in existing_folders]:\n"
      + "      new_folder = next(folder for folder in existing_folders if folder.GetName() == \"" + folder + "\")\n"
      + "      print(\"Subfolder '" + folder + "' already exists.\")\n"
      + "    else:\n"
      + "      print(\"Creating subfolder '" + folder + "'...\")\n"
      + "      new_folder = media_pool.AddSubFolder(root_folder, \"" + folder + "\")\n"
      + "      if not new_folder:\n"
      + "        raise Exception(\"Failed to create subfolder: " + folder + "\")\n"
      + "    \n"
      + "    media_pool.SetCurrentFolder(new_folder)\n"
      + "    clips = media_pool.ImportMedia([" + PathsList(paths) + "])\n"
      + "    if not clips:\n"
      + "      print(\"Failed to import some or all files to subfolder\")\n"
      + "    media_pool.SetCurrentFolder(root_folder)  # Reset to root folder\n"
      + "      "
  }

  /** The operations' code joined by newlines, in insertion order. */
  function OperationsText(ops: seq<ScriptOperation>): string {
    Join(Map(ops, (op: ScriptOperation) => op.Code()), "\n")
  }

  /** One more operation adds a newline and its code at the end of the
      text; the first one is the whole text. */
  lemma OperationsTextSnoc(ops: seq<ScriptOperation>, op: ScriptOperation)
    ensures ops == [] ==> OperationsText(ops + [op]) == op.Code()
    ensures ops != [] ==> OperationsText(ops + [op]) == OperationsText(ops) + "\n" + op.Code()
  {
    JoinMapSnoc(ops, op, (o: ScriptOperation) => o.Code(), "\n");
  }

  /** `JoinSnoc` for parts computed from the items by `f`. */
  lemma JoinMapSnoc<T>(items: seq<T>, x: T, f: T -> string, sep: string)
    ensures items == [] ==> Join(Map(items + [x], f), sep) == f(x)
    ensures items != [] ==> Join(Map(items + [x], f), sep) == Join(Map(items, f), sep) + sep + f(x)
  {
    MapAppend(items, [x], f);
    assert Map([x], f) == [f(x)];
    if items != [] {
      JoinSnoc(Map(items, f), f(x), sep);
    } else {
      assert Map(items, f) + [f(x)] == [f(x)];
    }
  }

  /** `scriptTemplate.replace("{operations}", text)` puts `text` exactly
      where the template's single marker stands. */
  lemma TemplateSubstitution(text: string)
    ensures ReplaceFirst(ScriptTemplate, OperationsMarker, text) == TemplateHead + text + TemplateTail
  {
    assert OccursAt(ScriptTemplate, OperationsMarker, |TemplateHead|);
    forall j | 0 <= j < |TemplateHead|
      ensures !OccursAt(ScriptTemplate, OperationsMarker, j)
    {
      assert ScriptTemplate[j] == TemplateHead[j] != '{';
      assert OperationsMarker[0] == '{';
    }
    assert IndexOf(ScriptTemplate, OperationsMarker) == Some(|TemplateHead|);
    assert ScriptTemplate[|TemplateHead| + |OperationsMarker|..] == TemplateTail;
  }

  class ResolveImportScript {
    const scriptTemplate: string := ScriptTemplate
    var operations: seq<ScriptOperation>

    constructor ()
      ensures operations == []
    {
      operations := [];
    }

    /** Appends one root-import operation, or throws on an empty list. */
    method AddFilesToRoot(filePaths: seq<string>) returns (r: Outcome<string>)
      modifies this
      ensures filePaths == [] ==> r == Fail(EmptyPathsError) && operations == old(operations)
      ensures filePaths != [] ==> r == Pass && operations == old(operations) + [RootImport(filePaths)]
    {
      if filePaths == [] {
        return Fail(EmptyPathsError);
      }
      operations := operations + [RootImport(filePaths)];
      r := Pass;
    }

    /** Appends one subfolder operation. The folder name is checked first
        (blank after trimming throws), then the file list. */
    method CreateSubfolderWithFiles(folderName: string, filePaths: seq<string>) returns (r: Outcome<string>)
      modifies this
      ensures Trim(folderName) == "" ==> r == Fail(EmptyFolderError) && operations == old(operations)
      ensures Trim(folderName) != "" && filePaths == [] ==> r == Fail(EmptyPathsError) && operations == old(operations)
      ensures Trim(folderName) != "" && filePaths != [] ==>
                r == Pass && operations == old(operations) + [Subfolder(folderName, filePaths)]
    {
      if Trim(folderName) == "" {
        return Fail(EmptyFolderError);
      }
      if filePaths == [] {
        return Fail(EmptyPathsError);
      }
      operations := operations + [Subfolder(folderName, filePaths)];
      r := Pass;
    }

    /** `generateScript()` without a file to write: the template with the
        operations' code, joined by newlines, in place of its marker. */
    function GenerateScript(): (script: string)
      reads this
      ensures script == TemplateHead + OperationsText(operations) + TemplateTail
    {
      TemplateSubstitution(OperationsText(operations));
      ReplaceFirst(scriptTemplate, OperationsMarker, OperationsText(operations))
    }

    method ClearOperations()
      modifies this
      ensures operations == []
    {
      operations := [];
    }

    function GetOperationCount(): (n: nat)
      reads this
      ensures n == |operations|
    {
      |operations|
    }
  }
}
