/** The project definition shared by the scaffolding commands, sync and
    export, its file name, and the parts of node's `path` module the
    commands use (`join`, `parse`, `basename`) on posix paths. */
module Project {
  import opened Wrappers
  import opened Strings

  datatype SubAlbum = SubAlbum(suffix: string, path: string)

  /** `subAlbums` is `None` when the field is absent from the JSON file; an
      entry `None` is a JSON `null` in the list. */
  datatype ProjectDefinition = ProjectDefinition(name: string, subAlbums: Option<seq<Option<SubAlbum>>>)

  /** An album of the remote library, as `getAllAlbums` lists it. */
  datatype Album = Album(id: string, albumName: string)

  const DefinitionFileName: string := "immich-project.json"

  /** `path.join(a, b)`, without its normalisation of `.`, `..` and
      repeated separators. */
  function JoinPath(a: string, b: string): string {
    a + "/" + b
  }

  /** The last index of `c` in `s`. */
  function LastIndexOf(s: string, c: char): (r: Option<nat>)
    ensures r.Some? ==> r.value < |s| && s[r.value] == c && forall j :: r.value < j < |s| ==> s[j] != c
    ensures r.None? <==> c !in s
  {
    if s == [] then None
    else if s[|s| - 1] == c then Some(|s| - 1)
    else
      var r := LastIndexOf(s[..|s| - 1], c);
      assert s == s[..|s| - 1] + [s[|s| - 1]];
      r
  }

  /** An occurrence with none after it is the last one. */
  lemma LastIndexOfIs(s: string, c: char, k: nat)
    requires k < |s| && s[k] == c && forall j :: k < j < |s| ==> s[j] != c
    ensures LastIndexOf(s, c) == Some(k)
  {
    assert c in s;
  }

  /** In `a + c + b` with no `c` in `b`, the last `c` is the one after `a`. */
  lemma LastIndexOfAfter(a: string, c: char, b: string)
    requires c !in b
    ensures LastIndexOf(a + [c] + b, c) == Some(|a|)
  {
    var s := a + [c] + b;
    NoneAfter(a, c, b);
    assert s[|a|] == c;
    LastIndexOfIs(s, c, |a|);
  }

  /** Past `a + [c]`, the elements of `a + [c] + b` are those of `b`. */
  lemma NoneAfter(a: string, c: char, b: string)
    requires c !in b
    ensures forall j :: |a| < j < |a + [c] + b| ==> (a + [c] + b)[j] != c
  {
    var ac := a + [c];
    var s := ac + b;
    forall j | |ac| <= j < |s|
      ensures s[j] != c
    {
      assert s[j] == b[j - |ac|];
    }
  }

  /** `path.parse(file).dir`: the text before the last `/`, or `/` for a
      file at the root, or empty for a bare name. */
  function ParseDir(file: string): (dir: string)
    ensures dir == "" || dir == "/" || dir < file
  {
    match LastIndexOf(file, '/')
    case None => ""
    case Some(k) => if k == 0 then "/" else file[..k]
  }

  /** `path.parse(file).base`: the text after the last `/`. */
  function ParseBase(file: string): (base: string)
    ensures '/' !in base
    ensures EndsWith(file, base)
  {
    match LastIndexOf(file, '/')
    case None => file
    case Some(k) => file[k + 1..]
  }

  /** `path.parse(file).name`: the base without its extension. The
      extension starts at the base's last `.`, unless that `.` is the
      base's first character or the base is `..`. */
  function ParseName(file: string): (name: string)
    ensures name <= ParseBase(file)
  {
    var base := ParseBase(file);
    match LastIndexOf(base, '.')
    case None => base
    case Some(d) => if d == 0 || base == ".." then base else base[..d]
  }

  /** Where create and generate write the definition of the project at `dir`. */
  function DefinitionFile(dir: string): string {
    JoinPath(dir, DefinitionFileName)
  }

  /** The characters the regular expression `.` does not match. */
  predicate IsLineTerminator(ch: char) {
    ch == '\n' || ch == '\r' || ch == '\U{2028}' || ch == '\U{2029}'
  }

  /** `s` ends as the expression `/\/immich-project.json$/` requires: the
      unescaped `.` lets any character but a line terminator stand for the dot. */
  predicate EndsWithDefinitionName(s: string) {
    |s| >= 20 && s[|s| - 20..|s| - 5] == "/immich-project"
    && !IsLineTerminator(s[|s| - 5]) && s[|s| - 4..] == "json"
  }

  /** The project directory sync and export derive from a definition file:
      the file name and its separator are cut off the end. */
  function ProjectDir(definitionFile: string): (dir: string)
    ensures EndsWithDefinitionName(definitionFile) ==> |dir| + 20 == |definitionFile| && dir <= definitionFile
    ensures !EndsWithDefinitionName(definitionFile) ==> dir == definitionFile
  {
    if EndsWithDefinitionName(definitionFile) then definitionFile[..|definitionFile| - 20]
    else definitionFile
  }

  /** The directory sync finds for a definition file is the directory the
      scaffolding wrote it into. */
  lemma ProjectDirOfDefinitionFile(dir: string)
    ensures ProjectDir(DefinitionFile(dir)) == dir
  {
    var f := DefinitionFile(dir);
    assert f[|f| - 20..|f| - 5] == "/immich-project";
    assert f[|f| - 5] == '.';
    assert f[|f| - 4..] == "json";
    assert f[..|f| - 20] == dir;
  }
}
