/** The offload command (src/offload.ts): photos and videos of a card are
    copied into `photo/` and `video/` below the output directory, by base
    name, never over an existing file, and optionally removed from the
    card. The file system is a table from paths to entries; the files the
    two globs list are given. */
module Offload {
  import opened Wrappers
  import opened Project

  /** An entry of the file table: a regular file with its content, a
      directory, or anything else `stat` does not call a file. */
  datatype Entry = Regular(content: string) | Directory | Special

  type FileTable = map<string, Entry>

  /** The file table and the three counters. */
  datatype Disk = Disk(files: FileTable, cpCount: nat, rmCount: nat, eeCount: nat)

  /** The operations that throw for a given source path: its `copyFile`
      or its `unlink` (permissions, a full disk, a card pulled out). */
  datatype Faults = Faults(copyFails: set<string>, unlinkFails: set<string>)

  /** `path.join(dir, path.basename(src))`. */
  function Destination(dir: string, src: string): string {
    JoinPath(dir, ParseBase(src))
  }

  /** The body of one per-file callback, run to completion. A source that
      `stat` cannot find throws and changes nothing; one that is not a
      regular file is warned about; otherwise it is copied unless its
      destination exists (counted as skipped), and with `--move` it is
      unlinked in either case. A throwing `copyFile` ends the callback
      before the unlink; a throwing `unlink` leaves the copy in place. */
  function Step(d: Disk, src: string, dir: string, move: bool, faults: Faults): Disk {
    if src !in d.files || !d.files[src].Regular? then d
    else
      var dest := Destination(dir, src);
      if dest !in d.files && src in faults.copyFails then d
      else
        var copied := if dest in d.files then d.(eeCount := d.eeCount + 1)
                      else d.(files := d.files[dest := d.files[src]], cpCount := d.cpCount + 1);
        if !move || src in faults.unlinkFails then copied
        else copied.(files := copied.files - {src}, rmCount := copied.rmCount + 1)
  }

  /** The callbacks of one glob's files, one after the other. */
  function Steps(d: Disk, srcs: seq<string>, dir: string, move: bool, faults: Faults): Disk {
    if srcs == [] then d
    else Step(Steps(d, srcs[..|srcs| - 1], dir, move, faults), srcs[|srcs| - 1], dir, move, faults)
  }

  /** Why the command stopped. */
  datatype Exit = Usage | InputInaccessible | DirectoryFailed(dir: string) | Completed

  /** `ensureDirectoryExists`: a path `access` finds writable is kept
      whatever it is; otherwise `mkdir` creates a missing path, accepts an
      existing directory, and throws on anything else. The directories
      above the path are not modelled. */
  function EnsureDirectory(files: FileTable, writable: set<string>, dir: string): (r: Option<FileTable>)
    ensures r.None? <==> dir in files && dir !in writable && !files[dir].Directory?
    ensures r.Some? ==> dir in r.value && r.value.Keys == files.Keys + {dir}
    ensures r.Some? ==> forall p :: p in files ==> r.value[p] == files[p]
  {
    if dir in files && dir in writable then Some(files)
    else if dir !in files then Some(files[dir := Directory])
    else if files[dir].Directory? then Some(files)
    else None
  }

  /** The whole command, from the arguments to the summary. */
  function OffloadRun(d: Disk, input: Option<string>, output: Option<string>, move: bool, writable: set<string>,
                      photoFiles: seq<string>, videoFiles: seq<string>, faults: Faults): (Disk, Exit)
  {
    if input.None? || input.value == "" || output.None? || output.value == "" then (d, Usage)
    else if input.value !in writable then (d, InputInaccessible)
    else
      var photoPath := JoinPath(output.value, "photo");
      var videoPath := JoinPath(output.value, "video");
      match EnsureDirectory(d.files, writable, output.value)
      case None => (d, DirectoryFailed(output.value))
      case Some(f1) =>
        match EnsureDirectory(f1, writable, photoPath)
        case None => (d.(files := f1), DirectoryFailed(photoPath))
        case Some(f2) =>
          var afterPhotos := Steps(d.(files := f2), photoFiles, photoPath, move, faults);
          match EnsureDirectory(afterPhotos.files, writable, videoPath)
          case None => (afterPhotos, DirectoryFailed(videoPath))
          case Some(f3) => (Steps(afterPhotos.(files := f3), videoFiles, videoPath, move, faults), Completed)
  }

  // ---------------------------------------------------------------------
  // What one callback does

  /** A path `stat` cannot find, or one that is not a regular file,
      changes no file and no counter. */
  lemma NotAFileChangesNothing(d: Disk, src: string, dir: string, move: bool, faults: Faults)
    requires src !in d.files || !d.files[src].Regular?
    ensures Step(d, src, dir, move, faults) == d
  {
  }

  /** Nothing already on disk is overwritten: an entry that survives the
      callback is unchanged, only the source can disappear, and the only
      new entry is the destination, holding the source's content. */
  lemma StepNeverOverwrites(d: Disk, src: string, dir: string, move: bool, faults: Faults)
    ensures var r := Step(d, src, dir, move, faults);
            (forall p :: p in d.files && p in r.files ==> r.files[p] == d.files[p])
            && (forall p :: p in d.files && p != src ==> p in r.files)
            && (forall p :: p in r.files && p !in d.files ==> p == Destination(dir, src) && r.files[p] == d.files[src])
  {
  }

  /** A regular source whose destination is absent is copied there, with
      its content, and counted as copied; with `--move` it is then
      unlinked unless that throws. */
  lemma StepCopies(d: Disk, src: string, dir: string, move: bool, faults: Faults)
    requires src in d.files && d.files[src].Regular?
    requires Destination(dir, src) !in d.files && src !in faults.copyFails
    ensures var r := Step(d, src, dir, move, faults);
            Destination(dir, src) in r.files && r.files[Destination(dir, src)] == d.files[src]
            && r.cpCount == d.cpCount + 1 && r.eeCount == d.eeCount
            && (src in r.files <==> !move || src in faults.unlinkFails)
            && r.rmCount == (if move && src !in faults.unlinkFails then d.rmCount + 1 else d.rmCount)
  {
  }

  /** A regular source whose destination exists is not copied: it is
      counted as skipped, and the destination keeps its content unless it
      is the source itself and is unlinked. */
  lemma StepSkips(d: Disk, src: string, dir: string, move: bool, faults: Faults)
    requires src in d.files && d.files[src].Regular?
    requires Destination(dir, src) in d.files
    ensures var r := Step(d, src, dir, move, faults);
            r.cpCount == d.cpCount && r.eeCount == d.eeCount + 1
            && (src in r.files <==> !move || src in faults.unlinkFails)
            && r.rmCount == (if move && src !in faults.unlinkFails then d.rmCount + 1 else d.rmCount)
            && (Destination(dir, src) in r.files ==> r.files[Destination(dir, src)] == d.files[Destination(dir, src)])
            && (Destination(dir, src) != src ==> Destination(dir, src) in r.files)
  {
  }

  /** With `--move`, a source whose destination already exists is deleted
      all the same, and the destination keeps its own content: whatever
      the source held that differs is gone. */
  lemma MoveDeletesSkipped(d: Disk, src: string, dir: string, faults: Faults)
    requires src in d.files && d.files[src].Regular?
    requires Destination(dir, src) in d.files && src !in faults.unlinkFails
    ensures var r := Step(d, src, dir, true, faults);
            src !in r.files && r.eeCount == d.eeCount + 1 && r.rmCount == d.rmCount + 1 && r.cpCount == d.cpCount
            && (Destination(dir, src) != src ==> r.files[Destination(dir, src)] == d.files[Destination(dir, src)])
  {
  }

  /** A source that is its own destination (the card already is the
      output's `photo` directory) counts as skipped and, with `--move`, is
      deleted with no copy left anywhere. */
  lemma SelfMoveLosesFile(d: Disk, src: string, dir: string, faults: Faults)
    requires src in d.files && d.files[src].Regular?
    requires Destination(dir, src) == src && src !in faults.unlinkFails
    ensures var r := Step(d, src, dir, true, faults);
            src !in r.files && r.cpCount == d.cpCount && r.files == d.files - {src}
  {
  }

  // ---------------------------------------------------------------------
  // What a sequence of callbacks does

  lemma StepsSnoc(d: Disk, srcs: seq<string>, i: nat, dir: string, move: bool, faults: Faults)
    requires i < |srcs|
    ensures Steps(d, srcs[..i + 1], dir, move, faults) == Step(Steps(d, srcs[..i], dir, move, faults), srcs[i], dir, move, faults)
  {
    assert srcs[..i + 1][..i] == srcs[..i];
  }

  lemma {:induction false} StepsAppend(d: Disk, a: seq<string>, b: seq<string>, dir: string, move: bool, faults: Faults)
    ensures Steps(d, a + b, dir, move, faults) == Steps(Steps(d, a, dir, move, faults), b, dir, move, faults)
  {
    if b == [] {
      assert a + b == a;
    } else {
      var front, last := b[..|b| - 1], b[|b| - 1];
      StepsAppend(d, a, front, dir, move, faults);
      assert (a + b)[..|a + b| - 1] == a + front && (a + b)[|a + b| - 1] == last;
      assert Steps(d, a + b, dir, move, faults) == Step(Steps(d, a + front, dir, move, faults), last, dir, move, faults);
    }
  }

  /** The entries a sequence of callbacks adds are destinations of listed
      files. */
  lemma {:induction false} StepsNewEntries(d: Disk, srcs: seq<string>, dir: string, move: bool, faults: Faults)
    ensures var r := Steps(d, srcs, dir, move, faults);
            forall p :: p in r.files && p !in d.files
              ==> exists k :: 0 <= k < |srcs| && p == Destination(dir, srcs[k])
  {
    if srcs != [] {
      var front := srcs[..|srcs| - 1];
      var mid := Steps(d, front, dir, move, faults);
      var last := srcs[|srcs| - 1];
      StepsNewEntries(d, front, dir, move, faults);
      StepNeverOverwrites(mid, last, dir, move, faults);
      var r := Steps(d, srcs, dir, move, faults);
      forall p | p in r.files && p !in d.files
        ensures exists k :: 0 <= k < |srcs| && p == Destination(dir, srcs[k])
      {
        if p in mid.files {
          var k :| 0 <= k < |front| && p == Destination(dir, front[k]);
          assert srcs[k] == front[k];
        } else {
          assert p == Destination(dir, srcs[|srcs| - 1]);
        }
      }
    }
  }

  /** A file whose copy throws leaves no trace, and the files after it are
      processed as if it had not been listed. */
  lemma FailedCopyIsolated(d: Disk, before: seq<string>, src: string, after: seq<string>, dir: string, move: bool,
                           faults: Faults)
    requires src in faults.copyFails
    requires Destination(dir, src) !in Steps(d, before, dir, move, faults).files
    ensures Steps(d, before + [src] + after, dir, move, faults)
            == Steps(Steps(d, before, dir, move, faults), after, dir, move, faults)
  {
    StepsAppend(d, before + [src], after, dir, move, faults);
    StepsAppend(d, before, [src], dir, move, faults);
    assert Steps(Steps(d, before, dir, move, faults), [src], dir, move, faults)
           == Step(Steps(d, before, dir, move, faults), src, dir, move, faults) by {
      assert [src][..0] == [];
    }
  }

  /** A callback that gets past `stat` and `copyFile`: the source is a
      regular file, and its copy does not throw or is not attempted. */
  predicate Handled(d: Disk, src: string, dir: string, faults: Faults) {
    src in d.files && d.files[src].Regular?
    && (src !in faults.copyFails || Destination(dir, src) in d.files)
  }

  /** How many of the callbacks, each in the state its predecessors left,
      are handled. */
  function HandledCount(d: Disk, srcs: seq<string>, dir: string, move: bool, faults: Faults): nat {
    if srcs == [] then 0
    else
      var front := srcs[..|srcs| - 1];
      HandledCount(d, front, dir, move, faults)
      + (if Handled(Steps(d, front, dir, move, faults), srcs[|srcs| - 1], dir, faults) then 1 else 0)
  }

  /** The counters over a sequence of callbacks: every handled file is
      either copied or skipped, and no other file is counted; nothing is
      removed without `--move`; with it, and with no `unlink` throwing,
      every handled file is removed. */
  lemma {:induction false} StepsCounters(d: Disk, srcs: seq<string>, dir: string, move: bool, faults: Faults)
    ensures var r := Steps(d, srcs, dir, move, faults);
            r.cpCount >= d.cpCount && r.eeCount >= d.eeCount && r.rmCount >= d.rmCount
            && (r.cpCount + r.eeCount) - (d.cpCount + d.eeCount) == HandledCount(d, srcs, dir, move, faults) <= |srcs|
            && (!move ==> r.rmCount == d.rmCount)
            && (move ==> r.rmCount - d.rmCount <= HandledCount(d, srcs, dir, move, faults))
            && (move && faults.unlinkFails == {} ==> r.rmCount - d.rmCount == HandledCount(d, srcs, dir, move, faults))
  {
    if srcs != [] {
      StepsCounters(d, srcs[..|srcs| - 1], dir, move, faults);
    }
  }

  /** Every copy adds one entry and every removal takes one away. */
  lemma {:induction false} StepsConserveEntries(d: Disk, srcs: seq<string>, dir: string, move: bool, faults: Faults)
    ensures var r := Steps(d, srcs, dir, move, faults);
            |r.files| + r.rmCount + d.cpCount == |d.files| + d.rmCount + r.cpCount
  {
    if srcs != [] {
      var front := Steps(d, srcs[..|srcs| - 1], dir, move, faults);
      StepsConserveEntries(d, srcs[..|srcs| - 1], dir, move, faults);
      StepConservesEntries(front, srcs[|srcs| - 1], dir, move, faults);
    }
  }

  lemma StepConservesEntries(d: Disk, src: string, dir: string, move: bool, faults: Faults)
    ensures var r := Step(d, src, dir, move, faults);
            |r.files| + r.rmCount + d.cpCount == |d.files| + d.rmCount + r.cpCount
  {
    var r := Step(d, src, dir, move, faults);
    if src in d.files && d.files[src].Regular? {
      var dest := Destination(dir, src);
      if !(dest !in d.files && src in faults.copyFails) {
        var copied := if dest in d.files then d.(eeCount := d.eeCount + 1)
                      else d.(files := d.files[dest := d.files[src]], cpCount := d.cpCount + 1);
        assert |copied.files| + d.cpCount == |d.files| + copied.cpCount;
        if move && src !in faults.unlinkFails {
          assert src in copied.files;
          assert (copied.files - {src}).Keys == copied.files.Keys - {src};
          assert |copied.files - {src}| == |copied.files| - 1;
        }
      }
    }
  }

  /** Sources that share a base name share a destination; when none of
      them is that destination itself, at most one of them is copied. */
  lemma {:induction false} SameBaseCopiedOnce(d: Disk, srcs: seq<string>, dir: string, move: bool, faults: Faults,
                                               base: string)
    requires forall k :: 0 <= k < |srcs| ==> ParseBase(srcs[k]) == base && srcs[k] != JoinPath(dir, base)
    ensures var r := Steps(d, srcs, dir, move, faults);
            r.cpCount <= d.cpCount + 1
            && (r.cpCount == d.cpCount + 1 ==> JoinPath(dir, base) !in d.files && JoinPath(dir, base) in r.files)
            && (JoinPath(dir, base) in d.files ==> JoinPath(dir, base) in r.files && r.cpCount == d.cpCount)
  {
    if srcs != [] {
      var front := srcs[..|srcs| - 1];
      SameBaseCopiedOnce(d, front, dir, move, faults, base);
      StepsCounters(d, front, dir, move, faults);
    }
  }

  // ---------------------------------------------------------------------
  // The command

  /** A missing or empty `--input` or `--output`, or an input that is not
      writable, returns before anything is created, copied or counted. */
  lemma EarlyReturnsChangeNothing(d: Disk, input: Option<string>, output: Option<string>, move: bool,
                                  writable: set<string>, photoFiles: seq<string>, videoFiles: seq<string>, faults: Faults)
    requires input.None? || input.value == "" || output.None? || output.value == "" || input.value !in writable
    ensures OffloadRun(d, input, output, move, writable, photoFiles, videoFiles, faults).0 == d
    ensures OffloadRun(d, input, output, move, writable, photoFiles, videoFiles, faults).1 != Completed
  {
  }

  /** The only new entries are the output, `photo/` and `video/`
      directories and the destinations of listed files: under `photo/` for
      the photos, under `video/` for the videos. */
  lemma NewEntries(d: Disk, input: string, output: string, move: bool, writable: set<string>,
                   photoFiles: seq<string>, videoFiles: seq<string>, faults: Faults)
    ensures var r := OffloadRun(d, Some(input), Some(output), move, writable, photoFiles, videoFiles, faults).0;
            forall p :: p in r.files && p !in d.files
              ==> p == output || p == JoinPath(output, "photo") || p == JoinPath(output, "video")
                  || (exists k :: 0 <= k < |photoFiles| && p == Destination(JoinPath(output, "photo"), photoFiles[k]))
                  || (exists k :: 0 <= k < |videoFiles| && p == Destination(JoinPath(output, "video"), videoFiles[k]))
  {
    var photoPath := JoinPath(output, "photo");
    var videoPath := JoinPath(output, "video");
    if input != "" && output != "" && input in writable
       && EnsureDirectory(d.files, writable, output).Some?
       && EnsureDirectory(EnsureDirectory(d.files, writable, output).value, writable, photoPath).Some? {
      var f2 := EnsureDirectory(EnsureDirectory(d.files, writable, output).value, writable, photoPath).value;
      assert forall p :: p in f2 && p !in d.files ==> p == output || p == photoPath;
      var afterPhotos := Steps(d.(files := f2), photoFiles, photoPath, move, faults);
      StepsNewEntries(d.(files := f2), photoFiles, photoPath, move, faults);
      if EnsureDirectory(afterPhotos.files, writable, videoPath).Some? {
        var f3 := EnsureDirectory(afterPhotos.files, writable, videoPath).value;
        assert forall p :: p in f3 && p !in afterPhotos.files ==> p == videoPath;
        StepsNewEntries(afterPhotos.(files := f3), videoFiles, videoPath, move, faults);
      }
    }
  }

  // ---------------------------------------------------------------------
  // The command as it runs: the file table and the counters are updated
  // in place, one callback after the other.

  class Offloader {
    var files: FileTable
    var cpCount: nat
    var rmCount: nat
    var eeCount: nat

    /** The state as a value, for the specification functions above. */
    function Snapshot(): Disk
      reads this
    {
      Disk(files, cpCount, rmCount, eeCount)
    }

    /** `let cpCount = 0; let rmCount = 0; let eeCount = 0;` over the
        file system as found. */
    constructor (initial: FileTable)
      ensures Snapshot() == Disk(initial, 0, 0, 0)
    {
      files := initial;
      cpCount := 0;
      rmCount := 0;
      eeCount := 0;
    }

    /** `ensureDirectoryExists`; `false` when it throws. */
    method EnsureDirectoryExists(dir: string, writable: set<string>) returns (ok: bool)
      modifies this
      ensures ok <==> EnsureDirectory(old(files), writable, dir).Some?
      ensures ok ==> Snapshot() == old(Snapshot()).(files := EnsureDirectory(old(files), writable, dir).value)
      ensures !ok ==> Snapshot() == old(Snapshot())
    {
      if dir in files && dir in writable {
        return true;  // `access` succeeds
      }
      if dir !in files {
        files := files[dir := Directory];
        return true;
      }
      ok := files[dir].Directory?;
    }

    /** One per-file callback. */
    method ProcessFile(src: string, dir: string, move: bool, faults: Faults)
      modifies this
      ensures Snapshot() == Step(old(Snapshot()), src, dir, move, faults)
    {
      if src !in files {
        return;  // `stat` throws
      }
      if !files[src].Regular? {
        return;  // not a file
      }
      var dest := Destination(dir, src);
      if dest !in files {
        if src in faults.copyFails {
          return;  // `copyFile` throws
        }
        files := files[dest := files[src]];
        cpCount := cpCount + 1;
      } else {
        eeCount := eeCount + 1;
      }
      if move {
        if src in faults.unlinkFails {
          return;  // `unlink` throws
        }
        files := files - {src};
        rmCount := rmCount + 1;
      }
    }

    /** The callbacks of one glob's files, in order. */
    method ProcessFiles(srcs: seq<string>, dir: string, move: bool, faults: Faults)
      modifies this
      ensures Snapshot() == Steps(old(Snapshot()), srcs, dir, move, faults)
    {
      var i := 0;
      while i < |srcs|
        invariant 0 <= i <= |srcs|
        invariant Snapshot() == Steps(old(Snapshot()), srcs[..i], dir, move, faults)
      {
        StepsSnoc(old(Snapshot()), srcs, i, dir, move, faults);
        ProcessFile(srcs[i], dir, move, faults);
        i := i + 1;
      }
      assert srcs[..i] == srcs;
    }

    /** `offload()`: the argument and access checks, the three
        directories, the photos, then the videos. */
    method Offload(input: Option<string>, output: Option<string>, move: bool, writable: set<string>,
                   photoFiles: seq<string>, videoFiles: seq<string>, faults: Faults)
      returns (exit: Exit)
      modifies this
      ensures (Snapshot(), exit) == OffloadRun(old(Snapshot()), input, output, move, writable, photoFiles, videoFiles, faults)
    {
      if input.None? || input.value == "" || output.None? || output.value == "" {
        return Usage;
      }
      if input.value !in writable {
        return InputInaccessible;
      }
      var ok := EnsureDirectoryExists(output.value, writable);
      if !ok {
        return DirectoryFailed(output.value);
      }
      var photoPath := JoinPath(output.value, "photo");
      ok := EnsureDirectoryExists(photoPath, writable);
      if !ok {
        return DirectoryFailed(photoPath);
      }
      ProcessFiles(photoFiles, photoPath, move, faults);
      var videoPath := JoinPath(output.value, "video");
      ok := EnsureDirectoryExists(videoPath, writable);
      if !ok {
        return DirectoryFailed(videoPath);
      }
      ProcessFiles(videoFiles, videoPath, move, faults);
      exit := Completed;
    }
  }
}
