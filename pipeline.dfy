/** `process_file`: one source file is resolved to its date folder, then
    skipped, counted as a dry run, or copied and recorded in the folder's
    `checksums.txt` and the root's `hashes.txt`; any exception is counted as a
    failure. */
module Pipeline {
  import opened Storage
  import opened Settings
  import opened Destination
  import opened RecordLine
  import opened Checksum

  /** The four ways a call can end; `process_file` returns False only for `Failed`. */
  datatype Outcome = Skipped | DryRun | Copied | Failed

  /** The steps of a copy at which the environment can raise an I/O error. */
  datatype Step = MakeFolder | CopyFile | ReadCopy | AppendFolderRecord | AppendGlobalRecord
  datatype Fault = NoFault | FailAt(step: Step)

  /** The counters of `ProcessingStats` (the start time is left out). */
  datatype Counters = Counters(totalFiles: nat, successful: nat, failed: nat, totalBytes: nat)

  /** `ProcessingStats`, updated in place by every call of `process_file`. */
  class ProcessingStats {
    var totalFiles: nat
    var successful: nat
    var failed: nat
    var totalBytes: nat

    function Value(): Counters
      reads this
    {
      Counters(totalFiles, successful, failed, totalBytes)
    }

    constructor ()
      ensures Value() == Counters(0, 0, 0, 0)
    {
      totalFiles, successful, failed, totalBytes := 0, 0, 0, 0;
    }
  }

  datatype StepResult = StepResult(outcome: Outcome, disk: Disk, counters: Counters)

  /** `dest_folder / "checksums.txt"`. */
  function FolderRecord(folder: Path): Path
  {
    folder + [CHECKSUM_FILENAME]
  }

  /** `dest_dir / "hashes.txt"`. */
  function GlobalRecord(dest: Path): Path
  {
    dest + [HASHES_FILENAME]
  }

  /** Where `src` goes: its date folder and destination file. */
  function Target(disk: Disk, src: Path, dest: Path): (Path, Path)
    requires src in disk.files && |src| > 0
  {
    GetDestinationPath(disk.files[src].date, Name(src), dest)
  }

  /** The short-circuit of `skip_existing`: a file of the same size already
      stands at the destination. */
  predicate SkipsAsExisting(disk: Disk, src: Path, dest: Path, cfg: Config)
    requires src in disk.files && |src| > 0
  {
    var target := Target(disk, src, dest).1;
    cfg.skipExisting && target in disk.files && |disk.files[target].content| == |disk.files[src].content|
  }

  /** Nothing is deleted: files, directories and records only come in, and
      every record keeps its earlier lines in front. A file's content may be
      replaced. */
  predicate OnlyAdds(before: Disk, after: Disk)
  {
    && before.files.Keys <= after.files.Keys
    && before.dirs <= after.dirs
    && before.records.Keys <= after.records.Keys
    && forall p :: p in before.records ==> Lines(before, p) <= Lines(after, p)
  }

  function Fail(d: Disk, c: Counters): StepResult
  {
    StepResult(Failed, d, c.(failed := c.failed + 1))
  }

  /** What one call of `process_file` does to the disk and the counters.
      A missing source fails at its first `stat`; `mkdir` fails over a regular
      file; `copy2` fails onto a directory or onto the source itself. */
  function Process(disk: Disk, c: Counters, src: Path, dest: Path, cfg: Config, hash: Hasher, fault: Fault): (r: StepResult)
    requires |src| > 0
    ensures OnlyAdds(disk, r.disk)
    ensures r.counters.totalFiles == c.totalFiles
  {
    if src !in disk.files then Fail(disk, c)
    else if SkipsAsExisting(disk, src, dest, cfg) then StepResult(Skipped, disk, c)
    else if cfg.dryRun then StepResult(DryRun, disk, c.(successful := c.successful + 1))
    else
      var (folder, target) := Target(disk, src, dest);
      if fault == FailAt(MakeFolder) || !(Ancestors(folder) !! disk.files.Keys) then Fail(disk, c)
      else CopyAndRecord(disk.(dirs := disk.dirs + Ancestors(folder)), c, src, dest, hash, fault)
  }

  /** The part of `process_file` after the destination folder exists: copy,
      checksum of the copy, the two record lines, the counters. When a
      directory stands at the destination file's path, `copy2` copies into it
      and `compute_checksum` then fails on the directory. */
  function CopyAndRecord(disk: Disk, c: Counters, src: Path, dest: Path, hash: Hasher, fault: Fault): (r: StepResult)
    requires src in disk.files && |src| > 0
    ensures r.outcome == Copied || r.outcome == Failed
    ensures OnlyAdds(disk, r.disk) && r.disk.dirs == disk.dirs
    ensures r.counters.totalFiles == c.totalFiles
  {
    var f := disk.files[src];
    var (folder, target) := Target(disk, src, dest);
    var written := CopyTarget(disk, src, target);
    if fault == FailAt(CopyFile) || src == written || written in disk.dirs then Fail(disk, c)
    else
      var copied := disk.(files := disk.files[written := f]);
      if fault == FailAt(ReadCopy) || target in disk.dirs then Fail(copied, c)
      else Record(copied, c, src, dest, hash(copied.files[target].content), fault)
  }

  /** The two appends of `process_file`, given the checksum of the copy. */
  function Record(disk: Disk, c: Counters, src: Path, dest: Path, checksum: string, fault: Fault): (r: StepResult)
    requires src in disk.files && |src| > 0
    ensures r.outcome == Copied || r.outcome == Failed
    ensures OnlyAdds(disk, r.disk) && r.disk.files == disk.files && r.disk.dirs == disk.dirs
    ensures r.counters.totalFiles == c.totalFiles
  {
    var f := disk.files[src];
    var folder := Target(disk, src, dest).0;
    if fault == FailAt(AppendFolderRecord) then Fail(disk, c)
    else
      var d := AppendRecord(disk, FolderRecord(folder), FormatLine(checksum, Name(src)));
      if fault == FailAt(AppendGlobalRecord) then Fail(d, c)
      else
        StepResult(Copied, AppendRecord(d, GlobalRecord(dest), FormatLine(checksum, RelativeName(f.date, Name(src)))),
                   c.(successful := c.successful + 1, totalBytes := c.totalBytes + |f.content|))
  }

  /** `process_file(file, dest_dir, stats, config, logger)`. */
  method ProcessFile(fs: FileSystem, stats: ProcessingStats, src: Path, dest: Path, cfg: Config, hash: Hasher, fault: Fault)
    returns (ok: bool)
    requires |src| > 0
    modifies fs, stats
    ensures var r := Process(old(fs.Snapshot()), old(stats.Value()), src, dest, cfg, hash, fault);
            fs.Snapshot() == r.disk && stats.Value() == r.counters && ok == (r.outcome != Failed)
  {
    if src !in fs.files {
      stats.failed := stats.failed + 1;
      return false;
    }
    var (folder, target) := Target(fs.Snapshot(), src, dest);
    if SkipsAsExisting(fs.Snapshot(), src, dest, cfg) {
      return true;
    }
    if !cfg.dryRun {
      var made := fs.MakeFolders(folder, fault == FailAt(MakeFolder));
      if !made {
        stats.failed := stats.failed + 1;
        return false;
      }
      ok := CopyAndRecordFile(fs, stats, src, dest, hash, fault);
      return;
    }
    stats.successful := stats.successful + 1;
    ok := true;
  }

  /** The copy, checksum and append steps of `process_file`. */
  method CopyAndRecordFile(fs: FileSystem, stats: ProcessingStats, src: Path, dest: Path, hash: Hasher, fault: Fault)
    returns (ok: bool)
    requires src in fs.files && |src| > 0
    modifies fs, stats
    ensures var r := CopyAndRecord(old(fs.Snapshot()), old(stats.Value()), src, dest, hash, fault);
            fs.Snapshot() == r.disk && stats.Value() == r.counters && ok == (r.outcome != Failed)
  {
    var (folder, target) := Target(fs.Snapshot(), src, dest);
    var isDir := target in fs.dirs;
    var copied, _ := fs.Copy2(src, target, fault == FailAt(CopyFile));
    if !copied {
      stats.failed := stats.failed + 1;
      return false;
    }
    if fault == FailAt(ReadCopy) || isDir {
      stats.failed := stats.failed + 1;
      return false;
    }
    ghost var chunks;
    var checksum;
    checksum, chunks := ComputeChecksum(fs.files[target].content, hash);
    assert Target(fs.Snapshot(), src, dest).0 == folder;
    ok := RecordFile(fs, stats, src, dest, checksum, fault);
  }

  /** The two appends and the final counter updates of `process_file`. */
  method RecordFile(fs: FileSystem, stats: ProcessingStats, src: Path, dest: Path, checksum: string, fault: Fault)
    returns (ok: bool)
    requires src in fs.files && |src| > 0
    modifies fs, stats
    ensures var r := Record(old(fs.Snapshot()), old(stats.Value()), src, dest, checksum, fault);
            fs.Snapshot() == r.disk && stats.Value() == r.counters && ok == (r.outcome != Failed)
  {
    var f := fs.files[src];
    var folder := Target(fs.Snapshot(), src, dest).0;
    var appended := fs.Append(FolderRecord(folder), FormatLine(checksum, Name(src)), fault == FailAt(AppendFolderRecord));
    if !appended {
      stats.failed := stats.failed + 1;
      return false;
    }
    appended := fs.Append(GlobalRecord(dest), FormatLine(checksum, RelativeName(f.date, Name(src))),
                          fault == FailAt(AppendGlobalRecord));
    if !appended {
      stats.failed := stats.failed + 1;
      return false;
    }
    stats.totalBytes := stats.totalBytes + |fs.files[src].content|;
    stats.successful := stats.successful + 1;
    ok := true;
  }

  /** Skip-existing: the call succeeds and changes nothing at all, exactly
      when the destination already holds a file of the source's size. */
  lemma {:induction false} SkipChangesNothing(disk: Disk, c: Counters, src: Path, dest: Path, cfg: Config, hash: Hasher, fault: Fault)
    requires |src| > 0
    ensures var r := Process(disk, c, src, dest, cfg, hash, fault);
            r.outcome == Skipped <==> src in disk.files && SkipsAsExisting(disk, src, dest, cfg)
    ensures var r := Process(disk, c, src, dest, cfg, hash, fault);
            r.outcome == Skipped ==> r.disk == disk && r.counters == c
  {
  }

  /** Dry run (when not skipped): success is counted and nothing else changes;
      no folder, copy or record line is made. */
  lemma {:induction false} DryRunCountsOnly(disk: Disk, c: Counters, src: Path, dest: Path, cfg: Config, hash: Hasher, fault: Fault)
    requires |src| > 0 && cfg.dryRun
    ensures var r := Process(disk, c, src, dest, cfg, hash, fault);
            r.disk == disk && r.outcome != Copied && r.counters.totalBytes == c.totalBytes
    ensures var r := Process(disk, c, src, dest, cfg, hash, fault);
            src in disk.files && !SkipsAsExisting(disk, src, dest, cfg) ==>
              r.outcome == DryRun && r.counters == c.(successful := c.successful + 1)
  {
  }

  /** A successful copy: the destination holds the source's content, the
      folder record and the global record each gained exactly the one line
      carrying the copy's checksum, every other record is as before, and the
      bytes and successes are counted. */
  lemma {:induction false} CopyRecordsOnce(disk: Disk, c: Counters, src: Path, dest: Path, cfg: Config, hash: Hasher, fault: Fault)
    requires |src| > 0
    requires Process(disk, c, src, dest, cfg, hash, fault).outcome == Copied
    ensures src in disk.files
    ensures var r := Process(disk, c, src, dest, cfg, hash, fault);
            var f := disk.files[src];
            var (folder, target) := Target(disk, src, dest);
            var checksum := hash(r.disk.files[target].content);
            && r.disk.files == disk.files[target := f]
            && checksum == hash(f.content)
            && Lines(r.disk, FolderRecord(folder)) == Lines(disk, FolderRecord(folder)) + [FormatLine(checksum, Name(src))]
            && Lines(r.disk, GlobalRecord(dest)) == Lines(disk, GlobalRecord(dest)) + [FormatLine(checksum, RelativeName(f.date, Name(src)))]
            && (forall p :: p != FolderRecord(folder) && p != GlobalRecord(dest) ==> Lines(r.disk, p) == Lines(disk, p))
            && r.disk.records.Keys == disk.records.Keys + {FolderRecord(folder), GlobalRecord(dest)}
            && Ancestors(folder) <= r.disk.dirs
            && r.counters == c.(successful := c.successful + 1, totalBytes := c.totalBytes + |f.content|)
  {
    var (folder, target) := Target(disk, src, dest);
    assert |FolderRecord(folder)| != |GlobalRecord(dest)|;
  }

  /** A directory at the destination file's path: the call never records
      anything. Unless an I/O error comes first, `copy2` leaves a copy of the
      source inside that directory, under its own name, and the checksum of
      the directory then fails the call. */
  lemma {:induction false} CopyOntoDirectoryFails(disk: Disk, c: Counters, src: Path, dest: Path, cfg: Config, hash: Hasher, fault: Fault)
    requires |src| > 0 && src in disk.files
    requires Target(disk, src, dest).1 in disk.dirs
    ensures var r := Process(disk, c, src, dest, cfg, hash, fault);
            r.outcome != Copied && r.disk.records == disk.records
    ensures var r := Process(disk, c, src, dest, cfg, hash, fault);
            var (folder, target) := Target(disk, src, dest);
            var stray := target + [Name(src)];
            && fault == NoFault && !cfg.dryRun && !SkipsAsExisting(disk, src, dest, cfg)
            && Ancestors(folder) !! disk.files.Keys && stray != src && stray !in disk.dirs
            ==> && r.outcome == Failed
                && r.disk.files == disk.files[stray := disk.files[src]]
                && r.disk.dirs == disk.dirs + Ancestors(folder)
                && r.counters == c.(failed := c.failed + 1)
  {
    var (folder, target) := Target(disk, src, dest);
    var stray := target + [Name(src)];
    assert stray !in Ancestors(folder) by {
      forall k | 1 <= k <= |folder| ensures folder[..k] != stray {
        assert |folder[..k]| < |stray|;
      }
    }
  }

  /** A failure counts one failure and nothing else; the return value is True
      exactly when the failure counter did not move. */
  lemma {:induction false} FailureCountsOnce(disk: Disk, c: Counters, src: Path, dest: Path, cfg: Config, hash: Hasher, fault: Fault)
    requires |src| > 0
    ensures var r := Process(disk, c, src, dest, cfg, hash, fault);
            r.outcome == Failed ==> r.counters == c.(failed := c.failed + 1)
    ensures var r := Process(disk, c, src, dest, cfg, hash, fault);
            r.outcome != Failed <==> r.counters.failed == c.failed
  {
  }

  /** A failed call never writes to `hashes.txt`: the global line is the last
      step, so a failure leaves at most the copy and the folder line behind. */
  lemma {:induction false} FailureNeverRecordsGlobally(disk: Disk, c: Counters, src: Path, dest: Path, cfg: Config, hash: Hasher, fault: Fault)
    requires |src| > 0
    requires Process(disk, c, src, dest, cfg, hash, fault).outcome == Failed
    ensures var r := Process(disk, c, src, dest, cfg, hash, fault);
            Lines(r.disk, GlobalRecord(dest)) == Lines(disk, GlobalRecord(dest))
  {
    if src in disk.files {
      var (folder, target) := Target(disk, src, dest);
      assert |FolderRecord(folder)| != |GlobalRecord(dest)|;
    }
  }

  /** Counters never decrease, and `total_files` is not touched by a call. */
  lemma {:induction false} CountersGrow(disk: Disk, c: Counters, src: Path, dest: Path, cfg: Config, hash: Hasher, fault: Fault)
    requires |src| > 0
    ensures var r := Process(disk, c, src, dest, cfg, hash, fault).counters;
            r.totalFiles == c.totalFiles && r.successful >= c.successful
            && r.failed >= c.failed && r.totalBytes >= c.totalBytes
            && r.successful + r.failed <= c.successful + c.failed + 1
  {
  }

  /** The effect of one call on the counters and on `hashes.txt`, by outcome. */
  lemma {:induction false} StepSummary(disk: Disk, c: Counters, src: Path, dest: Path, cfg: Config, hash: Hasher, fault: Fault)
    requires |src| > 0
    ensures var r := Process(disk, c, src, dest, cfg, hash, fault);
            && r.counters.totalFiles == c.totalFiles
            && r.counters.successful == c.successful + (if r.outcome == DryRun || r.outcome == Copied then 1 else 0)
            && r.counters.failed == c.failed + (if r.outcome == Failed then 1 else 0)
            && (r.outcome == Skipped || r.outcome == DryRun ==> r.disk == disk)
            && |Lines(r.disk, GlobalRecord(dest))| == |Lines(disk, GlobalRecord(dest))| + (if r.outcome == Copied then 1 else 0)
            && Lines(r.disk, GlobalRecord(dest))[..|Lines(disk, GlobalRecord(dest))|] == Lines(disk, GlobalRecord(dest))
  {
    var r := Process(disk, c, src, dest, cfg, hash, fault);
    if r.outcome == Copied {
      CopyRecordsOnce(disk, c, src, dest, cfg, hash, fault);
    } else if r.outcome == Failed {
      FailureNeverRecordsGlobally(disk, c, src, dest, cfg, hash, fault);
    }
  }

  /** Two files with the same base name and date, copied one after the other,
      land on the same destination: the second copy overwrites the first, and
      the folder record keeps a line for each. */
  lemma {:induction false} LastWriteWins(disk: Disk, c: Counters, src1: Path, src2: Path, dest: Path, cfg: Config,
                                         hash: Hasher, fault1: Fault, fault2: Fault)
    requires |src1| > 0 && |src2| > 0 && src1 in disk.files && src2 in disk.files
    requires Name(src1) == Name(src2) && disk.files[src1].date == disk.files[src2].date
    requires var r1 := Process(disk, c, src1, dest, cfg, hash, fault1);
             r1.outcome == Copied && src2 in r1.disk.files && r1.disk.files[src2] == disk.files[src2]
             && Process(r1.disk, r1.counters, src2, dest, cfg, hash, fault2).outcome == Copied
    ensures var r1 := Process(disk, c, src1, dest, cfg, hash, fault1);
            var r2 := Process(r1.disk, r1.counters, src2, dest, cfg, hash, fault2);
            var (folder, target) := Target(disk, src1, dest);
            && target == Target(r1.disk, src2, dest).1
            && target in r2.disk.files && r2.disk.files[target] == disk.files[src2]
            && Lines(r2.disk, FolderRecord(folder)) == Lines(disk, FolderRecord(folder))
                 + [FormatLine(hash(disk.files[src1].content), Name(src1)),
                    FormatLine(hash(disk.files[src2].content), Name(src2))]
  {
    var r1 := Process(disk, c, src1, dest, cfg, hash, fault1);
    CopyRecordsOnce(disk, c, src1, dest, cfg, hash, fault1);
    CopyRecordsOnce(r1.disk, r1.counters, src2, dest, cfg, hash, fault2);
  }
}
