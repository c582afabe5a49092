/** The organising run of `main`: reset `hashes.txt` to its header (unless a
    dry run), filter the scanned files, set `total_files`, and process every
    filtered file once (`process_files_with_progress`), in submission order. */
module Batch {
  import opened Storage
  import opened Settings
  import opened FileFilter
  import opened Pipeline

  /** What `main` writes to `hashes.txt` before any file is processed. */
  const HEADER: seq<string> := ["Global Hashes for All Files:\n", "---\n"]

  /** The environment's I/O errors for the i-th submitted file. */
  type FaultPlan = nat -> Fault

  datatype RunState = RunState(disk: Disk, counters: Counters, outcomes: seq<Outcome>)

  predicate Named(files: seq<Path>)
  {
    forall i :: 0 <= i < |files| ==> |files[i]| > 0
  }

  /** One call of `process_file` on `src`, its outcome appended to the run. */
  function Next(prev: RunState, src: Path, dest: Path, cfg: Config, hash: Hasher, fault: Fault): RunState
    requires |src| > 0
  {
    var r := Process(prev.disk, prev.counters, src, dest, cfg, hash, fault);
    RunState(r.disk, r.counters, prev.outcomes + [r.outcome])
  }

  /** The states of a run after 0, 1, ..., k of `files` have been processed. */
  function Trace(s: RunState, files: seq<Path>, k: nat, dest: Path, cfg: Config, hash: Hasher, faults: FaultPlan): (t: seq<RunState>)
    requires k <= |files| && Named(files)
    ensures |t| == k + 1 && t[0] == s
  {
    if k == 0 then [s]
    else
      var t := Trace(s, files, k - 1, dest, cfg, hash, faults);
      t + [Next(t[k - 1], files[k - 1], dest, cfg, hash, faults(k - 1))]
  }

  /** The state after the first `k` files have been processed. */
  function RunSteps(s: RunState, files: seq<Path>, k: nat, dest: Path, cfg: Config, hash: Hasher, faults: FaultPlan): RunState
    requires k <= |files| && Named(files)
  {
    Trace(s, files, k, dest, cfg, hash, faults)[k]
  }

  /** `open(dest_dir / "hashes.txt", "w")` with the header, skipped in a dry run. */
  function ResetGlobalRecord(disk: Disk, dest: Path, cfg: Config): Disk
  {
    if cfg.dryRun then disk else disk.(records := disk.records[GlobalRecord(dest) := HEADER])
  }

  /** The whole organising run of `main` over the scanned regular files. */
  function Organize(disk: Disk, scanned: seq<Path>, dest: Path, cfg: Config, hash: Hasher, faults: FaultPlan): RunState
    requires forall p :: p in scanned ==> p in disk.files && |p| > 0
  {
    var start := ResetGlobalRecord(disk, dest, cfg);
    var files := FilterFiles(start, scanned, cfg);
    assert Named(files) by {
      forall i | 0 <= i < |files| ensures |files[i]| > 0 {
        assert files[i] in files;
      }
    }
    RunSteps(RunState(start, Counters(|files|, 0, 0, 0), []), files, |files|, dest, cfg, hash, faults)
  }

  /** `process_files_with_progress`, run sequentially: every file is submitted
      once and awaited. */
  method ProcessFiles(fs: FileSystem, stats: ProcessingStats, files: seq<Path>, dest: Path, cfg: Config,
                      hash: Hasher, faults: FaultPlan)
    requires Named(files)
    modifies fs, stats
    ensures var r := RunSteps(RunState(old(fs.Snapshot()), old(stats.Value()), []), files, |files|, dest, cfg, hash, faults);
            fs.Snapshot() == r.disk && stats.Value() == r.counters
  {
    ghost var start := RunState(fs.Snapshot(), stats.Value(), []);
    var i := 0;
    while i < |files|
      invariant 0 <= i <= |files|
      invariant var r := RunSteps(start, files, i, dest, cfg, hash, faults);
                fs.Snapshot() == r.disk && stats.Value() == r.counters
    {
      var _ := ProcessFile(fs, stats, files[i], dest, cfg, hash, faults(i));
      i := i + 1;
    }
  }

  /** The organising part of `main`, from the header reset to the last file. */
  method OrganizeRun(fs: FileSystem, scanned: seq<Path>, dest: Path, cfg: Config, hash: Hasher, faults: FaultPlan)
    returns (stats: ProcessingStats)
    requires forall p :: p in scanned ==> p in fs.files && |p| > 0
    modifies fs
    ensures fresh(stats)
    ensures var r := Organize(old(fs.Snapshot()), scanned, dest, cfg, hash, faults);
            fs.Snapshot() == r.disk && stats.Value() == r.counters
  {
    stats := new ProcessingStats();
    if !cfg.dryRun {
      fs.Rewrite(GlobalRecord(dest), HEADER);
    }
    var files := FilterFiles(fs.Snapshot(), scanned, cfg);
    assert Named(files) by {
      forall i | 0 <= i < |files| ensures |files[i]| > 0 {
        assert files[i] in files;
      }
    }
    stats.totalFiles := |files|;
    ProcessFiles(fs, stats, files, dest, cfg, hash, faults);
  }

  /** How many of `outs` are `o`. */
  function Count(outs: seq<Outcome>, o: Outcome): nat
  {
    if outs == [] then 0 else Count(outs[..|outs| - 1], o) + (if outs[|outs| - 1] == o then 1 else 0)
  }

  /** What one call of `process_file` guarantees to the run, whatever its
      outcome `o`: one outcome is appended, the counters move as `o` says,
      skips and dry runs leave the disk alone, and `hashes.txt` gains a line
      exactly for a copy and keeps what it had. */
  predicate Summarised(prev: RunState, next: RunState, dest: Path, cfg: Config)
  {
    && |next.outcomes| == |prev.outcomes| + 1
    && next.outcomes[..|prev.outcomes|] == prev.outcomes
    && var o := next.outcomes[|prev.outcomes|];
    && next.counters.totalFiles == prev.counters.totalFiles
    && next.counters.successful == prev.counters.successful + (if o == DryRun || o == Copied then 1 else 0)
    && next.counters.failed == prev.counters.failed + (if o == Failed then 1 else 0)
    && next.counters.totalBytes >= prev.counters.totalBytes
    && (o == Skipped || o == DryRun || cfg.dryRun ==> next.disk == prev.disk)
    && var before := Lines(prev.disk, GlobalRecord(dest));
    && var after := Lines(next.disk, GlobalRecord(dest));
    && |after| == |before| + (if o == Copied then 1 else 0)
    && after[..|before|] == before
  }

  lemma {:induction false} StepSummarised(prev: RunState, src: Path, dest: Path, cfg: Config, hash: Hasher, fault: Fault)
    requires |src| > 0
    ensures Summarised(prev, Next(prev, src, dest, cfg, hash, fault), dest, cfg)
  {
    StepSummary(prev.disk, prev.counters, src, dest, cfg, hash, fault);
    CountersGrow(prev.disk, prev.counters, src, dest, cfg, hash, fault);
    if cfg.dryRun {
      DryRunCountsOnly(prev.disk, prev.counters, src, dest, cfg, hash, fault);
    }
  }

  /** Consecutive states of `t` are related by one call of `process_file`. */
  predicate Chain(t: seq<RunState>, dest: Path, cfg: Config)
  {
    forall i :: 0 <= i < |t| - 1 ==> Summarised(t[i], t[i + 1], dest, cfg)
  }

  lemma {:induction false} RunIsChain(s: RunState, files: seq<Path>, k: nat, dest: Path, cfg: Config, hash: Hasher, faults: FaultPlan)
    requires k <= |files| && Named(files)
    ensures Chain(Trace(s, files, k, dest, cfg, hash, faults), dest, cfg)
  {
    if k > 0 {
      RunIsChain(s, files, k - 1, dest, cfg, hash, faults);
      var t := Trace(s, files, k - 1, dest, cfg, hash, faults);
      var next := Next(t[k - 1], files[k - 1], dest, cfg, hash, faults(k - 1));
      StepSummarised(t[k - 1], files[k - 1], dest, cfg, hash, faults(k - 1));
      ChainSnoc(t, next, dest, cfg);
      assert Trace(s, files, k, dest, cfg, hash, faults) == t + [next];
    }
  }

  lemma ChainSnoc(t: seq<RunState>, next: RunState, dest: Path, cfg: Config)
    requires Chain(t, dest, cfg) && |t| > 0 && Summarised(t[|t| - 1], next, dest, cfg)
    ensures Chain(t + [next], dest, cfg)
  {
    var u := t + [next];
    forall i | 0 <= i < |u| - 1
      ensures Summarised(u[i], u[i + 1], dest, cfg)
    {
      if i < |t| - 1 {
        assert u[i] == t[i] && u[i + 1] == t[i + 1];
      }
    }
  }

  /** Along a chain one outcome is added per step and earlier ones are kept. */
  lemma {:induction false} ChainOutcomes(t: seq<RunState>, k: nat, dest: Path, cfg: Config)
    requires Chain(t, dest, cfg) && k < |t|
    ensures |t[k].outcomes| == |t[0].outcomes| + k
    ensures t[k].outcomes[..|t[0].outcomes|] == t[0].outcomes
  {
    if k > 0 {
      ChainOutcomes(t, k - 1, dest, cfg);
      assert Summarised(t[k - 1], t[k], dest, cfg);
      var a, b, c := t[0].outcomes, t[k - 1].outcomes, t[k].outcomes;
      assert c[..|a|] == c[..|b|][..|a|];
    }
  }

  lemma {:induction false} ChainTally(t: seq<RunState>, k: nat, dest: Path, cfg: Config)
    requires Chain(t, dest, cfg) && k < |t| && t[0].outcomes == []
    ensures var a, b := t[0], t[k];
            && |b.outcomes| == k
            && Count(b.outcomes, Skipped) + Count(b.outcomes, DryRun) + Count(b.outcomes, Copied) + Count(b.outcomes, Failed) == k
            && b.counters.totalFiles == a.counters.totalFiles
            && b.counters.successful == a.counters.successful + Count(b.outcomes, DryRun) + Count(b.outcomes, Copied)
            && b.counters.failed == a.counters.failed + Count(b.outcomes, Failed)
  {
    if k > 0 {
      ChainTally(t, k - 1, dest, cfg);
      assert Summarised(t[k - 1], t[k], dest, cfg);
      var outs := t[k].outcomes;
      assert outs == t[k - 1].outcomes + [outs[k - 1]];
      CountSnoc(t[k - 1].outcomes, outs[k - 1]);
    }
  }

  lemma {:induction false} ChainCounters(t: seq<RunState>, j: nat, k: nat, dest: Path, cfg: Config)
    requires Chain(t, dest, cfg) && j <= k < |t|
    ensures var a, b := t[j].counters, t[k].counters;
            a.totalFiles == b.totalFiles && a.successful <= b.successful && a.failed <= b.failed
            && a.totalBytes <= b.totalBytes
  {
    if j < k {
      ChainCounters(t, j, k - 1, dest, cfg);
      assert Summarised(t[k - 1], t[k], dest, cfg);
    }
  }

  lemma {:induction false} ChainGlobalRecord(t: seq<RunState>, k: nat, dest: Path, cfg: Config)
    requires Chain(t, dest, cfg) && k < |t| && t[0].outcomes == []
    ensures var before := Lines(t[0].disk, GlobalRecord(dest));
            var after := Lines(t[k].disk, GlobalRecord(dest));
            |after| == |before| + Count(t[k].outcomes, Copied) && after[..|before|] == before
  {
    if k > 0 {
      ChainGlobalRecord(t, k - 1, dest, cfg);
      ChainOutcomes(t, k, dest, cfg);
      assert Summarised(t[k - 1], t[k], dest, cfg);
      var outs := t[k].outcomes;
      assert outs == t[k - 1].outcomes + [outs[k - 1]];
      CountSnoc(t[k - 1].outcomes, outs[k - 1]);
      var before := Lines(t[0].disk, GlobalRecord(dest));
      var mid := Lines(t[k - 1].disk, GlobalRecord(dest));
      var after := Lines(t[k].disk, GlobalRecord(dest));
      assert after[..|before|] == after[..|mid|][..|before|];
    }
  }

  lemma {:induction false} ChainDiskKept(t: seq<RunState>, k: nat, dest: Path, cfg: Config)
    requires Chain(t, dest, cfg) && k < |t|
    requires cfg.dryRun || AllSkippedFrom(t[k].outcomes, |t[0].outcomes|)
    ensures t[k].disk == t[0].disk
  {
    if k > 0 {
      ChainOutcomes(t, k - 1, dest, cfg);
      assert Summarised(t[k - 1], t[k], dest, cfg);
      var outs, prevOuts := t[k].outcomes, t[k - 1].outcomes;
      if !cfg.dryRun {
        assert AllSkippedFrom(prevOuts, |t[0].outcomes|) by {
          forall i | |t[0].outcomes| <= i < |prevOuts|
            ensures prevOuts[i] == Skipped
          {
            assert prevOuts[i] == outs[..|prevOuts|][i];
          }
        }
        assert outs[|prevOuts|] == Skipped;
      }
      ChainDiskKept(t, k - 1, dest, cfg);
    }
  }

  predicate AllSkippedFrom(outs: seq<Outcome>, from: nat)
  {
    forall i :: from <= i < |outs| ==> outs[i] == Skipped
  }

  /** Every processed file has exactly one outcome, and the counters add up:
      successes are the dry runs and copies, failures the failed calls. */
  lemma {:induction false} RunTally(s: RunState, files: seq<Path>, k: nat, dest: Path, cfg: Config, hash: Hasher, faults: FaultPlan)
    requires k <= |files| && Named(files) && s.outcomes == []
    ensures var r := RunSteps(s, files, k, dest, cfg, hash, faults);
            && |r.outcomes| == k
            && Count(r.outcomes, Skipped) + Count(r.outcomes, DryRun) + Count(r.outcomes, Copied) + Count(r.outcomes, Failed) == k
            && r.counters.totalFiles == s.counters.totalFiles
            && r.counters.successful == s.counters.successful + Count(r.outcomes, DryRun) + Count(r.outcomes, Copied)
            && r.counters.failed == s.counters.failed + Count(r.outcomes, Failed)
  {
    RunIsChain(s, files, k, dest, cfg, hash, faults);
    ChainTally(Trace(s, files, k, dest, cfg, hash, faults), k, dest, cfg);
  }

  lemma CountSnoc(outs: seq<Outcome>, o: Outcome)
    ensures forall x :: Count(outs + [o], x) == Count(outs, x) + (if o == x then 1 else 0)
  {
    assert (outs + [o])[..|outs|] == outs;
  }

  /** After the run every filtered file is accounted for:
      `successful + failed + skipped == total_files`. */
  lemma {:induction false} EveryFileAccountedFor(disk: Disk, scanned: seq<Path>, dest: Path, cfg: Config, hash: Hasher, faults: FaultPlan)
    requires forall p :: p in scanned ==> p in disk.files && |p| > 0
    ensures var r := Organize(disk, scanned, dest, cfg, hash, faults);
            && r.counters.totalFiles == |FilterFiles(disk, scanned, cfg)|
            && r.counters.successful + r.counters.failed + Count(r.outcomes, Skipped) == r.counters.totalFiles
  {
    var start := ResetGlobalRecord(disk, dest, cfg);
    var files := FilterFiles(start, scanned, cfg);
    assert FilterFiles(start, scanned, cfg) == FilterFiles(disk, scanned, cfg) by {
      FilterReadsOnlyFiles(disk, start, scanned, cfg);
    }
    assert Named(files) by {
      forall i | 0 <= i < |files| ensures |files[i]| > 0 {
        assert files[i] in files;
      }
    }
    RunTally(RunState(start, Counters(|files|, 0, 0, 0), []), files, |files|, dest, cfg, hash, faults);
  }

  lemma FilterReadsOnlyFiles(d1: Disk, d2: Disk, scanned: seq<Path>, cfg: Config)
    requires d1.files == d2.files
    requires forall p :: p in scanned ==> p in d1.files && |p| > 0
    ensures FilterFiles(d1, scanned, cfg) == FilterFiles(d2, scanned, cfg)
  {
    if scanned != [] {
      FilterReadsOnlyFiles(d1, d2, scanned[1..], cfg);
    }
  }

  /** Counters never decrease as the run goes on: the state after `j` files
      has counters no larger than the state after `k >= j` files. */
  lemma {:induction false} CountersNeverDecrease(s: RunState, files: seq<Path>, j: nat, k: nat, dest: Path, cfg: Config,
                                                 hash: Hasher, faults: FaultPlan)
    requires j <= k <= |files| && Named(files)
    ensures var t := Trace(s, files, k, dest, cfg, hash, faults);
            var a, b := t[j].counters, t[k].counters;
            a.totalFiles == b.totalFiles && a.successful <= b.successful && a.failed <= b.failed
            && a.totalBytes <= b.totalBytes
  {
    RunIsChain(s, files, k, dest, cfg, hash, faults);
    ChainCounters(Trace(s, files, k, dest, cfg, hash, faults), j, k, dest, cfg);
  }

  /** A dry run leaves the whole disk as it found it: no folder, no copy, and
      no record file written or truncated. */
  lemma {:induction false} DryRunLeavesDisk(disk: Disk, scanned: seq<Path>, dest: Path, cfg: Config, hash: Hasher, faults: FaultPlan)
    requires forall p :: p in scanned ==> p in disk.files && |p| > 0
    requires cfg.dryRun
    ensures Organize(disk, scanned, dest, cfg, hash, faults).disk == disk
  {
    var files := FilterFiles(disk, scanned, cfg);
    assert Named(files) by {
      forall i | 0 <= i < |files| ensures |files[i]| > 0 {
        assert files[i] in files;
      }
    }
    var s := RunState(disk, Counters(|files|, 0, 0, 0), []);
    RunIsChain(s, files, |files|, dest, cfg, hash, faults);
    ChainDiskKept(Trace(s, files, |files|, dest, cfg, hash, faults), |files|, dest, cfg);
  }

  /** During a run `hashes.txt` keeps what it had and gains one line per copied
      file, and nothing else. */
  lemma {:induction false} GlobalRecordGrowsPerCopy(s: RunState, files: seq<Path>, k: nat, dest: Path, cfg: Config,
                                                    hash: Hasher, faults: FaultPlan)
    requires k <= |files| && Named(files) && s.outcomes == []
    ensures var r := RunSteps(s, files, k, dest, cfg, hash, faults);
            var before := Lines(s.disk, GlobalRecord(dest));
            var after := Lines(r.disk, GlobalRecord(dest));
            |after| == |before| + Count(r.outcomes, Copied) && after[..|before|] == before
  {
    RunIsChain(s, files, k, dest, cfg, hash, faults);
    ChainGlobalRecord(Trace(s, files, k, dest, cfg, hash, faults), k, dest, cfg);
  }

  /** Unless dry-run, `hashes.txt` ends the run as the header followed by one
      line per copied file. */
  lemma {:induction false} GlobalRecordIsHeaderPlusCopies(disk: Disk, scanned: seq<Path>, dest: Path, cfg: Config,
                                                          hash: Hasher, faults: FaultPlan)
    requires forall p :: p in scanned ==> p in disk.files && |p| > 0
    requires !cfg.dryRun
    ensures var r := Organize(disk, scanned, dest, cfg, hash, faults);
            var lines := Lines(r.disk, GlobalRecord(dest));
            |lines| == |HEADER| + Count(r.outcomes, Copied) && lines[..|HEADER|] == HEADER
  {
    var start := ResetGlobalRecord(disk, dest, cfg);
    var files := FilterFiles(start, scanned, cfg);
    assert Named(files) by {
      forall i | 0 <= i < |files| ensures |files[i]| > 0 {
        assert files[i] in files;
      }
    }
    GlobalRecordGrowsPerCopy(RunState(start, Counters(|files|, 0, 0, 0), []), files, |files|, dest, cfg, hash, faults);
  }

  /** Re-running over an already organised tree with `skip_existing`: when
      every file is skipped, the folder records and the data are left as they
      were, but `hashes.txt` is truncated to its header, losing the lines of
      the earlier run. */
  lemma {:induction false} RerunWithAllSkippedResetsGlobalRecord(disk: Disk, scanned: seq<Path>, dest: Path, cfg: Config,
                                                                 hash: Hasher, faults: FaultPlan)
    requires forall p :: p in scanned ==> p in disk.files && |p| > 0
    requires !cfg.dryRun
    requires AllSkippedFrom(Organize(disk, scanned, dest, cfg, hash, faults).outcomes, 0)
    ensures var r := Organize(disk, scanned, dest, cfg, hash, faults);
            && r.disk.files == disk.files && r.disk.dirs == disk.dirs
            && Lines(r.disk, GlobalRecord(dest)) == HEADER
            && forall p :: p != GlobalRecord(dest) ==> Lines(r.disk, p) == Lines(disk, p)
  {
    var start := ResetGlobalRecord(disk, dest, cfg);
    var files := FilterFiles(start, scanned, cfg);
    assert Named(files) by {
      forall i | 0 <= i < |files| ensures |files[i]| > 0 {
        assert files[i] in files;
      }
    }
    var s := RunState(start, Counters(|files|, 0, 0, 0), []);
    RunIsChain(s, files, |files|, dest, cfg, hash, faults);
    ChainDiskKept(Trace(s, files, |files|, dest, cfg, hash, faults), |files|, dest, cfg);
  }
}
