/** The verification tool: every `checksums.txt` under a directory is read
    line by line, each line is parsed back into a digest and a file name, the
    named file (resolved against the record's own folder) is re-hashed, and
    one verdict per line goes to the log; a global error flag chooses the
    closing summary. */
module Verify {
  import opened Storage
  import opened Checksum
  import opened RecordLine

  const ERROR_SUMMARY: string := "ERROR: Verification completed with mismatches or missing files.\n"
  const SUCCESS_SUMMARY: string := "SUCCESS: All files verified successfully!\n"

  /** What verification makes of one line. `Unreadable` is a line naming a
      directory: it exists, so `compute_checksum` tries to open it and the
      uncaught `IsADirectoryError` ends the whole run. */
  datatype Verdict =
    | Invalid(raw: string)
    | Missing(name: string, expected: string)
    | Match(name: string)
    | Mismatch(name: string, expected: string, actual: string)
    | Unreadable(name: string)

  /** The body of the loop in `verify_checksums_in_file` for one line. */
  function Classify(disk: Disk, folder: Path, line: string, hash: Hasher): (v: Verdict)
    ensures v.Invalid? <==> ParseLine(line).None?
    ensures !v.Invalid? ==> v.name == ParseLine(line).value.1
    ensures v.Match? <==> && ParseLine(line).Some?
                          && var full := folder + [ParseLine(line).value.1];
                          && full in disk.files && hash(disk.files[full].content) == ParseLine(line).value.0
  {
    match ParseLine(line)
    case None => Invalid(Strip(line))
    case Some((expected, name)) =>
      var full := folder + [name];
      if full in disk.files then
        var actual := hash(disk.files[full].content);
        if actual == expected then Match(name) else Mismatch(name, expected, actual)
      else if full in disk.dirs then Unreadable(name)
      else Missing(name, expected)
  }

  /** The line written to the log for a verdict (the log gets no line for an
      `Unreadable` one: the exception comes first). */
  function LogLine(v: Verdict, record: Path): (r: string)
    requires !v.Unreadable?
    ensures |r| > 0 && r[|r| - 1] == '\n'
  {
    match v
    case Invalid(raw) => "INVALID LINE: " + raw + " in " + JoinPath(record) + "\n"
    case Missing(name, expected) => "MISSING: " + name + " (expected hash: " + expected + ")\n"
    case Match(name) => "MATCH: " + name + "\n"
    case Mismatch(name, expected, actual) => "MISMATCH: " + name + " (expected: " + expected + ", actual: " + actual + ")\n"
  }

  /** What reading record lines leaves behind: the log lines, whether
      `HAS_ERRORS` was set, and whether the end was reached (false once a
      line named a directory and the run stopped). */
  datatype Report = Report(log: seq<string>, errors: bool, completed: bool)

  /** The verdicts of `lines`, in order. */
  function Verdicts(disk: Disk, record: Path, lines: seq<string>, hash: Hasher): (vs: seq<Verdict>)
    requires |record| > 0
    ensures |vs| == |lines|
  {
    if lines == [] then []
    else Verdicts(disk, record, lines[..|lines| - 1], hash) + [Classify(disk, Parent(record), lines[|lines| - 1], hash)]
  }

  /** The verdicts of the lines of the record file `record`. */
  function RecordVerdicts(disk: Disk, record: Path, hash: Hasher): seq<Verdict>
    requires |record| > 0
  {
    Verdicts(disk, record, Lines(disk, record), hash)
  }

  /** The loop of `verify_checksums_in_file` over lines with verdicts `vs`. */
  function Fold(vs: seq<Verdict>, record: Path): (r: Report)
    ensures |r.log| <= |vs|
    ensures r.completed ==> |r.log| == |vs|
  {
    if vs == [] then Report([], false, true)
    else
      var prev := Fold(vs[..|vs| - 1], record);
      var v := vs[|vs| - 1];
      if !prev.completed then prev
      else if v.Unreadable? then prev.(completed := false)
      else Report(prev.log + [LogLine(v, record)], prev.errors || !v.Match?, true)
  }

  /** What `rglob("checksums.txt")` yields: paths of files of that name. */
  predicate RecordPaths(found: seq<Path>)
  {
    forall j :: 0 <= j < |found| ==> |found[j]| > 0 && Name(found[j]) == CHECKSUM_FILENAME
  }

  /** The loop of `main` over the record files found, in that order; it
      stops with the first file that aborts. */
  function Scan(disk: Disk, found: seq<Path>, hash: Hasher): (r: Report)
    requires RecordPaths(found)
    ensures |r.log| <= TotalLines(disk, found)
    ensures r.completed ==> |r.log| == TotalLines(disk, found)
  {
    if found == [] then Report([], false, true)
    else
      var prev := Scan(disk, found[..|found| - 1], hash);
      if !prev.completed then prev
      else
        var record := found[|found| - 1];
        var r := Fold(RecordVerdicts(disk, record, hash), record);
        Report(prev.log + r.log, prev.errors || r.errors, r.completed)
  }

  /** The two closing lines of the log; the elapsed time is given as the text
      `f"{elapsed_time:.2f}"` produces. */
  function Summary(errors: bool, elapsed: string): seq<string>
  {
    [if errors then ERROR_SUMMARY else SUCCESS_SUMMARY, "Total time taken: " + elapsed + " seconds.\n"]
  }

  /** How `main` ends. */
  datatype Status = NotADirectory | NothingFound | Aborted | Finished(success: bool)

  /** The state of `verify.py`: the log file `xxhash3_verification.log` and
      the module-level `HAS_ERRORS`. */
  class Verifier {
    var log: seq<string>
    var hasErrors: bool

    /** Module import: `HAS_ERRORS = False`; the log is not yet written. */
    constructor ()
      ensures log == [] && !hasErrors
    {
      log, hasErrors := [], false;
    }

    /** One pass of the loop in `verify_checksums_in_file`: the verdict is
        logged and, unless it is a match, sets the flag. For `Unreadable`
        nothing is written: `compute_checksum` raises first. */
    method VerifyLine(disk: Disk, folder: Path, line: string, record: Path, hash: Hasher) returns (v: Verdict)
      modifies this
      ensures v == Classify(disk, folder, line, hash)
      ensures v.Unreadable? ==> log == old(log) && hasErrors == old(hasErrors)
      ensures !v.Unreadable? ==> log == old(log) + [LogLine(v, record)] && hasErrors == (old(hasErrors) || !v.Match?)
    {
      var parsed := ParseLine(line);
      if parsed.None? {
        v := Invalid(Strip(line));
        log := log + [LogLine(v, record)];
        hasErrors := true;
        return;
      }
      var (expected, name) := parsed.value;
      var full := folder + [name];
      if full in disk.files {
        var actual, _ := ComputeChecksum(disk.files[full].content, hash);
        if actual == expected {
          v := Match(name);
          log := log + [LogLine(v, record)];
        } else {
          v := Mismatch(name, expected, actual);
          log := log + [LogLine(v, record)];
          hasErrors := true;
        }
      } else if full in disk.dirs {
        v := Unreadable(name);
      } else {
        v := Missing(name, expected);
        log := log + [LogLine(v, record)];
        hasErrors := true;
      }
    }

    /** `verify_checksums_in_file(record, log_file, show_progress)`; false
        when a line names a directory and `compute_checksum` raises. */
    method VerifyRecordFile(disk: Disk, record: Path, hash: Hasher) returns (completed: bool)
      requires |record| > 0
      modifies this
      ensures var r := Fold(RecordVerdicts(disk, record, hash), record);
              && completed == r.completed
              && log == old(log) + r.log
              && hasErrors == (old(hasErrors) || r.errors)
    {
      var lines := Lines(disk, record);
      var folder := Parent(record);
      ghost var vs := RecordVerdicts(disk, record, hash);
      var i := 0;
      while i < |lines|
        invariant 0 <= i <= |lines|
        invariant Fold(vs[..i], record).completed
        invariant log == old(log) + Fold(vs[..i], record).log
        invariant hasErrors == (old(hasErrors) || Fold(vs[..i], record).errors)
      {
        ghost var prev := Fold(vs[..i], record);
        var v := VerifyLine(disk, folder, lines[i], record, hash);
        assert v == vs[i] by {
          VerdictAt(disk, record, lines, hash, i);
        }
        FoldStep(vs, i, record);
        if v.Unreadable? {
          FoldStopsAt(vs, i + 1, record);
          return false;
        }
        AppendAssoc(old(log), prev.log, [LogLine(v, record)]);
        i := i + 1;
      }
      assert vs[..i] == vs;
      completed := true;
    }

    /** `main` after the directory prompt: `root` is the directory entered,
        `found` what `rglob("checksums.txt")` lists, `elapsed` the clock. */
    method Run(disk: Disk, root: Path, found: seq<Path>, hash: Hasher, elapsed: string) returns (status: Status)
      requires RecordPaths(found)
      modifies this
      ensures root !in disk.dirs ==> status == NotADirectory && log == old(log) && hasErrors == old(hasErrors)
      ensures root in disk.dirs && found == [] ==> status == NothingFound && log == [] && hasErrors == old(hasErrors)
      ensures root in disk.dirs && found != [] ==>
                var rep := Scan(disk, found, hash);
                && hasErrors == (old(hasErrors) || rep.errors)
                && (!rep.completed ==> status == Aborted && log == rep.log)
                && (rep.completed ==> status == Finished(!hasErrors) && log == rep.log + Summary(hasErrors, elapsed))
    {
      if root !in disk.dirs {
        return NotADirectory;
      }
      log := [];
      if found == [] {
        return NothingFound;
      }
      var j := 0;
      while j < |found|
        invariant 0 <= j <= |found|
        invariant Scan(disk, found[..j], hash).completed
        invariant log == Scan(disk, found[..j], hash).log
        invariant hasErrors == (old(hasErrors) || Scan(disk, found[..j], hash).errors)
      {
        assert found[..j + 1][..j] == found[..j];
        var done := VerifyRecordFile(disk, found[j], hash);
        if !done {
          AbortIsFinal(disk, found, j + 1, hash);
          return Aborted;
        }
        j := j + 1;
      }
      assert found[..j] == found;
      log := log + Summary(hasErrors, elapsed);
      status := Finished(!hasErrors);
    }
  }

  /** The verdict of a line is the classification of that line. */
  lemma {:induction false} VerdictAt(disk: Disk, record: Path, lines: seq<string>, hash: Hasher, k: nat)
    requires |record| > 0 && k < |lines|
    ensures Verdicts(disk, record, lines, hash)[k] == Classify(disk, Parent(record), lines[k], hash)
  {
    if k < |lines| - 1 {
      var init := lines[..|lines| - 1];
      VerdictAt(disk, record, init, hash, k);
    }
  }

  /** One more line read after a complete prefix. */
  lemma FoldStep(vs: seq<Verdict>, i: nat, record: Path)
    requires i < |vs| && Fold(vs[..i], record).completed
    ensures var prev := Fold(vs[..i], record);
            Fold(vs[..i + 1], record) ==
              if vs[i].Unreadable? then prev.(completed := false)
              else Report(prev.log + [LogLine(vs[i], record)], prev.errors || !vs[i].Match?, true)
  {
    assert vs[..i + 1][..i] == vs[..i];
  }

  /** Once a line names a directory, the later lines are never read. */
  lemma {:induction false} FoldStopsAt(vs: seq<Verdict>, k: nat, record: Path)
    requires k <= |vs|
    requires !Fold(vs[..k], record).completed
    ensures Fold(vs, record) == Fold(vs[..k], record)
    decreases |vs|
  {
    if k < |vs| {
      var init := vs[..|vs| - 1];
      assert init[..k] == vs[..k];
      FoldStopsAt(init, k, record);
    } else {
      assert vs[..k] == vs;
    }
  }

  /** Once a file aborts the run, the later files are never read. */
  lemma {:induction false} AbortIsFinal(disk: Disk, found: seq<Path>, k: nat, hash: Hasher)
    requires RecordPaths(found) && k <= |found|
    requires !Scan(disk, found[..k], hash).completed
    ensures Scan(disk, found, hash) == Scan(disk, found[..k], hash)
    decreases |found|
  {
    if k < |found| {
      var init := found[..|found| - 1];
      assert init[..k] == found[..k];
      AbortIsFinal(disk, init, k, hash);
    } else {
      assert found[..k] == found;
    }
  }

  /** One record file read: reading stops exactly at the first line that
      names a directory, and every line before it is read. */
  lemma {:induction false} FoldReach(vs: seq<Verdict>, record: Path)
    ensures var r := Fold(vs, record);
            && |r.log| <= |vs|
            && (r.completed ==> |r.log| == |vs|)
            && (!r.completed ==> |r.log| < |vs| && vs[|r.log|].Unreadable?)
            && (forall k :: 0 <= k < |r.log| ==> !vs[k].Unreadable?)
  {
    if vs != [] {
      var init := vs[..|vs| - 1];
      FoldReach(init, record);
      assert forall k :: 0 <= k < |init| ==> init[k] == vs[k];
    }
  }

  /** The log gets one line per line read, in order, each the line of that
      line's verdict. */
  lemma {:induction false} FoldLog(vs: seq<Verdict>, record: Path)
    ensures var r := Fold(vs, record);
            && |r.log| <= |vs|
            && forall k :: 0 <= k < |r.log| ==> !vs[k].Unreadable? && r.log[k] == LogLine(vs[k], record)
  {
    FoldReach(vs, record);
    if vs != [] {
      var init := vs[..|vs| - 1];
      FoldLog(init, record);
      var prev, r := Fold(init, record), Fold(vs, record);
      forall k | 0 <= k < |r.log|
        ensures !vs[k].Unreadable? && r.log[k] == LogLine(vs[k], record)
      {
        if k < |prev.log| {
          assert r.log[k] == prev.log[k] && vs[k] == init[k];
        }
      }
    }
  }

  /** The flag is set exactly when one of the verdicts logged is not a match. */
  lemma {:induction false} FoldErrors(vs: seq<Verdict>, record: Path)
    ensures var r := Fold(vs, record);
            && |r.log| <= |vs|
            && (r.errors <==> exists k :: 0 <= k < |r.log| && !vs[k].Match?)
  {
    FoldReach(vs, record);
    if vs != [] {
      var init := vs[..|vs| - 1];
      FoldErrors(init, record);
      FoldReach(init, record);
      assert forall k :: 0 <= k < |init| ==> init[k] == vs[k];
    }
  }

  /** Every line of one record file matches. */
  predicate FileMatches(disk: Disk, record: Path, hash: Hasher)
    requires |record| > 0
  {
    var vs := RecordVerdicts(disk, record, hash);
    forall k :: 0 <= k < |vs| ==> vs[k].Match?
  }

  /** Every line of every record file matches. */
  predicate AllMatch(disk: Disk, found: seq<Path>, hash: Hasher)
    requires RecordPaths(found)
  {
    forall j :: 0 <= j < |found| ==> FileMatches(disk, found[j], hash)
  }

  function TotalLines(disk: Disk, found: seq<Path>): nat
  {
    if found == [] then 0 else TotalLines(disk, found[..|found| - 1]) + |Lines(disk, found[|found| - 1])|
  }

  lemma AllMatchSnoc(disk: Disk, found: seq<Path>, hash: Hasher)
    requires RecordPaths(found) && found != []
    ensures RecordPaths(found[..|found| - 1])
    ensures AllMatch(disk, found, hash) <==>
              AllMatch(disk, found[..|found| - 1], hash) && FileMatches(disk, found[|found| - 1], hash)
  {
  }

  /** For a run that reads every file to its end: the flag is set exactly
      when some line of some file is not a match, and the log holds one line
      per record line. */
  lemma {:induction false} CompletedScan(disk: Disk, found: seq<Path>, hash: Hasher)
    requires RecordPaths(found)
    requires Scan(disk, found, hash).completed
    ensures Scan(disk, found, hash).errors <==> !AllMatch(disk, found, hash)
    ensures |Scan(disk, found, hash).log| == TotalLines(disk, found)
  {
    if found != [] {
      var init := found[..|found| - 1];
      var record := found[|found| - 1];
      AllMatchSnoc(disk, found, hash);
      assert Scan(disk, init, hash).completed;
      CompletedScan(disk, init, hash);
      FoldReach(RecordVerdicts(disk, record, hash), record);
      FoldErrors(RecordVerdicts(disk, record, hash), record);
    }
  }

  /** A line holding only whitespace (an empty line included) is invalid. */
  lemma {:induction false} BlankLineIsInvalid(disk: Disk, folder: Path, line: string, hash: Hasher)
    requires AllSpace(line)
    ensures Classify(disk, folder, line, hash) == Invalid("")
  {
    BlankLineRefused(line);
    TrimStartSkips(line, []);
    assert line + [] == line;
  }

  /** A line holding a single word (a digest without a name) is invalid and
      is logged as that word. */
  lemma {:induction false} LoneWordIsInvalid(disk: Disk, folder: Path, word: string, tail: string, hash: Hasher)
    requires IsToken(word) && AllSpace(tail)
    ensures Classify(disk, folder, word + tail, hash) == Invalid(word)
  {
    assert (word + tail)[0] == word[0];
    assert TrimStart(word + tail) == word + tail;
    TrimEndSkips(word, tail);
  }

  /** A line as the copying tool writes it is judged against exactly the
      digest and the name written into it: missing when nothing is there,
      fatal when a directory is, a match exactly when the file re-hashes to
      that digest, otherwise a mismatch that reports both digests. */
  lemma {:induction false} WrittenLineVerdict(disk: Disk, folder: Path, checksum: string, name: string, hash: Hasher)
    requires IsToken(checksum) && IsTrimmed(name)
    ensures var v := Classify(disk, folder, FormatLine(checksum, name), hash);
            var full := folder + [name];
            && (full !in disk.files && full !in disk.dirs ==> v == Missing(name, checksum))
            && (full !in disk.files && full in disk.dirs ==> v == Unreadable(name))
            && (full in disk.files && hash(disk.files[full].content) == checksum ==> v == Match(name))
            && (full in disk.files && hash(disk.files[full].content) != checksum ==>
                  v == Mismatch(name, checksum, hash(disk.files[full].content)))
  {
    ParseFormatRoundTrip(checksum, name);
  }

  /** The log names each verdict by its own first word, so a `MATCH: ` line
      is logged for matches and for nothing else. */
  lemma {:induction false} MatchLinesAreMatches(v: Verdict, record: Path)
    requires !v.Unreadable?
    ensures |LogLine(v, record)| >= 7
    ensures LogLine(v, record)[..7] == "MATCH: " <==> v.Match?
  {
    var l := LogLine(v, record);
    match v
    case Invalid(raw) =>
      assert l[0] == 'I';
    case Missing(name, expected) =>
      assert l[1] == 'I';
    case Match(name) =>
      assert l[..7] == "MATCH: ";
    case Mismatch(name, expected, actual) =>
      assert l[1] == 'I';
  }

  /** `main` from module import on: SUCCESS is written exactly when the
      directory exists, some record file was found, none named a directory
      and every line of every record file matched. */
  method VerifyTree(disk: Disk, root: Path, found: seq<Path>, hash: Hasher, elapsed: string)
    returns (status: Status, log: seq<string>)
    requires RecordPaths(found)
    ensures status == Finished(true) <==>
              root in disk.dirs && found != [] && Scan(disk, found, hash).completed && AllMatch(disk, found, hash)
    ensures status == Finished(false) <==>
              root in disk.dirs && found != [] && Scan(disk, found, hash).completed && !AllMatch(disk, found, hash)
    ensures status.Finished? ==> |log| == TotalLines(disk, found) + 2
    ensures status.Finished? ==> log[|log| - 2] == (if status.success then SUCCESS_SUMMARY else ERROR_SUMMARY)
    ensures !status.Finished? ==> log == [] || status == Aborted
  {
    var v := new Verifier();
    status := v.Run(disk, root, found, hash, elapsed);
    log := v.log;
    if root in disk.dirs && found != [] && Scan(disk, found, hash).completed {
      CompletedScan(disk, found, hash);
    }
  }
}
