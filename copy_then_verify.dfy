/** How the two tools meet: the line the copying tool appends to a folder's
    `checksums.txt` is read back by the verification tool against the copy it
    describes. */
module CopyThenVerify {
  import opened Storage
  import opened Settings
  import opened Destination
  import opened RecordLine
  import opened Pipeline
  import opened Verify

  /** A copy verifies: right after a successful `process_file`, the line it
      appended to the folder record names the copy, and re-hashing the copy
      gives a match, provided the digest is a single word and the base name
      has no surrounding whitespace. */
  lemma {:induction false} CopiedFileVerifies(disk: Disk, c: Counters, src: Path, dest: Path, cfg: Config,
                                              hash: Hasher, fault: Fault)
    requires |src| > 0 && src in disk.files
    requires Process(disk, c, src, dest, cfg, hash, fault).outcome == Copied
    requires IsToken(hash(disk.files[src].content)) && IsTrimmed(Name(src))
    ensures var r := Process(disk, c, src, dest, cfg, hash, fault);
            var folder := Target(disk, src, dest).0;
            var lines := Lines(r.disk, FolderRecord(folder));
            && |lines| > 0
            && Parent(FolderRecord(folder)) == folder
            && Classify(r.disk, folder, lines[|lines| - 1], hash) == Match(Name(src))
  {
    CopyRecordsOnce(disk, c, src, dest, cfg, hash, fault);
    var r := Process(disk, c, src, dest, cfg, hash, fault);
    var (folder, target) := Target(disk, src, dest);
    var f := disk.files[src];
    var lines := Lines(r.disk, FolderRecord(folder));
    assert lines[|lines| - 1] == FormatLine(hash(f.content), Name(src));
    assert folder + [Name(src)] == target;
    RecordedCopyMatches(r.disk, folder, Name(src), f.content, lines[|lines| - 1], hash);
    assert FolderRecord(folder)[..|folder|] == folder;
  }

  /** The complement: when the base name has leading or trailing whitespace,
      the line appended for the copy is read back under the stripped name. It
      is judged exactly as a line written for that stripped name would be, and
      is never a match for the copy's own name. A name of only whitespace
      leaves an invalid line that reports the digest. */
  lemma {:induction false} UntrimmedNameVerifiesStripped(disk: Disk, c: Counters, src: Path, dest: Path, cfg: Config,
                                                         hash: Hasher, fault: Fault)
    requires |src| > 0 && src in disk.files
    requires Process(disk, c, src, dest, cfg, hash, fault).outcome == Copied
    requires IsToken(hash(disk.files[src].content)) && !IsTrimmed(Name(src))
    ensures var r := Process(disk, c, src, dest, cfg, hash, fault);
            var folder := Target(disk, src, dest).0;
            var lines := Lines(r.disk, FolderRecord(folder));
            var h := hash(disk.files[src].content);
            && |lines| > 0
            && var v := Classify(r.disk, folder, lines[|lines| - 1], hash);
            && v != Match(Name(src))
            && (Strip(Name(src)) != [] ==> v == Classify(r.disk, folder, FormatLine(h, Strip(Name(src))), hash))
            && (Strip(Name(src)) == [] ==> v == Invalid(h))
  {
    CopyRecordsOnce(disk, c, src, dest, cfg, hash, fault);
    var r := Process(disk, c, src, dest, cfg, hash, fault);
    var folder := Target(disk, src, dest).0;
    var h := hash(disk.files[src].content);
    var lines := Lines(r.disk, FolderRecord(folder));
    assert lines[|lines| - 1] == FormatLine(h, Name(src));
    RecordedUntrimmedName(r.disk, folder, Name(src), h, lines[|lines| - 1], hash);
  }

  /** The verdict of a line as written for a name that is not trimmed. */
  lemma RecordedUntrimmedName(d: Disk, folder: Path, name: string, h: string, line: string, hash: Hasher)
    requires line == FormatLine(h, name) && IsToken(h) && !IsTrimmed(name)
    ensures var v := Classify(d, folder, line, hash);
            && v != Match(name)
            && (Strip(name) != [] ==> v == Classify(d, folder, FormatLine(h, Strip(name)), hash))
            && (Strip(name) == [] ==> v == Invalid(h))
  {
    NameReadsBackStripped(h, name);
    var core := Strip(name);
    if core != [] {
      assert core != name;
      ParseFormatRoundTrip(h, core);
    }
  }

  /** The verdict of a line as written for a file whose copy still holds
      `content`. */
  lemma RecordedCopyMatches(d: Disk, folder: Path, name: string, content: seq<byte>, line: string, hash: Hasher)
    requires folder + [name] in d.files && d.files[folder + [name]].content == content
    requires line == FormatLine(hash(content), name) && IsToken(hash(content)) && IsTrimmed(name)
    ensures Classify(d, folder, line, hash) == Match(name)
  {
    WrittenLineVerdict(d, folder, hash(content), name, hash);
  }

  /** The verdict of a line as written for an earlier copy that a later one
      with other content replaced. */
  lemma RecordedCopyReplaced(d: Disk, folder: Path, name: string, earlier: seq<byte>, content: seq<byte>, line: string,
                             hash: Hasher)
    requires folder + [name] in d.files && d.files[folder + [name]].content == content
    requires line == FormatLine(hash(earlier), name) && IsToken(hash(earlier)) && IsTrimmed(name)
    requires hash(earlier) != hash(content)
    ensures Classify(d, folder, line, hash) == Mismatch(name, hash(earlier), hash(content))
  {
    WrittenLineVerdict(d, folder, hash(earlier), name, hash);
  }

  /** The collision policy seen by the verifier: when a second file with the
      same base name and date is copied over the first and their digests
      differ, the first file's line in the folder record now reports a
      mismatch against the surviving copy, while the second line matches. */
  lemma {:induction false} OverwrittenLineMismatches(disk: Disk, c: Counters, src1: Path, src2: Path, dest: Path, cfg: Config,
                                                     hash: Hasher, fault1: Fault, fault2: Fault)
    requires |src1| > 0 && |src2| > 0 && src1 in disk.files && src2 in disk.files
    requires Name(src1) == Name(src2) && disk.files[src1].date == disk.files[src2].date
    requires var r1 := Process(disk, c, src1, dest, cfg, hash, fault1);
             r1.outcome == Copied && src2 in r1.disk.files && r1.disk.files[src2] == disk.files[src2]
             && Process(r1.disk, r1.counters, src2, dest, cfg, hash, fault2).outcome == Copied
    requires IsToken(hash(disk.files[src1].content)) && IsToken(hash(disk.files[src2].content))
    requires IsTrimmed(Name(src1))
    requires hash(disk.files[src1].content) != hash(disk.files[src2].content)
    ensures var r1 := Process(disk, c, src1, dest, cfg, hash, fault1);
            var r2 := Process(r1.disk, r1.counters, src2, dest, cfg, hash, fault2);
            var folder := Target(disk, src1, dest).0;
            var lines := Lines(r2.disk, FolderRecord(folder));
            var (h1, h2) := (hash(disk.files[src1].content), hash(disk.files[src2].content));
            && |lines| >= 2
            && Classify(r2.disk, folder, lines[|lines| - 2], hash) == Mismatch(Name(src1), h1, h2)
            && Classify(r2.disk, folder, lines[|lines| - 1], hash) == Match(Name(src2))
  {
    LastWriteWins(disk, c, src1, src2, dest, cfg, hash, fault1, fault2);
    var r1 := Process(disk, c, src1, dest, cfg, hash, fault1);
    var r2 := Process(r1.disk, r1.counters, src2, dest, cfg, hash, fault2);
    var (folder, target) := Target(disk, src1, dest);
    var c1, c2 := disk.files[src1].content, disk.files[src2].content;
    var lines := Lines(r2.disk, FolderRecord(folder));
    assert lines[|lines| - 2] == FormatLine(hash(c1), Name(src1));
    assert lines[|lines| - 1] == FormatLine(hash(c2), Name(src2));
    assert folder + [Name(src1)] == target;
    RecordedCopyReplaced(r2.disk, folder, Name(src1), c1, c2, lines[|lines| - 2], hash);
    RecordedCopyMatches(r2.disk, folder, Name(src2), c2, lines[|lines| - 1], hash);
  }
}
