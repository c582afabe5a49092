/** The abstract filesystem both tools work on: data files with their bytes and
    modification date, directories, and the text record files (`checksums.txt`,
    `hashes.txt`) held as the sequence of strings written to them, one element
    per line including its terminating "\n". */
module Storage {

  newtype byte = x: int | 0 <= x < 256

  /** A path as its components; `dest / "a" / "b"` is `dest + ["a", "b"]`. */
  type Path = seq<string>

  /** A local calendar date as `datetime.fromtimestamp` yields it for a file's
      modification time (years of four digits). */
  datatype Ymd = Ymd(year: int, month: int, day: int)
  type Date = d: Ymd | 1000 <= d.year <= 9999 && 1 <= d.month <= 12 && 1 <= d.day <= 31
    witness Ymd(1970, 1, 1)

  datatype File = File(content: seq<byte>, date: Date)

  datatype Disk = Disk(files: map<Path, File>, dirs: set<Path>, records: map<Path, seq<string>>)

  /** The streaming xxh3-64 digest, seen as a function of all bytes fed to it. */
  type Hasher = seq<byte> -> string

  datatype Option<+T> = None | Some(value: T)

  const CHECKSUM_FILENAME: string := "checksums.txt"
  const HASHES_FILENAME: string := "hashes.txt"

  function Name(p: Path): string
    requires |p| > 0
  {
    p[|p| - 1]
  }

  function Parent(p: Path): Path
    requires |p| > 0
  {
    p[..|p| - 1]
  }

  /** Every directory `mkdir(parents=True)` creates or finds on the way to `p`. */
  function Ancestors(p: Path): set<Path>
  {
    set k | 1 <= k <= |p| :: p[..k]
  }

  /** The lines of a record file, the empty file when it does not exist yet. */
  function Lines(d: Disk, record: Path): seq<string>
  {
    if record in d.records then d.records[record] else []
  }

  /** Opening a record file in append mode ("a") and writing one line. */
  function AppendRecord(d: Disk, record: Path, line: string): Disk
  {
    d.(records := d.records[record := Lines(d, record) + [line]])
  }

  /** Appending is associative; stated over an abstract element type so that
      no proof has to compare the elements themselves. */
  lemma AppendAssoc<T>(a: seq<T>, b: seq<T>, c: seq<T>)
    ensures (a + b) + c == a + (b + c)
  {
  }

  /** The file `shutil.copy2(src, dst)` writes: into a directory `dst` it
      copies under the source's own name. */
  function CopyTarget(d: Disk, src: Path, dst: Path): Path
    requires |src| > 0
  {
    if dst in d.dirs then dst + [Name(src)] else dst
  }

  /** `str(path)`: the components joined with "/". */
  function JoinPath(parts: seq<string>): string
  {
    if |parts| == 0 then ""
    else if |parts| == 1 then parts[0]
    else JoinPath(parts[..|parts| - 1]) + "/" + parts[|parts| - 1]
  }

  /** The filesystem the tools mutate through `mkdir`, `shutil.copy2` and
      `open(..., "a")`; `fails` is the environment's answer to whether the
      call raises an I/O error of its own (a full disk, a permission). */
  class FileSystem {
    var files: map<Path, File>
    var dirs: set<Path>
    var records: map<Path, seq<string>>

    function Snapshot(): Disk
      reads this
    {
      Disk(files, dirs, records)
    }

    constructor (d: Disk)
      ensures Snapshot() == d
    {
      files, dirs, records := d.files, d.dirs, d.records;
    }

    /** `folder.mkdir(parents=True, exist_ok=True)`: raises when a regular
        file stands where a directory is needed. */
    method MakeFolders(folder: Path, fails: bool) returns (ok: bool)
      modifies this
      ensures ok == (!fails && Ancestors(folder) !! old(files).Keys)
      ensures files == old(files) && records == old(records)
      ensures dirs == if ok then old(dirs) + Ancestors(folder) else old(dirs)
    {
      ok := !fails && Ancestors(folder) !! files.Keys;
      if ok {
        dirs := dirs + Ancestors(folder);
      }
    }

    /** `shutil.copy2(src, dst)`: content and modification date are copied to
        the path it returns, `dst / src.name` when `dst` is a directory;
        copying a file onto itself raises `SameFileError`, and writing onto a
        directory raises `IsADirectoryError`. */
    method Copy2(src: Path, dst: Path, fails: bool) returns (ok: bool, written: Path)
      requires |src| > 0
      modifies this
      ensures written == CopyTarget(old(Snapshot()), src, dst)
      ensures written == dst || (dst in old(dirs) && written == dst + [Name(src)])
      ensures ok == (!fails && src in old(files) && src != written && written !in old(dirs))
      ensures dirs == old(dirs) && records == old(records)
      ensures files == if ok then old(files)[written := old(files)[src]] else old(files)
    {
      written := CopyTarget(Snapshot(), src, dst);
      ok := !fails && src in files && src != written && written !in dirs;
      if ok {
        files := files[written := files[src]];
      }
    }

    /** `open(record, "a").write(line)`. */
    method Append(record: Path, line: string, fails: bool) returns (ok: bool)
      modifies this
      ensures ok == !fails
      ensures Snapshot() == if ok then AppendRecord(old(Snapshot()), record, line) else old(Snapshot())
    {
      ok := !fails;
      if ok {
        records := records[record := Lines(Snapshot(), record) + [line]];
      }
    }

    /** `open(record, "w").write(...)`: the record is truncated to `lines`. */
    method Rewrite(record: Path, lines: seq<string>)
      modifies this
      ensures files == old(files) && dirs == old(dirs)
      ensures records == old(records)[record := lines]
    {
      records := records[record := lines];
    }
  }
}
