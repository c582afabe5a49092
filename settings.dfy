/** The configuration dictionary `main` builds from the command line. */
module Settings {
  import opened Storage

  /** `config` in `main`; `parallel_jobs` only sizes the thread pool, which
      the sequential model does not have. */
  datatype Config = Config(
    dryRun: bool,
    skipExisting: bool,
    fileTypes: Option<set<string>>,
    minSize: Option<int>,
    maxSize: Option<int>)

  /** `str.lower()` on ASCII letters. */
  function Lower(s: string): (r: string)
    ensures |r| == |s|
    ensures forall i :: 0 <= i < |s| ==> r[i] == if 'A' <= s[i] <= 'Z' then (s[i] as int + 32) as char else s[i]
  {
    seq(|s|, i requires 0 <= i < |s| => if 'A' <= s[i] <= 'Z' then (s[i] as int + 32) as char else s[i])
  }

  /** `{ft.lower() for ft in args.file_type} if args.file_type else None`:
      an absent or empty `--file-type` list means no extension filter. */
  function MakeConfig(dryRun: bool, skipExisting: bool, fileTypeArgs: Option<seq<string>>,
                      minSize: Option<int>, maxSize: Option<int>): (cfg: Config)
    ensures cfg.dryRun == dryRun && cfg.skipExisting == skipExisting
    ensures cfg.minSize == minSize && cfg.maxSize == maxSize
    ensures cfg.fileTypes.None? <==> fileTypeArgs.None? || fileTypeArgs.value == []
    ensures cfg.fileTypes.Some? ==>
              forall t :: t in cfg.fileTypes.value <==> exists a :: a in fileTypeArgs.value && t == Lower(a)
  {
    var types := if fileTypeArgs.Some? && fileTypeArgs.value != []
                 then Some(set a | a in fileTypeArgs.value :: Lower(a))
                 else None;
    Config(dryRun, skipExisting, types, minSize, maxSize)
  }
}
