/** The list comprehension in `main` that keeps the scanned files passing the
    extension and size tests. */
module FileFilter {
  import opened Storage
  import opened Settings

  /** Index of the last '.' in `s`, if any (`str.rfind('.')`). */
  function LastDot(s: string): (r: Option<nat>)
    ensures r.Some? ==> r.value < |s| && s[r.value] == '.'
                        && forall k :: r.value < k < |s| ==> s[k] != '.'
    ensures r.None? ==> forall k :: 0 <= k < |s| ==> s[k] != '.'
  {
    if s == [] then None
    else if s[|s| - 1] == '.' then Some(|s| - 1)
    else LastDot(s[..|s| - 1])
  }

  /** `Path.suffix`: from the last dot of the base name, unless that dot
      starts or ends the name. */
  function Suffix(name: string): (r: string)
    ensures r == [] || (r[0] == '.' && 1 < |r| < |name| && r == name[|name| - |r|..])
    ensures r != [] ==> forall k :: 1 <= k < |r| ==> r[k] != '.'
    ensures r != [] <==> exists i :: 0 < i < |name| - 1 && name[i] == '.' && forall k :: i < k < |name| ==> name[k] != '.'
  {
    match LastDot(name)
    case Some(i) =>
      if 0 < i < |name| - 1 then name[i..]
      else
        assert forall j :: 0 < j < |name| - 1 && name[j] == '.' ==> exists k :: j < k < |name| && name[k] == '.' by {
          forall j | 0 < j < |name| - 1 && name[j] == '.' ensures exists k :: j < k < |name| && name[k] == '.' {
            assert j < i && name[i] == '.';
          }
        }
        ""
    case None => ""
  }

  /** Python truthiness of an optional size bound: `None` and `0` are false. */
  predicate BoundGiven(bound: Option<int>)
  {
    bound.Some? && bound.value != 0
  }

  /** Python truthiness of the extension set: `None` and the empty set are false. */
  predicate TypesGiven(types: Option<set<string>>)
  {
    types.Some? && types.value != {}
  }

  /** The condition of the comprehension for one file. */
  predicate Keep(cfg: Config, name: string, size: nat)
    ensures !TypesGiven(cfg.fileTypes) && !BoundGiven(cfg.minSize) && !BoundGiven(cfg.maxSize) ==> Keep(cfg, name, size)
    ensures BoundGiven(cfg.minSize) && BoundGiven(cfg.maxSize) && cfg.minSize.value > cfg.maxSize.value ==> !Keep(cfg, name, size)
  {
    && (!TypesGiven(cfg.fileTypes) || Lower(Suffix(name)) in cfg.fileTypes.value)
    && (!BoundGiven(cfg.minSize) || size >= cfg.minSize.value)
    && (!BoundGiven(cfg.maxSize) || size <= cfg.maxSize.value)
  }

  predicate Kept(disk: Disk, cfg: Config, p: Path)
    requires p in disk.files && |p| > 0
  {
    Keep(cfg, Name(p), |disk.files[p].content|)
  }

  /** `a` is `b` with some elements left out, the rest in their order. */
  predicate IsSubsequence<T(==)>(a: seq<T>, b: seq<T>)
  {
    if a == [] then true
    else if b == [] then false
    else if a[0] == b[0] then IsSubsequence(a[1..], b[1..])
    else IsSubsequence(a, b[1..])
  }

  /** The filtered list: exactly the files that pass, in scan order. */
  function FilterFiles(disk: Disk, files: seq<Path>, cfg: Config): (r: seq<Path>)
    requires forall p :: p in files ==> p in disk.files && |p| > 0
    ensures forall p :: p in r <==> p in files && Kept(disk, cfg, p)
    ensures IsSubsequence(r, files)
    ensures |r| <= |files|
  {
    if files == [] then []
    else
      var rest := FilterFiles(disk, files[1..], cfg);
      if Kept(disk, cfg, files[0]) then [files[0]] + rest
      else
        assert rest != [] ==> rest[0] != files[0] by {
          if rest != [] {
            assert rest[0] in rest;
          }
        }
        rest
  }

  /** A bound of 0 is the same as no bound, because `not 0` is true: in
      particular `max_size = 0` admits every size. */
  lemma {:induction false} ZeroBoundIsNoBound(cfg: Config, name: string, size: nat)
    ensures Keep(cfg.(minSize := Some(0)), name, size) == Keep(cfg.(minSize := None), name, size)
    ensures Keep(cfg.(maxSize := Some(0)), name, size) == Keep(cfg.(maxSize := None), name, size)
    ensures Keep(Config(cfg.dryRun, cfg.skipExisting, None, None, Some(0)), name, size)
  {
  }

  /** Extension matching is case-insensitive once the configuration has
      lowercased the requested extensions: `--file-type .TXT` keeps `a.txt`
      and `B.Txt` alike. */
  lemma {:induction false} ExtensionMatchIgnoresCase(name: string, size: nat)
    requires Lower(Suffix(name)) == ".txt"
    ensures Keep(MakeConfig(false, false, Some([".TXT"]), None, None), name, size)
  {
    SingleTypeConfig(".TXT");
    assert Lower(".TXT") == ".txt";
  }

  /** An extension given without its dot matches nothing, because `suffix`
      always starts with the dot: `--file-type txt` drops `a.txt`. */
  lemma {:induction false} ExtensionWithoutDotMatchesNothing(name: string, size: nat)
    requires Suffix(name) != []
    ensures !Keep(MakeConfig(false, false, Some(["txt"]), None, None), name, size)
  {
    SingleTypeConfig("txt");
    assert Lower("txt") == "txt";
    assert Lower(Suffix(name))[0] == '.';
  }

  lemma SingleTypeConfig(t: string)
    ensures MakeConfig(false, false, Some([t]), None, None).fileTypes == Some({Lower(t)})
  {
    var cfg := MakeConfig(false, false, Some([t]), None, None);
    assert t in [t];
    assert cfg.fileTypes.value == {Lower(t)};
  }
}
