/** `get_destination_path`: a file goes to `dest / "YYYY/YYYY-MM-DD" / name`,
    the folder formatted from its modification date with `%Y/%Y-%m-%d`. */
module Destination {
  import opened Storage

  function DigitChar(n: int): char
    requires 0 <= n <= 9
  {
    ('0' as int + n) as char
  }

  predicate IsDigit(c: char)
  {
    '0' <= c <= '9'
  }

  function DigitValue(c: char): int
  {
    c as int - '0' as int
  }

  /** Zero-padded two-digit decimal, as `%m` and `%d`. */
  function Pad2(n: int): string
    requires 0 <= n < 100
  {
    [DigitChar(n / 10), DigitChar(n % 10)]
  }

  /** Four-digit decimal, as `%Y` for years 1000 to 9999. */
  function Pad4(n: int): string
    requires 0 <= n < 10000
  {
    Pad2(n / 100) + Pad2(n % 100)
  }

  /** The first component of the date folder: `%Y`. */
  function YearFolder(d: Date): string
  {
    Pad4(d.year)
  }

  /** The second component of the date folder: `%Y-%m-%d`. */
  function DayFolder(d: Date): string
  {
    Pad4(d.year) + "-" + Pad2(d.month) + "-" + Pad2(d.day)
  }

  /** `mod_time.strftime("%Y/%Y-%m-%d")`. */
  function Subfolder(d: Date): string
  {
    YearFolder(d) + "/" + DayFolder(d)
  }

  /** `get_destination_path(file, dest_dir)`, with the file's local
      modification date and base name taken as inputs. */
  function GetDestinationPath(date: Date, name: string, dest: Path): (r: (Path, Path))
    ensures |r.0| == |dest| + 2 && r.0[..|dest|] == dest
    ensures r.1 == r.0 + [name]
  {
    var folder := dest + [YearFolder(date), DayFolder(date)];
    (folder, folder + [name])
  }

  /** The two new components spell the `%Y/%Y-%m-%d` folder. */
  lemma {:induction false} FolderIsSubfolder(date: Date, name: string, dest: Path)
    ensures var (folder, _) := GetDestinationPath(date, name, dest);
            JoinPath(folder[|dest|..]) == Subfolder(date)
  {
    var (folder, _) := GetDestinationPath(date, name, dest);
    assert folder[|dest|..] == [YearFolder(date), DayFolder(date)];
  }

  /** The relative path written to `hashes.txt`: `dest_file.relative_to(dest_dir)`. */
  function RelativeName(date: Date, name: string): string
  {
    Subfolder(date) + "/" + name
  }

  lemma {:induction false} RelativeNameIsRelativePath(date: Date, name: string, dest: Path)
    ensures var (_, file) := GetDestinationPath(date, name, dest);
            JoinPath(file[|dest|..]) == RelativeName(date, name)
  {
    var (folder, file) := GetDestinationPath(date, name, dest);
    FolderIsSubfolder(date, name, dest);
    assert file[|dest|..] == [YearFolder(date), DayFolder(date), name];
    assert file[|dest|..][..2] == [YearFolder(date), DayFolder(date)];
  }

  function Num2(s: string, i: nat): int
    requires i + 2 <= |s|
  {
    10 * DigitValue(s[i]) + DigitValue(s[i + 1])
  }

  function Num4(s: string, i: nat): int
    requires i + 4 <= |s|
  {
    100 * Num2(s, i) + Num2(s, i + 2)
  }

  predicate DigitsAt(s: string, i: nat, n: nat)
    requires i + n <= |s|
  {
    forall k :: i <= k < i + n ==> IsDigit(s[k])
  }

  /** Reads a date folder name back: the inverse of `Subfolder`. */
  function ParseSubfolder(s: string): Option<Date>
  {
    if |s| == 15 && s[4] == '/' && s[9] == '-' && s[12] == '-'
       && DigitsAt(s, 0, 4) && DigitsAt(s, 5, 4) && DigitsAt(s, 10, 2) && DigitsAt(s, 13, 2)
       && s[..4] == s[5..9]
       && 1000 <= Num4(s, 0) && 1 <= Num2(s, 10) <= 12 && 1 <= Num2(s, 13) <= 31
    then Some(Ymd(Num4(s, 0), Num2(s, 10), Num2(s, 13)))
    else None
  }

  lemma Pad2Digits(n: int, s: string, i: nat)
    requires 0 <= n < 100 && i + 2 <= |s| && s[i..i + 2] == Pad2(n)
    ensures DigitsAt(s, i, 2) && Num2(s, i) == n
  {
    assert s[i] == Pad2(n)[0] && s[i + 1] == Pad2(n)[1];
  }

  lemma Pad4Digits(n: int, s: string, i: nat)
    requires 0 <= n < 10000 && i + 4 <= |s| && s[i..i + 4] == Pad4(n)
    ensures DigitsAt(s, i, 4) && Num4(s, i) == n
  {
    assert s[i..i + 2] == s[i..i + 4][..2] == Pad2(n / 100);
    assert s[i + 2..i + 4] == s[i..i + 4][2..] == Pad2(n % 100);
    Pad2Digits(n / 100, s, i);
    Pad2Digits(n % 100, s, i + 2);
  }

  /** The folder name carries the whole date: reading it back gives the date. */
  lemma {:induction false} SubfolderRoundTrip(d: Date)
    ensures ParseSubfolder(Subfolder(d)) == Some(d)
  {
    var s := Subfolder(d);
    assert |s| == 15;
    assert s[..4] == Pad4(d.year) && s[5..9] == Pad4(d.year);
    assert s[10..12] == Pad2(d.month) && s[13..15] == Pad2(d.day);
    Pad4Digits(d.year, s, 0);
    Pad4Digits(d.year, s, 5);
    Pad2Digits(d.month, s, 10);
    Pad2Digits(d.day, s, 13);
  }

  lemma DigitsPad2(s: string, i: nat)
    requires i + 2 <= |s| && DigitsAt(s, i, 2)
    ensures 0 <= Num2(s, i) < 100 && Pad2(Num2(s, i)) == s[i..i + 2]
  {
    var a, b := DigitValue(s[i]), DigitValue(s[i + 1]);
    assert 0 <= a <= 9 && 0 <= b <= 9;
    assert (10 * a + b) / 10 == a && (10 * a + b) % 10 == b;
  }

  lemma DigitsPad4(s: string, i: nat)
    requires i + 4 <= |s| && DigitsAt(s, i, 4)
    ensures 0 <= Num4(s, i) < 10000 && Pad4(Num4(s, i)) == s[i..i + 4]
  {
    DigitsPad2(s, i);
    DigitsPad2(s, i + 2);
    var hi, lo := Num2(s, i), Num2(s, i + 2);
    assert (100 * hi + lo) / 100 == hi && (100 * hi + lo) % 100 == lo;
    assert s[i..i + 4] == s[i..i + 2] + s[i + 2..i + 4];
  }

  /** Only canonical folder names parse: the parser accepts exactly the
      strings `Subfolder` produces. */
  lemma {:induction false} ParsedSubfolderIsCanonical(s: string, d: Date)
    requires ParseSubfolder(s) == Some(d)
    ensures Subfolder(d) == s
  {
    DigitsPad4(s, 0);
    DigitsPad2(s, 10);
    DigitsPad2(s, 13);
    assert s == s[..4] + "/" + s[5..9] + "-" + s[10..12] + "-" + s[13..15];
  }

  /** Two files land on the same destination file exactly when they share
      the modification date and the base name (the collision policy). */
  lemma {:induction false} SameDestinationIff(d1: Date, n1: string, d2: Date, n2: string, dest: Path)
    ensures GetDestinationPath(d1, n1, dest).1 == GetDestinationPath(d2, n2, dest).1
            <==> d1 == d2 && n1 == n2
  {
    var f1, f2 := GetDestinationPath(d1, n1, dest).1, GetDestinationPath(d2, n2, dest).1;
    if f1 == f2 {
      assert f1[|dest|] == f2[|dest|] && f1[|dest| + 1] == f2[|dest| + 1];
      assert Subfolder(d1) == Subfolder(d2);
      SubfolderRoundTrip(d1);
      SubfolderRoundTrip(d2);
      assert f1[|dest| + 2] == f2[|dest| + 2];
    }
  }

  /** The destination folder is determined by the date alone: files of one
      date share it and files of different dates never do. */
  lemma {:induction false} SameFolderIff(d1: Date, n1: string, d2: Date, n2: string, dest: Path)
    ensures GetDestinationPath(d1, n1, dest).0 == GetDestinationPath(d2, n2, dest).0 <==> d1 == d2
  {
    var f1, f2 := GetDestinationPath(d1, n1, dest).0, GetDestinationPath(d2, n2, dest).0;
    if f1 == f2 {
      assert f1[|dest|] == f2[|dest|] && f1[|dest| + 1] == f2[|dest| + 1];
      SubfolderRoundTrip(d1);
      SubfolderRoundTrip(d2);
    }
  }
}
