/** One checksum record line: written by `process_file` as
    `f"{checksum}  {name}\n"` and read back by `verify_checksums_in_file` with
    `line.strip().split(maxsplit=1)`. */
module RecordLine {
  import opened Storage

  /** Python's `str.isspace`, which both `strip()` and `split()` use. */
  predicate IsSpace(c: char)
  {
    c == ' ' || ('\t' <= c <= '\r') || ('\U{1C}' <= c <= '\U{1F}')
    || c == '\U{85}' || c == '\U{A0}' || c == '\U{1680}'
    || ('\U{2000}' <= c <= '\U{200A}') || c == '\U{2028}' || c == '\U{2029}'
    || c == '\U{202F}' || c == '\U{205F}' || c == '\U{3000}'
  }

  /** A single word: non-empty, no whitespace (a hex digest is one). */
  predicate IsToken(s: string)
  {
    s != [] && forall i :: 0 <= i < |s| ==> !IsSpace(s[i])
  }

  /** Non-empty and without leading or trailing whitespace; inner spaces allowed. */
  predicate IsTrimmed(s: string)
  {
    s != [] && !IsSpace(s[0]) && !IsSpace(s[|s| - 1])
  }

  predicate AllSpace(s: string)
  {
    forall i :: 0 <= i < |s| ==> IsSpace(s[i])
  }

  /** The number of whitespace characters `s` starts with. */
  function LeadingSpaces(s: string): (n: nat)
    ensures n <= |s|
    ensures forall k :: 0 <= k < n ==> IsSpace(s[k])
    ensures n < |s| ==> !IsSpace(s[n])
  {
    if s != [] && IsSpace(s[0]) then 1 + LeadingSpaces(s[1..]) else 0
  }

  /** The number of whitespace characters `s` ends with. */
  function TrailingSpaces(s: string): (n: nat)
    ensures n <= |s|
    ensures forall k :: |s| - n <= k < |s| ==> IsSpace(s[k])
    ensures n < |s| ==> !IsSpace(s[|s| - 1 - n])
  {
    if s != [] && IsSpace(s[|s| - 1]) then 1 + TrailingSpaces(s[..|s| - 1]) else 0
  }

  /** `str.lstrip()`. */
  function TrimStart(s: string): string
  {
    s[LeadingSpaces(s)..]
  }

  /** `str.rstrip()`. */
  function TrimEnd(s: string): string
  {
    s[..|s| - TrailingSpaces(s)]
  }

  /** `str.strip()`. */
  function Strip(s: string): (r: string)
    ensures r == [] || (!IsSpace(r[0]) && !IsSpace(r[|r| - 1]))
  {
    var t := TrimStart(s);
    var r := TrimEnd(t);
    assert r != [] ==> r[0] == t[0];
    r
  }

  /** Index of the first whitespace character, or `|s|` if there is none. */
  function FirstSpace(s: string): (i: nat)
    ensures i <= |s|
    ensures forall k :: 0 <= k < i ==> !IsSpace(s[k])
    ensures i < |s| ==> IsSpace(s[i])
  {
    if s == [] || IsSpace(s[0]) then 0 else 1 + FirstSpace(s[1..])
  }

  /** The line `process_file` appends to a record file. */
  function FormatLine(checksum: string, name: string): (r: string)
    ensures |r| == |checksum| + |name| + 3 && r[..|checksum|] == checksum && r[|r| - 1] == '\n'
  {
    checksum + "  " + name + "\n"
  }

  /** `expected_hash, file_name = line.strip().split(maxsplit=1)`; `None` is the
      `ValueError` raised when fewer than two fields come out. */
  function ParseLine(line: string): (r: Option<(string, string)>)
    ensures r.None? <==> forall k :: 0 <= k < |Strip(line)| ==> !IsSpace(Strip(line)[k])
    ensures r.Some? ==> IsToken(r.value.0) && IsTrimmed(r.value.1)
  {
    var s := Strip(line);
    var i := FirstSpace(s);
    if i == |s| then None
    else
      assert s != [] && !IsSpace(s[0]);
      var rest := TrimStart(s[i..]);
      assert rest != [] && rest[|rest| - 1] == s[|s| - 1] by {
        assert !IsSpace(s[|s| - 1]);
      }
      assert IsSpace(s[i]);
      Some((s[..i], rest))
  }

  lemma TrimOfTrimmed(s: string)
    requires s == [] || (!IsSpace(s[0]) && !IsSpace(s[|s| - 1]))
    ensures TrimStart(s) == s && TrimEnd(s) == s && Strip(s) == s
  {
  }

  lemma TrimStartSkips(ws: string, s: string)
    requires AllSpace(ws) && (s == [] || !IsSpace(s[0]))
    ensures TrimStart(ws + s) == s
  {
    if ws != [] {
      assert (ws + s)[1..] == ws[1..] + s;
      TrimStartSkips(ws[1..], s);
    }
  }

  lemma TrimEndSkips(s: string, ws: string)
    requires AllSpace(ws) && (s == [] || !IsSpace(s[|s| - 1]))
    ensures TrimEnd(s + ws) == s
  {
    if ws != [] {
      assert (s + ws)[..|s + ws| - 1] == s + ws[..|ws| - 1];
      TrimEndSkips(s, ws[..|ws| - 1]);
    }
  }

  /** The one shape every parsed line has once stripped: a digest, a run of
      whitespace, the name; trailing whitespace (the "\n") is dropped. */
  lemma {:induction false} ParseOfShape(checksum: string, gap: string, name: string, tail: string)
    requires IsToken(checksum) && gap != [] && AllSpace(gap) && IsTrimmed(name) && AllSpace(tail)
    ensures ParseLine(checksum + gap + name + tail) == Some((checksum, name))
  {
    var body := checksum + gap + name;
    assert body + tail == checksum + gap + name + tail;
    assert (body + tail)[0] == checksum[0];
    assert TrimStart(body + tail) == body + tail;
    assert body[|body| - 1] == name[|name| - 1];
    TrimEndSkips(body, tail);
    assert FirstSpace(body) == |checksum| by {
      assert body == checksum + (gap + name);
      assert (gap + name)[0] == gap[0];
      FirstSpaceOfToken(checksum, gap + name);
    }
    assert body[|checksum|..] == gap + name;
    TrimStartSkips(gap, name);
    assert body[..|checksum|] == checksum;
  }

  /** Round trip: a digest without whitespace and a name without leading or
      trailing whitespace come back exactly as written; inner spaces of the
      name survive because only the first field is split off. */
  lemma {:induction false} ParseFormatRoundTrip(checksum: string, name: string)
    requires IsToken(checksum) && IsTrimmed(name)
    ensures ParseLine(FormatLine(checksum, name)) == Some((checksum, name))
  {
    ParseOfShape(checksum, "  ", name, "\n");
  }

  lemma FirstSpaceOfToken(t: string, rest: string)
    requires forall i :: 0 <= i < |t| ==> !IsSpace(t[i])
    requires rest != [] && IsSpace(rest[0])
    ensures FirstSpace(t + rest) == |t|
  {
    if t != [] {
      assert (t + rest)[0] == t[0];
      assert (t + rest)[1..] == t[1..] + rest;
      FirstSpaceOfToken(t[1..], rest);
    } else {
      assert t + rest == rest;
    }
  }

  /** The converse: every line that parses is, once stripped, the digest, a
      non-empty run of whitespace and the name. */
  lemma {:induction false} ParsedLineShape(line: string, checksum: string, name: string)
    requires ParseLine(line) == Some((checksum, name))
    ensures exists gap :: gap != [] && AllSpace(gap) && Strip(line) == checksum + gap + name
  {
    var s := Strip(line);
    var i := FirstSpace(s);
    var t := s[i..];
    SplitAtFirstSpace(s, i);
    var gap := t[..LeadingSpaces(t)];
    assert Strip(line) == checksum + gap + name;
  }

  /** Splitting at the first whitespace: the word before it, the run of
      whitespace, and what `lstrip` leaves of the rest. */
  lemma SplitAtFirstSpace(s: string, i: nat)
    requires i < |s| && IsSpace(s[i])
    ensures var t := s[i..];
            var gap := t[..LeadingSpaces(t)];
            gap != [] && AllSpace(gap) && s == s[..i] + gap + TrimStart(t)
  {
    var t := s[i..];
    var n := LeadingSpaces(t);
    assert IsSpace(t[0]);
    assert t == t[..n] + t[n..];
    assert s == s[..i] + t;
  }

  /** A blank line (or one holding only whitespace) is refused, since
      `"".split()` is empty. */
  lemma {:induction false} BlankLineRefused(line: string)
    requires AllSpace(line)
    ensures ParseLine(line) == None
  {
    TrimStartSkips(line, []);
    assert line + [] == line;
  }

  /** A name with a leading space is recorded, but the whitespace between the
      fields absorbs it: the line reads back with the space dropped. */
  lemma {:induction false} LeadingSpaceNameReadsBackShortened(checksum: string, name: string)
    requires IsToken(checksum) && IsTrimmed(name)
    ensures ParseLine(FormatLine(checksum, " " + name)) == Some((checksum, name))
  {
    assert FormatLine(checksum, " " + name) == checksum + "   " + name + "\n";
    ParseOfShape(checksum, "   ", name, "\n");
  }

  /** Any base name, trimmed or not, is written as it is but read back
      stripped: the gap between the fields absorbs leading whitespace and
      `strip()` drops trailing whitespace; a name of only whitespace leaves a
      line that does not parse. */
  lemma {:induction false} NameReadsBackStripped(checksum: string, name: string)
    requires IsToken(checksum)
    ensures Strip(name) != [] ==> ParseLine(FormatLine(checksum, name)) == Some((checksum, Strip(name)))
    ensures Strip(name) == [] ==> ParseLine(FormatLine(checksum, name)) == None && Strip(FormatLine(checksum, name)) == checksum
  {
    var t := TrimStart(name);
    var lead, core, trail := name[..LeadingSpaces(name)], Strip(name), t[|t| - TrailingSpaces(t)..];
    assert name == lead + core + trail by {
      assert name == lead + t;
      assert t == core + trail;
    }
    assert AllSpace(lead) && AllSpace(trail);
    if core != [] {
      assert FormatLine(checksum, name) == checksum + ("  " + lead) + core + (trail + "\n");
      ParseOfShape(checksum, "  " + lead, core, trail + "\n");
    } else {
      var tail := "  " + lead + trail + "\n";
      assert FormatLine(checksum, name) == checksum + tail;
      assert (checksum + tail)[0] == checksum[0];
      assert TrimStart(checksum + tail) == checksum + tail;
      TrimEndSkips(checksum, tail);
    }
  }
}
