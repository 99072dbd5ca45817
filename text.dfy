/**
  Cleaning of the lines read from a codes file: every line is stripped of
  surrounding whitespace with Python's `str.strip()`, and lines that are empty
  after stripping are dropped, in their original order.
 */
module Text {

  /** The characters for which Python's `str.isspace()` holds: the ASCII
      controls TAB, LF, VT, FF, CR, the separators U+001C..U+001F, SPACE, and
      the Unicode whitespace code points. */
  predicate IsSpace(c: char)
  {
    ('\t' <= c <= '\r') || ('\U{1C}' <= c <= '\U{1F}') || c == ' '
    || c == '\U{85}' || c == '\U{A0}' || c == '\U{1680}'
    || ('\U{2000}' <= c <= '\U{200A}') || c == '\U{2028}' || c == '\U{2029}'
    || c == '\U{202F}' || c == '\U{205F}' || c == '\U{3000}'
  }

  /** Every character of `s` at an index in `lo..hi` is whitespace. */
  predicate SpaceIn(s: string, lo: int, hi: int)
    requires 0 <= lo <= hi <= |s|
  {
    forall k :: lo <= k < hi ==> IsSpace(s[k])
  }

  predicate AllSpace(s: string)
  {
    SpaceIn(s, 0, |s|)
  }

  /** The string that `str.strip()` leaves alone: empty, or starts and ends with a non-space. */
  predicate IsStripped(s: string)
  {
    s == [] || (!IsSpace(s[0]) && !IsSpace(s[|s| - 1]))
  }

  /** Drops leading whitespace. */
  function TrimStart(s: string): (r: string)
    ensures |r| <= |s|
  {
    if s != [] && IsSpace(s[0]) then TrimStart(s[1..]) else s
  }

  /** `TrimStart(s)` is a suffix of `s`, everything cut off is whitespace, and
      what is left does not start with whitespace. */
  lemma {:induction false} TrimStartSpec(s: string)
    ensures var r := TrimStart(s);
      r == s[|s| - |r|..] && SpaceIn(s, 0, |s| - |r|) && (r == [] || !IsSpace(r[0]))
  {
    if s != [] && IsSpace(s[0]) {
      var t := s[1..];
      TrimStartSpec(t);
      var r := TrimStart(t);
      assert t[|t| - |r|..] == s[|s| - |r|..];
      forall k | 0 <= k < |s| - |r| ensures IsSpace(s[k]) {
        if k > 0 { assert s[k] == t[k - 1]; }
      }
    }
  }

  /** Drops trailing whitespace. */
  function TrimEnd(s: string): (r: string)
    ensures |r| <= |s|
  {
    if s != [] && IsSpace(s[|s| - 1]) then TrimEnd(s[..|s| - 1]) else s
  }

  /** `TrimEnd(s)` is a prefix of `s`, everything cut off is whitespace, and
      what is left does not end with whitespace. */
  lemma {:induction false} TrimEndSpec(s: string)
    ensures var r := TrimEnd(s);
      r == s[..|r|] && SpaceIn(s, |r|, |s|) && (r == [] || !IsSpace(r[|r| - 1]))
  {
    if s != [] && IsSpace(s[|s| - 1]) {
      var t := s[..|s| - 1];
      TrimEndSpec(t);
      var r := TrimEnd(t);
      assert t[..|r|] == s[..|r|];
      forall k | |r| <= k < |s| ensures IsSpace(s[k]) {
        if k < |t| { assert s[k] == t[k]; }
      }
    }
  }

  /** Python's `str.strip()` with no argument. */
  function Strip(s: string): (r: string)
    ensures IsStripped(r) && |r| <= |s|
  {
    TrimStartSpec(s);
    TrimEndSpec(TrimStart(s));
    var t := TrimStart(s);
    assert TrimEnd(t) != [] ==> TrimEnd(t)[0] == t[0];
    TrimEnd(t)
  }

  /** `Strip(s)` is a slice of `s` with only whitespace around it. */
  lemma StripIsSlice(s: string) returns (i: int, j: int)
    ensures 0 <= i <= j <= |s| && Strip(s) == s[i..j]
    ensures SpaceIn(s, 0, i) && SpaceIn(s, j, |s|)
  {
    var t := TrimStart(s);
    var r := TrimEnd(t);
    TrimStartSpec(s);
    TrimEndSpec(t);
    i, j := |s| - |t|, |s| - |t| + |r|;
    assert r == s[i..j];
    forall k | j <= k < |s| ensures IsSpace(s[k]) {
      assert s[k] == t[k - i];
    }
  }

  /** `Strip(s)` is the only stripped slice of `s` with only whitespace
      around it: strip removes exactly the surrounding whitespace. */
  lemma StripUnique(s: string, i: int, j: int)
    requires 0 <= i <= j <= |s|
    requires SpaceIn(s, 0, i) && SpaceIn(s, j, |s|) && IsStripped(s[i..j])
    ensures Strip(s) == s[i..j]
  {
    var i', j' := StripIsSlice(s);
    if i < j {
      assert !IsSpace(s[i]) && !IsSpace(s[j - 1]) by { assert s[i..j][0] == s[i]; }
      assert i' < j';
      assert !IsSpace(s[i']) && !IsSpace(s[j' - 1]) by { assert s[i'..j'][0] == s[i']; }
      assert i == i' && j == j';
    } else {
      assert i' == j';
    }
  }

  /** Stripping twice is stripping once. */
  lemma StripIdempotent(s: string)
    ensures Strip(Strip(s)) == Strip(s)
  {
    StripOfStripped(Strip(s));
  }

  /** A stripped string is its own strip. */
  lemma StripOfStripped(s: string)
    requires IsStripped(s)
    ensures Strip(s) == s
  {
    assert s[0..|s|] == s;
    StripUnique(s, 0, |s|);
  }

  /** A line is blank exactly when it is whitespace only. */
  lemma StripEmptyIff(s: string)
    ensures Strip(s) == [] <==> AllSpace(s)
  {
    if AllSpace(s) {
      assert s[|s|..|s|] == [];
      StripUnique(s, |s|, |s|);
    }
    if Strip(s) == [] {
      var i, j := StripIsSlice(s);
      assert SpaceIn(s, 0, |s|);
    }
  }

  /** The codes read from a file (generate.py:123): each line stripped, blank
      lines dropped, order kept. */
  function CleanLines(lines: seq<string>): (codes: seq<string>)
    ensures |codes| <= |lines|
    ensures forall k :: 0 <= k < |codes| ==> codes[k] != [] && IsStripped(codes[k])
  {
    if lines == [] then []
    else
      var rest := CleanLines(lines[..|lines| - 1]);
      var t := Strip(lines[|lines| - 1]);
      if t != [] then rest + [t] else rest
  }

  /** Cleaning is per line: cleaning two runs of lines is cleaning each and
      concatenating, so the relative order of the kept lines is unchanged. */
  lemma {:induction false} CleanLinesAppend(a: seq<string>, b: seq<string>)
    ensures CleanLines(a + b) == CleanLines(a) + CleanLines(b)
    decreases |b|
  {
    if b == [] {
      assert a + b == a;
    } else {
      var b' := b[..|b| - 1];
      assert (a + b)[..|a + b| - 1] == a + b';
      assert (a + b)[|a + b| - 1] == b[|b| - 1];
      CleanLinesAppend(a, b');
    }
  }

  /** Every non-blank line survives cleaning, in its stripped form. */
  lemma {:induction false} CleanLinesKeeps(lines: seq<string>, k: int)
    requires 0 <= k < |lines| && Strip(lines[k]) != []
    ensures Strip(lines[k]) in CleanLines(lines)
  {
    var init := lines[..|lines| - 1];
    if k < |init| {
      assert init[k] == lines[k];
      CleanLinesKeeps(init, k);
    }
  }

  /** Every cleaned code is the non-empty stripped form of some input line. */
  lemma {:induction false} CleanLinesOrigin(lines: seq<string>, x: string) returns (k: int)
    requires x in CleanLines(lines)
    ensures 0 <= k < |lines| && Strip(lines[k]) == x && x != []
  {
    var init := lines[..|lines| - 1];
    if x in CleanLines(init) {
      k := CleanLinesOrigin(init, x);
      assert init[k] == lines[k];
    } else {
      k := |lines| - 1;
    }
  }

  /** A code comes out of cleaning exactly when it is the non-empty stripped
      form of some input line. */
  lemma CleanLinesMembers(lines: seq<string>, x: string)
    ensures x in CleanLines(lines) <==> x != [] && exists k :: 0 <= k < |lines| && Strip(lines[k]) == x
  {
    if x in CleanLines(lines) {
      var k := CleanLinesOrigin(lines, x);
    }
    if x != [] && exists k :: 0 <= k < |lines| && Strip(lines[k]) == x {
      var k :| 0 <= k < |lines| && Strip(lines[k]) == x;
      CleanLinesKeeps(lines, k);
    }
  }

  /** Cleaning already-cleaned codes changes nothing. */
  lemma {:induction false} CleanLinesIdempotent(lines: seq<string>)
    ensures CleanLines(CleanLines(lines)) == CleanLines(lines)
  {
    if lines != [] {
      var init := lines[..|lines| - 1];
      var t := Strip(lines[|lines| - 1]);
      CleanLinesIdempotent(init);
      if t != [] {
        StripIdempotent(lines[|lines| - 1]);
        CleanLinesAppend(CleanLines(init), [t]);
        assert CleanLines([t]) == [t] by { assert [t][..0] == []; }
      }
    }
  }

  /** Appending a non-blank line appends its stripped form to the codes. */
  lemma CleanLinesSnoc(lines: seq<string>, line: string)
    ensures CleanLines(lines + [line]) == CleanLines(lines) + (if Strip(line) != [] then [Strip(line)] else [])
  {
    assert (lines + [line])[..|lines|] == lines;
  }

  /** Blank lines between kept lines disappear and the kept lines stay in order. */
  lemma CleanLinesDropsBlank(a: string, b: string, blank: string, c: string)
    requires a != [] && IsStripped(a) && b != [] && IsStripped(b) && c != [] && IsStripped(c)
    requires AllSpace(blank)
    ensures CleanLines([a, b, blank, c]) == [a, b, c]
  {
    var l0: seq<string> := [];
    var l1 := l0 + [a];
    var l2 := l1 + [b];
    var l3 := l2 + [blank];
    var l4 := l3 + [c];
    assert l4 == [a, b, blank, c];
    StripOfStripped(a);
    StripOfStripped(b);
    StripEmptyIff(blank);
    StripOfStripped(c);
    CleanLinesSnoc(l0, a);
    CleanLinesSnoc(l1, b);
    CleanLinesSnoc(l2, blank);
    CleanLinesSnoc(l3, c);
  }

  /** Three codes with a whitespace-only line before the last: the blank line
      is dropped and the order kept. */
  lemma CleanLinesExample()
    ensures CleanLines(["123", "456", "   ", "789"]) == ["123", "456", "789"]
  {
    CleanLinesDropsBlank("123", "456", "   ", "789");
  }
}
