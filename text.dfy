/**
 * String helpers with the meaning of the Rust standard library calls the
 * game uses: `char::is_whitespace`, `str::trim`, `split_once`, `split`,
 * `starts_with`, `contains`, `find` and ASCII lower-casing.
 * Strings are sequences of Unicode scalar values (`seq<char>`).
 */
module Text {
  import opened Wrappers

  /** The Unicode White_Space property, which `char::is_whitespace` and `str::trim` use. */
  predicate IsWhitespace(c: char)
  {
    ('\U{0009}' <= c <= '\U{000D}') || c == ' ' || c == '\U{0085}' || c == '\U{00A0}'
    || c == '\U{1680}' || ('\U{2000}' <= c <= '\U{200A}') || c == '\U{2028}' || c == '\U{2029}'
    || c == '\U{202F}' || c == '\U{205F}' || c == '\U{3000}'
  }

  predicate AllWhitespace(s: string)
  {
    forall k :: 0 <= k < |s| ==> IsWhitespace(s[k])
  }

  /** `str::trim_end`: the longest prefix that does not end with whitespace. */
  function TrimEnd(s: string): (r: string)
    ensures |r| <= |s| && r == s[..|r|]
    ensures r == [] || !IsWhitespace(r[|r| - 1])
    ensures AllWhitespace(s[|r|..])
  {
    if |s| > 0 && IsWhitespace(s[|s| - 1]) then
      var t := TrimEnd(s[..|s| - 1]);
      assert s[..|s| - 1][..|t|] == s[..|t|];
      assert s[|t|..] == s[..|s| - 1][|t|..] + [s[|s| - 1]];
      t
    else s
  }

  /** A string is trimmed when it neither starts nor ends with whitespace. */
  predicate IsTrimmed(s: string)
  {
    s == [] || (!IsWhitespace(s[0]) && !IsWhitespace(s[|s| - 1]))
  }

  /** `str::trim`: whitespace removed from both ends. */
  function Trim(s: string): (r: string)
    ensures |r| <= |s| && IsTrimmed(r)
    ensures r == [] <==> AllWhitespace(s)
    decreases |s|
  {
    if |s| > 0 && IsWhitespace(s[0]) then
      var t := Trim(s[1..]);
      assert AllWhitespace(s[1..]) ==> AllWhitespace(s);
      t
    else if |s| > 0 && IsWhitespace(s[|s| - 1]) then
      var t := Trim(s[..|s| - 1]);
      assert AllWhitespace(s[..|s| - 1]) ==> AllWhitespace(s);
      t
    else s
  }

  /** `trim` leaves a trimmed string alone. */
  lemma TrimOfTrimmed(s: string)
    requires IsTrimmed(s)
    ensures Trim(s) == s
  {
    if s != [] {
      assert !IsWhitespace(s[0]) && !IsWhitespace(s[|s| - 1]);
    }
  }

  lemma TrimIdempotent(s: string)
    ensures Trim(Trim(s)) == Trim(s)
  {
    TrimOfTrimmed(Trim(s));
  }

  /** `trim` returns a slice of its input. */
  lemma {:induction false} TrimSlice(s: string) returns (lo: nat)
    ensures lo + |Trim(s)| <= |s| && Trim(s) == s[lo..lo + |Trim(s)|]
    decreases |s|
  {
    if |s| > 0 && IsWhitespace(s[0]) {
      var l := TrimSlice(s[1..]);
      lo := l + 1;
      SliceOfTail(s, l, |Trim(s)|);
    } else if |s| > 0 && IsWhitespace(s[|s| - 1]) {
      lo := TrimSlice(s[..|s| - 1]);
      assert s[..|s| - 1][lo..lo + |Trim(s)|] == s[lo..lo + |Trim(s)|];
    } else {
      lo := 0;
    }
  }

  /** A slice of `s[1..]` is the slice of `s` one further on. */
  lemma SliceOfTail(s: string, l: nat, n: nat)
    requires 0 < |s| && l + n <= |s| - 1
    ensures s[1..][l..l + n] == s[l + 1..l + 1 + n]
  {
    var a := s[1..][l..l + n];
    var b := s[l + 1..l + 1 + n];
    forall k | 0 <= k < n
      ensures a[k] == b[k]
    {
    }
  }

  predicate StartsWith(s: string, prefix: string)
  {
    |prefix| <= |s| && s[..|prefix|] == prefix
  }

  predicate EndsWith(s: string, suffix: string)
  {
    |suffix| <= |s| && s[|s| - |suffix|..] == suffix
  }

  /** `str::contains` for a string pattern. */
  predicate Contains(s: string, pat: string)
  {
    StartsWith(s, pat) || (|s| > 0 && Contains(s[1..], pat))
  }

  /** `str::find` for a single character: the first index holding `c`. */
  function FindChar(s: string, c: char): (r: Option<nat>)
    ensures r.Some? ==> r.value < |s| && s[r.value] == c && c !in s[..r.value]
    ensures r.None? <==> c !in s
  {
    if |s| == 0 then None
    else if s[0] == c then Some(0)
    else
      var t := FindChar(s[1..], c);
      if t.Some? then
        assert s[..t.value + 1] == [s[0]] + s[1..][..t.value];
        Some(t.value + 1)
      else None
  }

  /** `pat` occurs in `s` starting at index `j`. */
  predicate OccursAt(s: string, pat: string, j: nat)
  {
    j + |pat| <= |s| && s[j..j + |pat|] == pat
  }

  /** An occurrence one position further in `s` is an occurrence in `s` without its first character. */
  lemma OccursAtShift(s: string, pat: string, j: nat)
    requires |s| > 0
    ensures OccursAt(s, pat, j + 1) <==> OccursAt(s[1..], pat, j)
  {
    if j + 1 + |pat| <= |s| {
      var a, b := s[j + 1..j + 1 + |pat|], s[1..][j..j + |pat|];
      forall k | 0 <= k < |pat| ensures a[k] == b[k] {
        assert a[k] == s[j + 1 + k] == b[k];
      }
      assert a == b;
    }
  }

  /** `str::find` for a string pattern: the first index where `pat` occurs. */
  function FindSeq(s: string, pat: string): (r: Option<nat>)
    requires |pat| > 0
    ensures r.Some? ==> OccursAt(s, pat, r.value)
    ensures r.Some? ==> forall j: nat :: j < r.value ==> !OccursAt(s, pat, j)
    ensures r.None? ==> forall j: nat :: !OccursAt(s, pat, j)
    decreases |s|
  {
    if |s| < |pat| then None
    else if s[..|pat|] == pat then Some(0)
    else
      var t := FindSeq(s[1..], pat);
      forall j: nat ensures OccursAt(s, pat, j + 1) <==> OccursAt(s[1..], pat, j) {
        OccursAtShift(s, pat, j);
      }
      assert !OccursAt(s, pat, 0);
      assert forall j: nat :: j > 0 ==> (OccursAt(s, pat, j) <==> OccursAt(s[1..], pat, j - 1));
      if t.Some? then Some(t.value + 1) else None
  }

  /** `str::split_once` on a character: the text before and after its first occurrence. */
  function SplitOnceChar(s: string, c: char): (r: Option<(string, string)>)
    ensures r.None? <==> c !in s
    ensures r.Some? ==> s == r.value.0 + [c] + r.value.1 && c !in r.value.0
  {
    match FindChar(s, c)
    case None => None
    case Some(i) =>
      assert s == s[..i] + [c] + s[i + 1..];
      Some((s[..i], s[i + 1..]))
  }

  /** `str::split_once` on a string pattern: split around its first occurrence. */
  function SplitOnceSeq(s: string, pat: string): (r: Option<(string, string)>)
    requires |pat| > 0
    ensures r.Some? ==> s == r.value.0 + pat + r.value.1
    ensures r.Some? ==> forall j: nat :: j < |r.value.0| ==> !OccursAt(s, pat, j)
    ensures r.None? ==> forall j: nat :: !OccursAt(s, pat, j)
  {
    match FindSeq(s, pat)
    case None => None
    case Some(i) =>
      assert s == s[..i] + pat + s[i + |pat|..];
      Some((s[..i], s[i + |pat|..]))
  }

  /** `str::split` on a character: never empty, and the pieces hold no separator. */
  function Split(s: string, sep: char): (r: seq<string>)
    ensures |r| >= 1
    ensures forall k :: 0 <= k < |r| ==> sep !in r[k]
    decreases |s|
  {
    match SplitOnceChar(s, sep)
    case None => [s]
    case Some((head, tail)) => [head] + Split(tail, sep)
  }

  /** The inverse of `Split`: the pieces glued back with the separator. */
  function Join(pieces: seq<string>, sep: char): string
    requires |pieces| >= 1
  {
    if |pieces| == 1 then pieces[0] else pieces[0] + [sep] + Join(pieces[1..], sep)
  }

  lemma {:induction false} SplitJoin(s: string, sep: char)
    ensures Join(Split(s, sep), sep) == s
    decreases |s|
  {
    match SplitOnceChar(s, sep)
    case None =>
    case Some((head, tail)) =>
      SplitJoin(tail, sep);
      assert Split(s, sep)[1..] == Split(tail, sep);
  }

  function AsciiLowerChar(c: char): char
  {
    if 'A' <= c <= 'Z' then (c as int + 32) as char else c
  }

  /** `str::to_ascii_lowercase`. */
  function AsciiLower(s: string): (r: string)
    ensures |r| == |s|
    ensures forall k :: 0 <= k < |s| ==> r[k] == AsciiLowerChar(s[k])
  {
    if s == [] then [] else [AsciiLowerChar(s[0])] + AsciiLower(s[1..])
  }

  predicate IsAsciiDigit(c: char) { '0' <= c <= '9' }

  predicate IsAsciiLowerLetter(c: char) { 'a' <= c <= 'z' }

  predicate IsAsciiAlphanumeric(c: char)
  {
    IsAsciiDigit(c) || IsAsciiLowerLetter(c) || ('A' <= c <= 'Z')
  }

  /**
   * `char::is_alphabetic`, restricted to the Basic Latin and Latin-1 letters
   * (the letters of the English and Portuguese text the game speaks).
   */
  predicate IsAlphabetic(c: char)
  {
    ('a' <= c <= 'z') || ('A' <= c <= 'Z') || c == '\U{00AA}' || c == '\U{00B5}' || c == '\U{00BA}'
    || ('\U{00C0}' <= c <= '\U{00FF}' && c != '\U{00D7}' && c != '\U{00F7}')
  }

  /** `char::to_lowercase` on the same letters: ASCII and Latin-1 capitals map down by 32. */
  function ToLowerChar(c: char): (r: char)
    ensures IsAlphabetic(c) ==> IsAlphabetic(r)
    ensures r != c ==> IsAlphabetic(c)
  {
    if ('A' <= c <= 'Z') || ('\U{00C0}' <= c <= '\U{00DE}' && c != '\U{00D7}') then (c as int + 32) as char else c
  }

  /** `str::to_lowercase`, one character at a time (length preserving). */
  function ToLower(s: string): (r: string)
    ensures |r| == |s|
    ensures forall k :: 0 <= k < |s| ==> r[k] == ToLowerChar(s[k])
  {
    if s == [] then [] else [ToLowerChar(s[0])] + ToLower(s[1..])
  }

  function DigitChar(d: nat): char
    requires d < 10
  {
    ('0' as int + d) as char
  }

  /** Decimal rendering of a natural number, as `format!("{}", n)` prints it. */
  function NatToString(n: nat): (r: string)
    ensures |r| >= 1
    ensures forall k :: 0 <= k < |r| ==> IsAsciiDigit(r[k])
  {
    if n < 10 then [DigitChar(n)] else NatToString(n / 10) + [DigitChar(n % 10)]
  }

  /**
   * `String` ordering: lexicographic by code point, which agrees with the
   * byte order of the UTF-8 encoding Rust compares.
   */
  predicate LexLess(a: string, b: string)
  {
    |b| > 0 && (|a| == 0 || a[0] < b[0] || (a[0] == b[0] && LexLess(a[1..], b[1..])))
  }

  lemma {:induction false} LexLessIrreflexive(a: string)
    ensures !LexLess(a, a)
  {
    if |a| > 0 { LexLessIrreflexive(a[1..]); }
  }

  lemma {:induction false} LexLessTransitive(a: string, b: string, c: string)
    requires LexLess(a, b) && LexLess(b, c)
    ensures LexLess(a, c)
  {
    if |a| > 0 && a[0] == b[0] && b[0] == c[0] {
      LexLessTransitive(a[1..], b[1..], c[1..]);
    }
  }

  lemma {:induction false} LexLessTotal(a: string, b: string)
    requires a != b
    ensures LexLess(a, b) || LexLess(b, a)
  {
    if |a| > 0 && |b| > 0 && a[0] == b[0] {
      assert a == [a[0]] + a[1..] && b == [b[0]] + b[1..];
      LexLessTotal(a[1..], b[1..]);
    }
  }

  /** `trim` holds no character its input lacks. */
  lemma TrimChars(s: string)
    ensures forall k :: 0 <= k < |Trim(s)| ==> Trim(s)[k] in s
  {
    var lo := TrimSlice(s);
    forall k | 0 <= k < |Trim(s)| ensures Trim(s)[k] in s {
      assert Trim(s)[k] == s[lo + k];
    }
  }

  /** A string that starts with a non-whitespace character keeps it first after `trim`. */
  lemma {:induction false} TrimKeepsFirst(s: string)
    requires |s| > 0 && !IsWhitespace(s[0])
    ensures Trim(s) != [] && Trim(s)[0] == s[0]
    decreases |s|
  {
    if IsWhitespace(s[|s| - 1]) {
      assert |s| > 1;
      TrimKeepsFirst(s[..|s| - 1]);
    }
  }

  /** Splitting a string glued from separator-free pieces gives back the pieces. */
  lemma {:induction false} SplitOfJoin(pieces: seq<string>, sep: char)
    requires |pieces| >= 1
    requires forall k :: 0 <= k < |pieces| ==> sep !in pieces[k]
    ensures Split(Join(pieces, sep), sep) == pieces
    decreases |pieces|
  {
    var s := Join(pieces, sep);
    if |pieces| == 1 {
      assert SplitOnceChar(s, sep).None?;
    } else {
      var rest := Join(pieces[1..], sep);
      assert s == pieces[0] + [sep] + rest;
      var r := SplitOnceChar(s, sep);
      assert sep in s by { assert s[|pieces[0]|] == sep; }
      SplitPrefixUnique(r.value.0, r.value.1, pieces[0], rest, sep);
      SplitOfJoin(pieces[1..], sep);
      assert pieces == [pieces[0]] + pieces[1..];
    }
  }

  /** The text before the first separator is determined by the string. */
  lemma SplitPrefixUnique(a: string, b: string, x: string, y: string, c: char)
    requires a + [c] + b == x + [c] + y && c !in a && c !in x
    ensures a == x && b == y
  {
    var s := a + [c] + b;
    assert s[|a|] == c && s[|x|] == c;
    if |a| < |x| {
      assert false;
    } else if |x| < |a| {
      assert false;
    }
    assert a == s[..|a|] && x == s[..|x|];
    assert b == s[|a| + 1..] && y == s[|x| + 1..];
  }
}
