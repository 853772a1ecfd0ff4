/**
 * The parts of Python's `str` that the audio utilities rely on: the
 * whitespace class (`str.isspace`, which is also the class `\s` matches in
 * a str pattern and the set `str.strip()` removes), `splitlines`, `split`
 * on a one-character separator, `strip` and `lower`.
 */
module PyStr {

  /** The i-th of the ten inclusive ranges of characters for which Python's str.isspace() holds. */
  function SpaceRange(i: nat): (char, char)
    requires i < 10
  {
    match i
    case 0 => ('\t', '\r')
    case 1 => ('\U{1C}', ' ')
    case 2 => ('\U{85}', '\U{85}')
    case 3 => ('\U{A0}', '\U{A0}')
    case 4 => ('\U{1680}', '\U{1680}')
    case 5 => ('\U{2000}', '\U{200A}')
    case 6 => ('\U{2028}', '\U{2029}')
    case 7 => ('\U{202F}', '\U{202F}')
    case 8 => ('\U{205F}', '\U{205F}')
    case _ => ('\U{3000}', '\U{3000}')
  }

  /** Whether c lies in one of the ranges from the i-th on. */
  predicate SpaceFrom(c: char, i: nat)
    decreases 10 - i
  {
    i < 10 && (SpaceRange(i).0 <= c <= SpaceRange(i).1 || SpaceFrom(c, i + 1))
  }

  /** Python's str.isspace() on one character. */
  predicate IsSpace(c: char) {
    SpaceFrom(c, 0)
  }

  /** No character of s is whitespace. */
  predicate NoSpace(s: string) {
    forall k | 0 <= k < |s| :: !IsSpace(s[k])
  }

  /** The characters at which str.splitlines() ends a line. */
  predicate IsLineBreak(c: char) {
    || c == '\n' || c == '\r' || c == '\U{0B}' || c == '\U{0C}'
    || '\U{1C}' <= c <= '\U{1E}'
    || c == '\U{85}' || c == '\U{2028}' || c == '\U{2029}'
  }

  predicate NoLineBreak(s: string) {
    forall k | 0 <= k < |s| :: !IsLineBreak(s[k])
  }

  /** Index of the first line break at or after i, or |s| if there is none. */
  function NextBreak(s: string, i: nat): (j: nat)
    requires i <= |s|
    ensures i <= j <= |s|
    ensures forall k | i <= k < j :: !IsLineBreak(s[k])
    ensures j < |s| ==> IsLineBreak(s[j])
    decreases |s| - i
  {
    if i == |s| || IsLineBreak(s[i]) then i else NextBreak(s, i + 1)
  }

  /**
   * str.splitlines(): each line ends at a line break, "\r\n" counts as one
   * break, and a break at the very end adds no empty last line.
   */
  function SplitLines(s: string): (lines: seq<string>)
    ensures forall l | l in lines :: NoLineBreak(l)
    ensures s == "" <==> lines == []
    decreases |s|
  {
    if s == "" then []
    else
      var i := NextBreak(s, 0);
      if i == |s| then [s]
      else
        var next := if s[i] == '\r' && i + 1 < |s| && s[i + 1] == '\n' then i + 2 else i + 1;
        [s[..i]] + SplitLines(s[next..])
  }

  /** Lines written out one after another, each ended by "\n". */
  function JoinLines(lines: seq<string>): string {
    if lines == [] then "" else lines[0] + "\n" + JoinLines(lines[1..])
  }

  /** splitlines() gives back the lines of a text written with "\n" terminators. */
  lemma {:induction false} SplitLinesJoinLines(lines: seq<string>)
    requires forall l | l in lines :: NoLineBreak(l)
    ensures SplitLines(JoinLines(lines)) == lines
  {
    if lines != [] {
      var l, rest := lines[0], JoinLines(lines[1..]);
      var s := JoinLines(lines);
      assert s == l + "\n" + rest;
      NextBreakAt(s, l);
      assert s[..|l|] == l;
      assert s[|l| + 1..] == rest;
      SplitLinesJoinLines(lines[1..]);
    }
  }

  lemma NextBreakAt(s: string, l: string)
    requires NoLineBreak(l) && |l| < |s| && s[..|l|] == l && IsLineBreak(s[|l|])
    ensures NextBreak(s, 0) == |l|
  {
  }

  /** Index of the first c at or after i, or |s| if there is none. */
  function IndexFrom(s: string, c: char, i: nat): (j: nat)
    requires i <= |s|
    ensures i <= j <= |s|
    ensures forall k | i <= k < j :: s[k] != c
    ensures j < |s| ==> s[j] == c
    decreases |s| - i
  {
    if i == |s| || s[i] == c then i else IndexFrom(s, c, i + 1)
  }

  /** str.split(sep) for a one-character sep: never empty, and empty pieces are kept. */
  function Split(s: string, sep: char): (parts: seq<string>)
    ensures |parts| >= 1
    decreases |s|
  {
    var i := IndexFrom(s, sep, 0);
    if i == |s| then [s] else [s[..i]] + Split(s[i + 1..], sep)
  }

  /** No piece of a split holds the separator. */
  lemma {:induction false} SplitSeparatorFree(s: string, sep: char)
    ensures forall p | p in Split(s, sep) :: sep !in p
    decreases |s|
  {
    var i := IndexFrom(s, sep, 0);
    if i == |s| {
      assert s[..i] == s;
    } else {
      assert sep !in s[..i];
      assert Split(s, sep) == [s[..i]] + Split(s[i + 1..], sep);
      SplitSeparatorFree(s[i + 1..], sep);
    }
  }

  /** sep.join(parts). */
  function Join(parts: seq<string>, sep: char): string
    requires |parts| >= 1
    decreases |parts|
  {
    if |parts| == 1 then parts[0] else parts[0] + [sep] + Join(parts[1..], sep)
  }

  /** Joining the pieces of a split gives back the string. */
  lemma {:induction false} JoinSplit(s: string, sep: char)
    ensures Join(Split(s, sep), sep) == s
    decreases |s|
  {
    var i := IndexFrom(s, sep, 0);
    if i < |s| {
      var rest := Split(s[i + 1..], sep);
      assert Split(s, sep) == [s[..i]] + rest;
      assert ([s[..i]] + rest)[1..] == rest;
      JoinSplit(s[i + 1..], sep);
      assert s == s[..i] + [sep] + s[i + 1..];
    }
  }

  /** Splitting a join of separator-free pieces gives back the pieces. */
  lemma {:induction false} SplitJoin(parts: seq<string>, sep: char)
    requires |parts| >= 1
    requires forall p | p in parts :: sep !in p
    ensures Split(Join(parts, sep), sep) == parts
    decreases |parts|
  {
    var s := Join(parts, sep);
    var p := parts[0];
    if |parts| == 1 {
      assert p in parts;
    } else {
      var rest := Join(parts[1..], sep);
      assert s == p + [sep] + rest;
      assert p in parts;
      IndexFromFirstPiece(p, sep, rest);
      assert s[..|p|] == p;
      assert s[|p| + 1..] == rest;
      SplitJoin(parts[1..], sep);
      assert parts == [p] + parts[1..];
    }
  }

  /** The first separator of p + [sep] + rest, for a separator-free p, is the one after p. */
  lemma IndexFromFirstPiece(p: string, sep: char, rest: string)
    requires sep !in p
    ensures IndexFrom(p + [sep] + rest, sep, 0) == |p|
  {
    var s := p + [sep] + rest;
    var i := IndexFrom(s, sep, 0);
    assert s[|p|] == sep;
  }

  /** Every piece of a whitespace-free string is whitespace-free. */
  lemma {:induction false} SplitNoSpace(s: string, sep: char)
    ensures NoSpace(s) ==> forall p | p in Split(s, sep) :: NoSpace(p)
    decreases |s|
  {
    var i := IndexFrom(s, sep, 0);
    if NoSpace(s) && i < |s| {
      SplitNoSpace(s[i + 1..], sep);
      assert NoSpace(s[..i]);
    }
  }

  /** Two adjacent separators leave an empty piece between them. */
  lemma ExampleEmptyPiece()
    ensures Split("a,,b", ',') == ["a", "", "b"]
  {
    var parts := ["a", "", "b"];
    assert Join(parts, ',') == "a,,b";
    SplitJoin(parts, ',');
  }

  /** The characters str.strip(chars) removes, as a test; strip() with no argument removes the whitespace. */
  type CharClass = char -> bool

  /** Every character of s in [i, j) is in the class. */
  predicate InClassBetween(s: string, i: nat, j: nat, strip: CharClass)
    requires i <= j <= |s|
  {
    forall k | i <= k < j :: strip(s[k])
  }

  /** str.lstrip(chars): drops the leading characters of the class. */
  function LStripBy(s: string, strip: CharClass): (r: string)
    ensures |r| <= |s| && r == s[|s| - |r|..]
    ensures r == "" || !strip(r[0])
    ensures InClassBetween(s, 0, |s| - |r|, strip)
    decreases |s|
  {
    if s != "" && strip(s[0]) then LStripBy(s[1..], strip) else s
  }

  /** str.rstrip(chars): drops the trailing characters of the class. */
  function RStripBy(s: string, strip: CharClass): (r: string)
    ensures |r| <= |s| && r == s[..|r|]
    ensures r == "" || !strip(r[|r| - 1])
    ensures InClassBetween(s, |r|, |s|, strip)
    decreases |s|
  {
    if s != "" && strip(s[|s| - 1]) then RStripBy(s[..|s| - 1], strip) else s
  }

  /** str.strip(chars): no character of the class at either end, and a string with none of them is unchanged. */
  function StripBy(s: string, strip: CharClass): (r: string)
    ensures r == "" || (!strip(r[0]) && !strip(r[|r| - 1]))
    ensures (forall k | 0 <= k < |s| :: !strip(s[k])) ==> r == s
  {
    var t := RStripBy(s, strip);
    assert t == "" || t[|t| - 1] == LStripBy(t, strip)[|LStripBy(t, strip)| - 1];
    LStripBy(t, strip)
  }

  /** r is the slice of s that starts at i, with only characters of the class before it and after it. */
  predicate KeptSlice(s: string, r: string, i: nat, strip: CharClass) {
    && i + |r| <= |s| && r == s[i..i + |r|]
    && InClassBetween(s, 0, i, strip) && InClassBetween(s, i + |r|, |s|, strip)
  }

  /** What strip(chars) keeps is a slice of s with only characters of the class before it and after it. */
  lemma StripBySlice(s: string, strip: CharClass)
    ensures exists i :: KeptSlice(s, StripBy(s, strip), i, strip)
  {
    var t := RStripBy(s, strip);
    var r := LStripBy(t, strip);
    assert StripBy(s, strip) == r;
    KeptAfterRStrip(s, t, r, strip);
  }

  /** Cutting class characters off the end of s and then off the start of what is left keeps a slice starting at |t| - |r|. */
  lemma KeptAfterRStrip(s: string, t: string, r: string, strip: CharClass)
    requires |t| <= |s| && t == s[..|t|] && InClassBetween(s, |t|, |s|, strip)
    requires |r| <= |t| && r == t[|t| - |r|..] && InClassBetween(t, 0, |t| - |r|, strip)
    ensures KeptSlice(s, r, |t| - |r|, strip)
  {
    var i := |t| - |r|;
    SliceOfPrefix(s, |t|, i);
    forall k | 0 <= k < i ensures strip(s[k]) {
      assert s[k] == t[k];
    }
  }

  /** A slice of a prefix is a slice of the whole. */
  lemma SliceOfPrefix<T>(s: seq<T>, e: nat, a: nat)
    requires a <= e <= |s|
    ensures s[..e][a..] == s[a..e]
  {
  }

  /** str.strip(): a string without whitespace at either end, unchanged if it had none at all. */
  function Strip(s: string): (r: string)
    ensures r == "" || (!IsSpace(r[0]) && !IsSpace(r[|r| - 1]))
    ensures NoSpace(s) ==> r == s
  {
    StripBy(s, IsSpace)
  }

  /** What strip() keeps is a slice of s with only whitespace before it and only whitespace after it. */
  lemma StripIsSlice(s: string)
    ensures exists i :: KeptSlice(s, Strip(s), i, IsSpace)
  {
    StripBySlice(s, IsSpace);
    var i :| KeptSlice(s, StripBy(s, IsSpace), i, IsSpace);
    assert KeptSlice(s, Strip(s), i, IsSpace);
  }

  /** str.lower() on one character, for the ASCII letters. */
  function LowerChar(c: char): char {
    if 'A' <= c <= 'Z' then (c as int + 32) as char else c
  }

  /** str.lower(), folding the ASCII letters. */
  function Lower(s: string): (r: string)
    ensures |r| == |s|
  {
    seq(|s|, i requires 0 <= i < |s| => LowerChar(s[i]))
  }

  /** No ASCII capital is left after lower(), and every other character stays. */
  lemma LowerFolds(s: string)
    ensures forall i | 0 <= i < |s| :: !('A' <= Lower(s)[i] <= 'Z')
    ensures forall i | 0 <= i < |s| && !('A' <= s[i] <= 'Z') :: Lower(s)[i] == s[i]
    ensures forall i | 0 <= i < |s| && 'A' <= s[i] <= 'Z' :: Lower(s)[i] as int == s[i] as int + ('a' as int - 'A' as int)
  {
    forall i | 0 <= i < |s| && 'A' <= s[i] <= 'Z' ensures 'a' <= Lower(s)[i] <= 'z' {
      assert Lower(s)[i] == LowerChar(s[i]);
    }
  }

  /** Lowering twice is lowering once. */
  lemma LowerIdempotent(s: string)
    ensures Lower(Lower(s)) == Lower(s)
  {
    var r := Lower(s);
    LowerFolds(s);
    LowerFolds(r);
    assert forall i | 0 <= i < |r| :: Lower(r)[i] == r[i];
  }
}
