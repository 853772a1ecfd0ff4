/**
 * The pathlib rules the file utilities rely on. A path is seen as its
 * directory (`parent`, kept abstract as a string) and its final component
 * (`name`). `suffix` starts at the last '.' of the name and counts only when
 * that dot is neither the first nor the last character; `stem` is the name
 * without its suffix (the rules of CPython's pathlib.PurePath).
 */
module Paths {
  import opened Wrappers

  datatype Path = Path(dir: string, name: string)

  /** str.rfind(c): the index of the last c, or -1. */
  function RFind(s: string, c: char): (i: int)
    ensures -1 <= i < |s|
    ensures i >= 0 ==> s[i] == c
    ensures forall k | i < k < |s| :: s[k] != c
  {
    if s == "" then -1 else if s[|s| - 1] == c then |s| - 1 else RFind(s[..|s| - 1], c)
  }

  /** Where the suffix of a name starts; |name| when the suffix is empty. */
  function SuffixStart(name: string): (i: nat)
    ensures i <= |name|
  {
    var d := RFind(name, '.');
    if 0 < d < |name| - 1 then d else |name|
  }

  /** PurePath.suffix: empty, or a dot followed by at least one character and no further dot. */
  function Suffix(name: string): (r: string)
    ensures r == "" || (|r| >= 2 && r[0] == '.' && '.' !in r[1..])
    ensures |r| <= |name| && r == name[|name| - |r|..]
    ensures r != "" ==> |r| < |name|
    ensures forall d | 0 < d < |name| - 1 && name[d] == '.' && '.' !in name[d + 1..] :: r == name[d..]
  {
    var i := SuffixStart(name);
    assert i < |name| ==> forall k | 1 <= k < |name[i..]| :: name[i..][k] == name[i + k];
    name[i..]
  }

  /** PurePath.stem: the name without its suffix; empty only for an empty name. */
  function Stem(name: string): (r: string)
    ensures r + Suffix(name) == name
    ensures r == "" <==> name == ""
  {
    name[..SuffixStart(name)]
  }

  /** A suffix made of a dot and at least one more character, none of them a dot or a separator, such as ".wav". */
  predicate PlainSuffix(suffix: string) {
    |suffix| >= 2 && suffix[0] == '.' && '.' !in suffix[1..] && '/' !in suffix
  }

  /** What PurePath.with_suffix accepts as a suffix; anything else raises ValueError. */
  predicate ValidSuffix(suffix: string) {
    '/' !in suffix && (suffix == "" || (suffix[0] == '.' && suffix != "."))
  }

  /**
   * PurePath.with_suffix: the same directory, the stem followed by the new
   * suffix; None where pathlib raises ValueError (an invalid suffix, or a
   * path with an empty name).
   */
  function WithSuffix(p: Path, suffix: string): (r: Option<Path>)
    ensures r.Some? <==> ValidSuffix(suffix) && p.name != ""
    ensures r.Some? ==> r.value.dir == p.dir
  {
    if !ValidSuffix(suffix) || p.name == "" then None else Some(Path(p.dir, Stem(p.name) + suffix))
  }

  /** A nonempty name followed by a plain suffix has exactly that suffix and that stem. */
  lemma AppendPlainSuffix(base: string, suffix: string)
    requires base != "" && PlainSuffix(suffix)
    ensures Suffix(base + suffix) == suffix
    ensures Stem(base + suffix) == base
  {
    var name := base + suffix;
    var d := RFind(name, '.');
    assert name[|base|] == '.';
    assert d == |base|;
    assert name[d..] == suffix;
  }

  /** with_suffix with a plain suffix: same directory, same stem, and the new suffix. */
  lemma WithPlainSuffix(p: Path, suffix: string)
    requires p.name != "" && PlainSuffix(suffix)
    ensures WithSuffix(p, suffix).Some?
    ensures var q := WithSuffix(p, suffix).value;
      q.dir == p.dir && Stem(q.name) == Stem(p.name) && Suffix(q.name) == suffix
  {
    AppendPlainSuffix(Stem(p.name), suffix);
  }
}
