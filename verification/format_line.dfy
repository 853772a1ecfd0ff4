/**
 * The pattern `^\s*([D\s])([E\s])\s+(\S+)\s+.*$` that `_build_audio_formats_dict`
 * applies with `re.match` to each line of the `ffmpeg -formats` listing.
 *
 * The search is modelled the way Python's backtracking matcher runs it: each
 * greedy quantifier first takes the longest run it can and then gives back
 * one character at a time, and the first combination that succeeds is the
 * match. `Matches` says declaratively what a successful decomposition of a
 * line is; the lemmas prove that the search finds one exactly when one
 * exists, and that it picks the one with the longest leading whitespace.
 */
module FormatLine {
  import opened Wrappers
  import opened PyStr

  /** The three groups of a match: the demuxing flag, the muxing flag and the comma-separated names. */
  datatype Groups = Groups(flag1: char, flag2: char, names: string)

  /**
   * Where a match puts its parts: `\s*` covers [0, lead), the two flags sit
   * at lead and lead + 1, the first `\s+` covers [lead + 2, nameStart),
   * `(\S+)` covers [nameStart, nameEnd), the second `\s+` covers
   * [nameEnd, restStart) and `.*$` the rest of the line.
   */
  datatype Span = Span(lead: nat, nameStart: nat, nameEnd: nat, restStart: nat)

  /** `[D\s]` */
  predicate IsFlag1(c: char) {
    c == 'D' || IsSpace(c)
  }

  /** `[E\s]` */
  predicate IsFlag2(c: char) {
    c == 'E' || IsSpace(c)
  }

  /** The character at k is whitespace. */
  predicate SpaceAt(line: string, k: nat)
    requires k < |line|
  {
    IsSpace(line[k])
  }

  /** Every character in [i, j) is whitespace (when space) or every one is not (when !space). */
  predicate AllClass(line: string, i: nat, j: nat, space: bool)
    requires i <= j <= |line|
  {
    forall k | i <= k < j :: SpaceAt(line, k) == space
  }

  /** The end of the longest run, from p, of whitespace (when space) or of non-whitespace (when !space). */
  function RunEnd(line: string, p: nat, space: bool): (e: nat)
    requires p <= |line|
    ensures p <= e <= |line|
    ensures AllClass(line, p, e, space)
    ensures e < |line| ==> SpaceAt(line, e) != space
    decreases |line| - p
  {
    if p < |line| && SpaceAt(line, p) == space then RunEnd(line, p + 1, space) else p
  }

  /** Where `.*` stops: the first newline at or after p, or the end of the line. */
  function DotRunEnd(line: string, p: nat): (e: nat)
    requires p <= |line|
    ensures p <= e <= |line|
    ensures forall k | p <= k < e :: line[k] != '\n'
    ensures e < |line| ==> line[e] == '\n'
    decreases |line| - p
  {
    if p < |line| && line[p] != '\n' then DotRunEnd(line, p + 1) else p
  }

  /** `$` without MULTILINE: at the end of the line, or just before a newline that ends it. */
  predicate AtEnd(line: string, e: nat) {
    e == |line| || (e == |line| - 1 && line[e] == '\n')
  }

  /** `.*` from p given back down to e, then `$`. */
  predicate TryDollar(line: string, p: nat, e: nat)
    requires p <= e <= |line|
    decreases e
  {
    AtEnd(line, e) || (e > p && TryDollar(line, p, e - 1))
  }

  /** `.*$` from p. */
  predicate RestMatches(line: string, p: nat)
    requires p <= |line|
  {
    TryDollar(line, p, DotRunEnd(line, p))
  }

  /** `.*$` matches from p exactly when no newline stands before the last character. */
  lemma RestMatchesIff(line: string, p: nat)
    requires p <= |line|
    ensures RestMatches(line, p) <==> forall k | p <= k < |line| - 1 :: line[k] != '\n'
  {
    var f := DotRunEnd(line, p);
    TryDollarBelow(line, p, f);
  }

  /** Giving back characters of `.*` never helps: below the greedy end, `$` holds only where it held at the end. */
  lemma {:induction false} TryDollarBelow(line: string, p: nat, e: nat)
    requires p <= e <= |line|
    requires forall k | p <= k < e :: line[k] != '\n'
    ensures TryDollar(line, p, e) <==> AtEnd(line, e)
    decreases e
  {
    if e > p {
      TryDollarBelow(line, p, e - 1);
    }
  }

  /** `.*$` still matches from any later position. */
  lemma RestMatchesLater(line: string, p: nat, q: nat)
    requires p <= q <= |line| && RestMatches(line, p)
    ensures RestMatches(line, q)
  {
    RestMatchesIff(line, p);
    RestMatchesIff(line, q);
  }

  /** The whole pattern holds with the parts placed as in sp. */
  predicate Matches(line: string, sp: Span) {
    && sp.lead <= |line|
    && AllClass(line, 0, sp.lead, true)
    && MatchesAt(line, sp)
  }

  /** Everything after `^\s*` holds with the parts placed as in sp. */
  predicate MatchesAt(line: string, sp: Span) {
    && sp.lead + 2 < sp.nameStart < sp.nameEnd < sp.restStart <= |line|
    && IsFlag1(line[sp.lead]) && IsFlag2(line[sp.lead + 1])
    && AllClass(line, sp.lead + 2, sp.nameStart, true)
    && AllClass(line, sp.nameStart, sp.nameEnd, false)
    && AllClass(line, sp.nameEnd, sp.restStart, true)
    && RestMatches(line, sp.restStart)
  }

  /** The second `\s+` from r ending at e or earlier, then `.*$`: the run is tried longest first. */
  function TrySep2(line: string, r: nat, e: nat): (s: Option<nat>)
    requires r < e <= |line| && AllClass(line, r, e, true)
    ensures s.Some? ==> r < s.value <= e && RestMatches(line, s.value)
    decreases e
  {
    if RestMatches(line, e) then Some(e)
    else if e - 1 > r then TrySep2(line, r, e - 1)
    else None
  }

  /** The second `\s+` and `.*$` from r; gives where `.*$` starts. */
  function MatchSep2(line: string, r: nat): (s: Option<nat>)
    requires r <= |line|
    ensures s.Some? ==> r < s.value <= |line| && AllClass(line, r, s.value, true) && RestMatches(line, s.value)
  {
    var e := RunEnd(line, r, true);
    if e == r then None else TrySep2(line, r, e)
  }

  /** `(\S+)` from q ending at e or earlier, then the rest: tried longest first. */
  function TryName(line: string, q: nat, e: nat): (m: Option<(nat, nat)>)
    requires q < e <= |line| && AllClass(line, q, e, false)
    ensures m.Some? ==>
      && q < m.value.0 <= e && m.value.0 < m.value.1 <= |line|
      && AllClass(line, m.value.0, m.value.1, true) && RestMatches(line, m.value.1)
    decreases e
  {
    match MatchSep2(line, e)
    case Some(s) => Some((e, s))
    case None => if e - 1 > q then TryName(line, q, e - 1) else None
  }

  /** `(\S+)` and the rest from q; gives the end of the name and where `.*$` starts. */
  function MatchName(line: string, q: nat): (m: Option<(nat, nat)>)
    requires q <= |line|
    ensures m.Some? ==>
      && q < m.value.0 < m.value.1 <= |line|
      && AllClass(line, q, m.value.0, false)
      && AllClass(line, m.value.0, m.value.1, true) && RestMatches(line, m.value.1)
  {
    var e := RunEnd(line, q, false);
    if e == q then None else TryName(line, q, e)
  }

  /** The first `\s+` from p ending at e or earlier, then the rest: tried longest first. */
  function TrySep1(line: string, p: nat, e: nat): (m: Option<(nat, nat, nat)>)
    requires p < e <= |line| && AllClass(line, p, e, true)
    ensures m.Some? ==>
      && p < m.value.0 <= e && m.value.0 < m.value.1 < m.value.2 <= |line|
      && AllClass(line, m.value.0, m.value.1, false)
      && AllClass(line, m.value.1, m.value.2, true) && RestMatches(line, m.value.2)
    decreases e
  {
    match MatchName(line, e)
    case Some((r, s)) => Some((e, r, s))
    case None => if e - 1 > p then TrySep1(line, p, e - 1) else None
  }

  /** The first `\s+` and the rest from p; gives the name's bounds and where `.*$` starts. */
  function MatchSep1(line: string, p: nat): (m: Option<(nat, nat, nat)>)
    requires p <= |line|
    ensures m.Some? ==>
      && p < m.value.0 < m.value.1 < m.value.2 <= |line|
      && AllClass(line, p, m.value.0, true)
      && AllClass(line, m.value.0, m.value.1, false)
      && AllClass(line, m.value.1, m.value.2, true) && RestMatches(line, m.value.2)
  {
    var e := RunEnd(line, p, true);
    if e == p then None else TrySep1(line, p, e)
  }

  /** Everything after `^\s*`, with the leading whitespace ending at k. */
  function MatchAfterLead(line: string, k: nat): (m: Option<Span>)
    requires k <= |line|
    ensures m.Some? ==> m.value.lead == k
  {
    if k + 1 < |line| && IsFlag1(line[k]) && IsFlag2(line[k + 1]) then
      match MatchSep1(line, k + 2)
      case Some((q, r, s)) => Some(Span(k, q, r, s))
      case None => None
    else None
  }

  /** Soundness after the leading whitespace: what the search finds is a decomposition of the rest. */
  lemma AfterLeadSound(line: string, k: nat)
    requires k <= |line| && MatchAfterLead(line, k).Some?
    ensures MatchesAt(line, MatchAfterLead(line, k).value)
  {
    var m := MatchSep1(line, k + 2).value;
    assert MatchAfterLead(line, k).value == Span(k, m.0, m.1, m.2);
  }

  /**
   * `^\s*` ending at k or earlier, then the rest: the leading whitespace is
   * tried longest first and the first success is the match.
   */
  function TryLead(line: string, k: nat): (m: Option<Span>)
    requires k <= |line|
    ensures m.Some? ==> m.value.lead <= k && MatchAfterLead(line, m.value.lead) == m
    decreases k
  {
    match MatchAfterLead(line, k)
    case Some(sp) => Some(sp)
    case None => if k == 0 then None else TryLead(line, k - 1)
  }

  /** The search over the leading whitespace stops at the first success: every longer choice fails, and when it finds nothing every choice fails. */
  lemma {:induction false} TryLeadFirst(line: string, k: nat, j: nat)
    requires j <= k <= |line|
    requires TryLead(line, k).None? || TryLead(line, k).value.lead < j
    ensures MatchAfterLead(line, j).None?
    decreases k
  {
    if MatchAfterLead(line, k).None? && j < k {
      TryLeadStep(line, k);
      TryLeadFirst(line, k - 1, j);
    }
  }

  /** Where the leading whitespace cannot end at k, the search goes on with one character less. */
  lemma TryLeadStep(line: string, k: nat)
    requires 0 < k <= |line| && MatchAfterLead(line, k).None?
    ensures TryLead(line, k) == TryLead(line, k - 1)
  {
  }

  /** re.match of the whole pattern: where its parts lie, or None when the line does not match. */
  function MatchSpan(line: string): (m: Option<Span>)
    ensures m.Some? ==> Matches(line, m.value)
  {
    var m := TryLead(line, RunEnd(line, 0, true));
    if m.Some? then AfterLeadSound(line, m.value.lead); m else m
  }

  /** The characters of a non-whitespace run form a whitespace-free string. */
  lemma RunNoSpace(line: string, i: nat, j: nat)
    requires i <= j <= |line| && AllClass(line, i, j, false)
    ensures NoSpace(line[i..j])
  {
    forall k | 0 <= k < j - i ensures !IsSpace(line[i..j][k]) {
      assert line[i..j][k] == line[i + k] && !SpaceAt(line, i + k);
    }
  }

  /** The groups of the match, or None when the line does not match. */
  function MatchFormatLine(line: string): (g: Option<Groups>)
    ensures g.Some? ==>
      && IsFlag1(g.value.flag1) && IsFlag2(g.value.flag2)
      && g.value.names != "" && NoSpace(g.value.names)
  {
    match MatchSpan(line)
    case None => None
    case Some(sp) =>
      RunNoSpace(line, sp.nameStart, sp.nameEnd);
      Some(Groups(line[sp.lead], line[sp.lead + 1], line[sp.nameStart..sp.nameEnd]))
  }

  /** A run of a class that ends where the class ends is the longest one. */
  lemma {:induction false} RunEndExact(line: string, p: nat, e: nat, space: bool)
    requires p <= e <= |line| && AllClass(line, p, e, space)
    requires e < |line| ==> SpaceAt(line, e) != space
    ensures RunEnd(line, p, space) == e
    decreases e - p
  {
    if p < e {
      RunEndExact(line, p + 1, e, space);
    }
  }

  /** The longest run reaches at least as far as any run. */
  lemma RunEndAtLeast(line: string, p: nat, e: nat, space: bool)
    requires p <= e <= |line| && AllClass(line, p, e, space)
    ensures e <= RunEnd(line, p, space)
  {
  }

  /** The greedy first choice of the second `\s+` succeeds whenever some choice does. */
  lemma Sep2Complete(line: string, r: nat, s: nat)
    requires r < s <= |line| && AllClass(line, r, s, true) && RestMatches(line, s)
    ensures MatchSep2(line, r) == Some(RunEnd(line, r, true))
  {
    var e := RunEnd(line, r, true);
    RunEndAtLeast(line, r, s, true);
    RestMatchesLater(line, s, e);
  }

  /** The greedy first choice of `(\S+)` succeeds whenever some choice does, and ends the name where it must end. */
  lemma NameComplete(line: string, q: nat, r: nat, s: nat)
    requires q < r < s <= |line|
    requires AllClass(line, q, r, false) && AllClass(line, r, s, true) && RestMatches(line, s)
    ensures MatchName(line, q).Some? && MatchName(line, q).value.0 == r
  {
    RunEndExact(line, q, r, false);
    Sep2Complete(line, r, s);
  }

  /** The greedy first choice of the first `\s+` succeeds whenever some choice does, and starts the name where it must start. */
  lemma Sep1Complete(line: string, p: nat, q: nat, r: nat, s: nat)
    requires p < q < r < s <= |line|
    requires AllClass(line, p, q, true) && AllClass(line, q, r, false)
    requires AllClass(line, r, s, true) && RestMatches(line, s)
    ensures MatchSep1(line, p).Some?
    ensures MatchSep1(line, p).value.0 == q && MatchSep1(line, p).value.1 == r
  {
    RunEndExact(line, p, q, true);
    NameComplete(line, q, r, s);
  }

  /**
   * After a given leading whitespace, the search succeeds whenever some
   * decomposition exists, and puts the name where every decomposition puts
   * it: the greedy first choice of each later quantifier already succeeds.
   */
  lemma AfterLeadComplete(line: string, sp: Span)
    requires MatchesAt(line, sp)
    ensures MatchAfterLead(line, sp.lead).Some?
    ensures MatchAfterLead(line, sp.lead).value.nameStart == sp.nameStart
    ensures MatchAfterLead(line, sp.lead).value.nameEnd == sp.nameEnd
  {
    Sep1Complete(line, sp.lead + 2, sp.nameStart, sp.nameEnd, sp.restStart);
    AfterLeadOfSep1(line, sp.lead);
  }

  /** With both flags in place, the search after the leading whitespace answers with what the first `\s+` search finds. */
  lemma AfterLeadOfSep1(line: string, k: nat)
    requires k + 1 < |line| && IsFlag1(line[k]) && IsFlag2(line[k + 1])
    requires MatchSep1(line, k + 2).Some?
    ensures MatchAfterLead(line, k).Some?
    ensures MatchAfterLead(line, k).value.nameStart == MatchSep1(line, k + 2).value.0
    ensures MatchAfterLead(line, k).value.nameEnd == MatchSep1(line, k + 2).value.1
  {
  }

  /** Completeness: a line the pattern can match is matched. */
  lemma MatchSpanComplete(line: string, sp: Span)
    requires Matches(line, sp)
    ensures MatchSpan(line).Some?
  {
    var w := RunEnd(line, 0, true);
    RunEndAtLeast(line, 0, sp.lead, true);
    AfterLeadComplete(line, sp);
    if MatchSpan(line).None? {
      TryLeadFirst(line, w, sp.lead);
    }
  }

  /**
   * The match the search returns has the longest leading whitespace of all
   * decompositions, and any decomposition with that same leading whitespace
   * has the same groups.
   */
  lemma MatchSpanLongestLead(line: string, sp: Span)
    requires Matches(line, sp)
    ensures MatchSpan(line).Some?
    ensures sp.lead <= MatchSpan(line).value.lead
    ensures sp.lead == MatchSpan(line).value.lead ==>
      sp.nameStart == MatchSpan(line).value.nameStart && sp.nameEnd == MatchSpan(line).value.nameEnd
  {
    MatchSpanComplete(line, sp);
    RunEndAtLeast(line, 0, sp.lead, true);
    AfterLeadComplete(line, sp);
    if sp.lead > MatchSpan(line).value.lead {
      TryLeadFirst(line, RunEnd(line, 0, true), sp.lead);
    }
  }

  /** A line yields no groups exactly when no decomposition fits the pattern. */
  lemma NoMatchIff(line: string)
    ensures MatchFormatLine(line).None? <==> forall sp :: !Matches(line, sp)
  {
    if MatchFormatLine(line).None? {
      forall sp ensures !Matches(line, sp) {
        if Matches(line, sp) {
          MatchSpanComplete(line, sp);
        }
      }
    }
  }

  /**
   * The groups are those of the decomposition with the longest leading
   * whitespace: a line matches with the flags and the name that such a
   * decomposition puts in place.
   */
  lemma GroupsOfLongestLead(line: string, sp: Span)
    requires Matches(line, sp)
    requires forall other | Matches(line, other) :: other.lead <= sp.lead
    ensures MatchFormatLine(line) == Some(Groups(line[sp.lead], line[sp.lead + 1], line[sp.nameStart..sp.nameEnd]))
  {
    MatchSpanLongestLead(line, sp);
    var m := MatchSpan(line).value;
    assert Matches(line, m);
    GroupsOfSpan(line, m, sp);
  }

  /** The groups are read off the span the search returns, or off any span that places the flags and the name alike. */
  lemma GroupsOfSpan(line: string, m: Span, sp: Span)
    requires MatchSpan(line) == Some(m)
    requires m.lead == sp.lead && m.nameStart == sp.nameStart && m.nameEnd == sp.nameEnd
    ensures MatchFormatLine(line) == Some(Groups(line[sp.lead], line[sp.lead + 1], line[sp.nameStart..sp.nameEnd]))
  {
  }

  /** A line with both flags set. */
  lemma ExampleDemuxMux()
    ensures MatchFormatLine(" DE mp3 MP3") == Some(Groups('D', 'E', "mp3"))
  {
    var line := " DE mp3 MP3";
    assert line[4..7] == "mp3";
    var sp := Span(1, 4, 7, 8);
    assert line[0] == ' ' && line[1] == 'D' && line[2] == 'E' && line[3] == ' ';
    assert Matches(line, sp) by {
      assert line[4] == 'm' && line[5] == 'p' && line[6] == '3' && line[7] == ' ';
      assert |line| == 11 && line[8] == 'M' && line[9] == 'P';
      RestMatchesIff(line, 8);
    }
    assert !SpaceAt(line, 1);
    forall other | Matches(line, other) ensures other.lead <= 1 {
    }
    GroupsOfLongestLead(line, sp);
  }

  /**
   * A mux-only line: the leading `\s*` first takes both spaces, the flag
   * group then fails on 'E', and giving one space back makes that space the
   * demuxing flag.
   */
  lemma ExampleMuxOnly()
    ensures MatchFormatLine("  E mp3 x") == Some(Groups(' ', 'E', "mp3"))
  {
    var line := "  E mp3 x";
    assert line[4..7] == "mp3";
    var sp := Span(1, 4, 7, 8);
    assert line[0] == ' ' && line[1] == ' ' && line[2] == 'E' && line[3] == ' ';
    assert Matches(line, sp) by {
      assert line[4] == 'm' && line[5] == 'p' && line[6] == '3' && line[7] == ' ';
      RestMatchesIff(line, 8);
    }
    assert !SpaceAt(line, 2) && !IsFlag1(line[2]);
    forall other | Matches(line, other) ensures other.lead <= 1 {
    }
    GroupsOfLongestLead(line, sp);
  }

  /** A device line: after the flags 'D' and ' ' the first `\s+` meets 'd'. */
  lemma ExampleDeviceLine()
    ensures MatchFormatLine(" D d alsa ALSA").None?
  {
    var line := " D d alsa ALSA";
    assert line[0] == ' ' && line[1] == 'D' && line[2] == ' ' && line[3] == 'd';
    RunEndExact(line, 0, 1, true);
    RunEndExact(line, 3, 3, true);
    assert MatchAfterLead(line, 1).None?;
    assert MatchAfterLead(line, 0).None?;
  }

  /** A header line: 'F' is no flag. */
  lemma ExampleHeaderLine()
    ensures MatchFormatLine("File formats:").None?
  {
    var line := "File formats:";
    assert line[0] == 'F';
    RunEndExact(line, 0, 0, true);
    assert MatchAfterLead(line, 0).None?;
  }

  /** Flags written with a space between them do not fit the pattern: the first `\s+` meets 'E'. */
  lemma ExampleSpacedFlags()
    ensures MatchFormatLine("D E  wav,wave  WAV format").None?
  {
    var line := "D E  wav,wave  WAV format";
    assert line[0] == 'D' && line[1] == ' ' && line[2] == 'E';
    RunEndExact(line, 0, 0, true);
    RunEndExact(line, 2, 2, true);
    assert MatchAfterLead(line, 0).None?;
  }

  /** A name with nothing after it: the second `\s+` finds no whitespace past the name. */
  lemma ExampleNoDescription()
    ensures MatchFormatLine(" DE mp3").None?
  {
    var line := " DE mp3";
    assert !SpaceAt(line, 4) && !SpaceAt(line, 5) && !SpaceAt(line, 6);
    forall sp ensures !Matches(line, sp) {
      // The second `\s+` would have to start inside "mp3".
      assert 4 <= sp.nameEnd < 7 ==> !SpaceAt(line, sp.nameEnd);
    }
    NoMatchIff(line);
  }
}
