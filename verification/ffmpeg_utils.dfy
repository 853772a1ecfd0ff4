/**
 * The ffmpeg capability registry: the `ffmpeg -formats` listing parsed into
 * a dictionary from format alias to its [demuxable, muxable] pair, the JSON
 * file that keeps it, the one-slot lru_cache around loading that file, and
 * the check of an input and an output format against it.
 *
 * Running ffmpeg is not modelled: its outcome is a parameter (`FFmpegRun`).
 * The JSON encoding is not modelled either: a file holds a dictionary.
 */
module FfmpegUtils {
  import opened Wrappers
  import opened PyStr
  import opened Paths
  import opened AudioErrors
  import opened FormatLine

  /** The [demuxable, muxable] pair of a format. */
  datatype Support = Support(demuxable: bool, muxable: bool)

  type Formats = map<string, Support>

  /** AUDIO_FORMATS_SAVE_PATH, `audio_formats.json` in the working directory. */
  const AudioFormatsSavePath: Path := Path(".", "audio_formats.json")

  /**
   * What running ffmpeg gives: `ffmpeg -version` failed, `ffmpeg -formats`
   * failed, or the text `ffmpeg -formats` printed.
   */
  datatype FFmpegRun = NotInstalled | FormatsFailed | Listed(stdout: string)

  /** The pair of a match: 'D' and 'E' set the flags, a whitespace flag clears it. */
  function LineSupport(g: Groups): (s: Support)
    ensures IsFlag1(g.flag1) ==> (s.demuxable <==> !IsSpace(g.flag1))
    ensures IsFlag2(g.flag2) ==> (s.muxable <==> !IsSpace(g.flag2))
  {
    Support(g.flag1 == 'D', g.flag2 == 'E')
  }

  /**
   * The keys a matching line writes: each comma-separated piece of the name
   * token, stripped. The token holds no whitespace, so stripping changes
   * nothing and empty pieces stay.
   */
  function Aliases(names: string): (r: seq<string>)
    ensures |r| == |Split(names, ',')|
  {
    var parts := Split(names, ',');
    seq(|parts|, i requires 0 <= i < |parts| => Strip(parts[i]))
  }

  /** Stripping the pieces of a whitespace-free token changes none of them. */
  lemma AliasesOfToken(names: string)
    requires NoSpace(names)
    ensures Aliases(names) == Split(names, ',')
  {
    SplitNoSpace(names, ',');
  }

  /** The aliases a match writes, in order: none when the line does not match. */
  function MatchAliases(m: Option<Groups>): seq<string> {
    match m
    case None => []
    case Some(g) => Aliases(g.names)
  }

  /** The aliases a line of the listing writes, in order: the comma-separated pieces of its name token. */
  function LineAliases(line: string): (r: seq<string>)
    ensures MatchFormatLine(line).None? ==> r == []
    ensures MatchFormatLine(line).Some? ==> r == Split(MatchFormatLine(line).value.names, ',')
  {
    var m := MatchFormatLine(line);
    if m.Some? then AliasesOfToken(m.value.names); MatchAliases(m) else MatchAliases(m)
  }

  /** The dictionary after writing each of the aliases with the same pair. */
  function WriteAll(formats: Formats, aliases: seq<string>, s: Support): Formats {
    formats + map a | a in aliases :: s
  }

  /** One pass of the loop body: a match maps each of its aliases to its pair, over any earlier entry. */
  function AddMatch(formats: Formats, m: Option<Groups>): Formats {
    match m
    case None => formats
    case Some(g) => WriteAll(formats, MatchAliases(m), LineSupport(g))
  }

  /** How a line is matched: the groups, or None when it does not match. */
  type LineParser = string -> Option<Groups>

  /** The dictionary the loop builds from the lines, with parse deciding which lines match and with what groups. */
  function FormatsWith(parse: LineParser, lines: seq<string>): Formats {
    if lines == [] then map[] else AddMatch(FormatsWith(parse, lines[..|lines| - 1]), parse(lines[|lines| - 1]))
  }

  /** The dictionary the loop builds from the lines with the format-line pattern. */
  function FormatsOf(lines: seq<string>): Formats {
    FormatsWith(MatchFormatLine, lines)
  }

  /** The union of f over the lines. */
  function UnionOver(lines: seq<string>, f: string -> seq<string>): set<string> {
    set i, a | 0 <= i < |lines| && a in f(lines[i]) :: a
  }

  /** Every alias of every line parse matches. */
  function AliasesWith(parse: LineParser, lines: seq<string>): set<string> {
    UnionOver(lines, line => MatchAliases(parse(line)))
  }

  /**
   * _build_audio_formats_dict: fails when ffmpeg is missing or the listing
   * command fails; otherwise reads the listing line by line and, for every
   * line the pattern matches, writes each alias with that line's pair.
   */
  method BuildAudioFormatsDict(run: FFmpegRun) returns (r: Result<Formats, AudioError>)
    ensures run.NotInstalled? ==> r == Failure(FFmpegNotInstalled)
    ensures run.FormatsFailed? ==> r == Failure(FFmpegExecution)
    ensures run.Listed? ==> r == Success(FormatsOf(SplitLines(run.stdout)))
  {
    if run.NotInstalled? {
      return Failure(FFmpegNotInstalled);
    }
    if run.FormatsFailed? {
      return Failure(FFmpegExecution);
    }
    var lines := SplitLines(run.stdout);
    var formats: Formats := map[];
    var i := 0;
    while i < |lines|
      invariant 0 <= i <= |lines|
      invariant formats == FormatsOf(lines[..i])
    {
      ghost var prev := formats;
      var m := MatchFormatLine(lines[i]);
      if m.Some? {
        formats := WriteAliases(formats, m.value);
      }
      assert formats == AddMatch(prev, m);
      FormatsWithSnoc(MatchFormatLine, lines, i);
      i := i + 1;
    }
    assert lines[..i] == lines;
    return Success(formats);
  }

  /**
   * The body of the loop for a matching line: the flags give the pair, and
   * each comma-separated piece of the name token, stripped, is written with
   * it over any earlier entry.
   */
  method WriteAliases(formats: Formats, g: Groups) returns (r: Formats)
    ensures r == AddMatch(formats, Some(g))
  {
    var demuxable := g.flag1 == 'D';
    var muxable := g.flag2 == 'E';
    var names := Split(g.names, ',');
    ghost var aliases := Aliases(g.names);
    r := formats;
    var j := 0;
    while j < |names|
      invariant 0 <= j <= |names| == |aliases|
      invariant r == WriteAll(formats, aliases[..j], Support(demuxable, muxable))
    {
      WriteAlias(formats, aliases, j, Support(demuxable, muxable));
      r := r[Strip(names[j]) := Support(demuxable, muxable)];
      j := j + 1;
    }
    assert aliases[..j] == aliases;
  }

  /** One pass of the inner loop: writing the next alias extends the written prefix by one. */
  lemma WriteAlias(prev: Formats, aliases: seq<string>, j: nat, s: Support)
    requires j < |aliases|
    ensures WriteAll(prev, aliases[..j], s)[aliases[j] := s] == WriteAll(prev, aliases[..j + 1], s)
  {
    assert aliases[..j + 1] == aliases[..j] + [aliases[j]];
  }

  /** One more line through the loop. */
  lemma FormatsWithSnoc(parse: LineParser, lines: seq<string>, i: nat)
    requires i < |lines|
    ensures FormatsWith(parse, lines[..i + 1]) == AddMatch(FormatsWith(parse, lines[..i]), parse(lines[i]))
  {
    assert lines[..i + 1][..i] == lines[..i];
  }

  /** A match adds its aliases to the keys and takes nothing away. */
  lemma AddMatchKeys(formats: Formats, m: Option<Groups>)
    ensures forall a :: a in AddMatch(formats, m) <==> a in formats || a in MatchAliases(m)
  {
  }

  /** A union over a listing is the union over all its lines but the last, and f of the last. */
  lemma UnionOverSnoc(lines: seq<string>, f: string -> seq<string>)
    requires lines != []
    ensures forall a :: a in UnionOver(lines, f) <==> a in UnionOver(lines[..|lines| - 1], f) || a in f(lines[|lines| - 1])
  {
    var init := lines[..|lines| - 1];
    forall a | a in UnionOver(lines, f) ensures a in UnionOver(init, f) || a in f(lines[|lines| - 1]) {
      var i :| 0 <= i < |lines| && a in f(lines[i]);
      if i < |init| {
        assert lines[i] == init[i];
      }
    }
    forall a | a in UnionOver(init, f) ensures a in UnionOver(lines, f) {
      var i :| 0 <= i < |init| && a in f(init[i]);
      assert init[i] == lines[i];
    }
  }

  /** The keys are exactly the aliases of the matching lines. */
  lemma {:induction false} FormatsWithKeys(parse: LineParser, lines: seq<string>)
    ensures FormatsWith(parse, lines).Keys == AliasesWith(parse, lines)
  {
    if lines != [] {
      var init, last := lines[..|lines| - 1], lines[|lines| - 1];
      FormatsWithKeys(parse, init);
      AddMatchKeys(FormatsWith(parse, init), parse(last));
      UnionOverSnoc(lines, line => MatchAliases(parse(line)));
    }
  }

  /** The entry for a after one match: the match's pair when it names a, the earlier entry otherwise. */
  lemma AddMatchValue(formats: Formats, m: Option<Groups>, a: string)
    ensures a in MatchAliases(m) ==> a in AddMatch(formats, m) && AddMatch(formats, m)[a] == LineSupport(m.value)
    ensures a !in MatchAliases(m) && a in formats ==> a in AddMatch(formats, m) && AddMatch(formats, m)[a] == formats[a]
  {
  }

  /** An alias carries the pair of the last matching line that names it. */
  lemma {:induction false} FormatsWithLastWins(parse: LineParser, lines: seq<string>, i: nat, a: string)
    requires i < |lines| && a in MatchAliases(parse(lines[i]))
    requires forall j | i < j < |lines| :: a !in MatchAliases(parse(lines[j]))
    ensures a in FormatsWith(parse, lines)
    ensures FormatsWith(parse, lines)[a] == LineSupport(parse(lines[i]).value)
    decreases |lines|
  {
    var init, last := lines[..|lines| - 1], lines[|lines| - 1];
    AddMatchValue(FormatsWith(parse, init), parse(last), a);
    if i < |lines| - 1 {
      assert a !in MatchAliases(parse(last));
      forall j | i < j < |init| ensures a !in MatchAliases(parse(init[j])) {
        assert init[j] == lines[j];
      }
      assert init[i] == lines[i];
      FormatsWithLastWins(parse, init, i, a);
    }
  }

  /** A line that does not match can be dropped, anywhere in the listing, without changing the dictionary. */
  lemma {:induction false} NonMatchingLineIgnored(parse: LineParser, before: seq<string>, line: string, after: seq<string>)
    requires parse(line).None?
    ensures FormatsWith(parse, before + [line] + after) == FormatsWith(parse, before + after)
    decreases |after|
  {
    var full, kept := before + [line] + after, before + after;
    if after == [] {
      assert full[..|full| - 1] == before && full[|full| - 1] == line;
      assert kept == before;
    } else {
      var init, last := after[..|after| - 1], after[|after| - 1];
      NonMatchingLineIgnored(parse, before, line, init);
      assert full[..|full| - 1] == before + [line] + init && full[|full| - 1] == last;
      assert kept[..|kept| - 1] == before + init && kept[|kept| - 1] == last;
    }
  }

  /** The JSON files written so far: each path holds the dictionary last dumped there. */
  class JsonStore {
    var files: map<Path, Formats>

    constructor()
      ensures files == map[]
    {
      files := map[];
    }
  }

  /**
   * _save_audio_formats_dict: builds the dictionary and writes it to
   * savePath over whatever was there; when ffmpeg fails nothing is written.
   */
  method SaveAudioFormatsDict(store: JsonStore, run: FFmpegRun, savePath: Path) returns (r: Outcome<AudioError>)
    modifies store
    ensures run.Listed? ==>
      r == Pass && store.files == old(store.files)[savePath := FormatsOf(SplitLines(run.stdout))]
    ensures run.NotInstalled? ==> r == Fail(FFmpegNotInstalled) && store.files == old(store.files)
    ensures run.FormatsFailed? ==> r == Fail(FFmpegExecution) && store.files == old(store.files)
  {
    var built := BuildAudioFormatsDict(run);
    if built.Failure? {
      return Fail(built.error);
    }
    store.files := store.files[savePath := built.value];
    r := Pass;
  }

  /** The body of _load_audio_formats_dict: FileNotFoundError when no file exists at path, otherwise what the file holds. */
  function ReadFormatsFile(files: map<Path, Formats>, path: Path): (r: Result<Formats, AudioError>)
    ensures path !in files ==> r == Failure(FileNotFound(path))
    ensures path in files ==> r == Success(files[path])
  {
    if path !in files then Failure(FileNotFound(path)) else Success(files[path])
  }

  /** Reading a path gives what was last written there, and writing elsewhere does not change it. */
  lemma ReadAfterWrite(files: map<Path, Formats>, written: Path, formats: Formats, path: Path)
    ensures ReadFormatsFile(files[written := formats], path) ==
      if path == written then Success(formats) else ReadFormatsFile(files, path)
  {
  }

  /** The path a call reads: the argument, or AUDIO_FORMATS_SAVE_PATH when it is omitted. */
  function EffectivePath(arg: Option<Path>): (p: Path)
    ensures arg.None? ==> p == AudioFormatsSavePath
    ensures arg.Some? ==> p == arg.value
  {
    match arg
    case None => AudioFormatsSavePath
    case Some(p) => p
  }

  /** The one entry lru_cache(maxsize=1) keeps: the arguments of the call (None when save_path was omitted) and its result. */
  datatype CacheEntry = CacheEntry(arg: Option<Path>, formats: Formats)

  /**
   * _load_audio_formats_dict under lru_cache(maxsize=1). The cache key is
   * the argument as passed, so omitting save_path and passing the default
   * path are two different keys.
   */
  class LoadCache {
    var slot: Option<CacheEntry>

    constructor()
      ensures slot == None
    {
      slot := None;
    }

    /** The call with this argument is answered from the slot. */
    predicate Hit(arg: Option<Path>)
      reads this
    {
      slot.Some? && slot.value.arg == arg
    }

    /**
     * A hit answers from the slot without reading the file; a miss reads
     * the file and, when that succeeds, its result replaces the slot; an
     * exception is not cached.
     */
    method Load(store: JsonStore, arg: Option<Path>) returns (r: Result<Formats, AudioError>)
      modifies this
      ensures old(Hit(arg)) ==> r == Success(old(slot).value.formats) && slot == old(slot)
      ensures !old(Hit(arg)) ==> r == ReadFormatsFile(store.files, EffectivePath(arg))
      ensures !old(Hit(arg)) && r.Success? ==> slot == Some(CacheEntry(arg, r.value))
      ensures r.Failure? ==> slot == old(slot)
      ensures r.Success? ==> Hit(arg) && slot.value.formats == r.value
    {
      if slot.Some? && slot.value.arg == arg {
        return Success(slot.value.formats);
      }
      r := ReadFormatsFile(store.files, EffectivePath(arg));
      if r.Success? {
        slot := Some(CacheEntry(arg, r.value));
      }
    }
  }

  /** The input passes its two checks: it is known and can be demuxed. */
  predicate InputSupported(formats: Formats, inputFormat: string) {
    inputFormat in formats && formats[inputFormat].demuxable
  }

  /** The output passes its two checks: it is known and can be muxed. */
  predicate OutputSupported(formats: Formats, outputFormat: string) {
    outputFormat in formats && formats[outputFormat].muxable
  }

  /**
   * The checks of _validate_audio_formats, in their order: the input is
   * known, the input can be demuxed, the output is known, the output can be
   * muxed. The first that fails raises, naming its own format and path.
   */
  function CheckFormats(formats: Formats, inputFormat: string, inputPath: Path,
                        outputFormat: string, outputPath: Path): (r: Outcome<AudioError>)
    ensures r.Pass? <==> InputSupported(formats, inputFormat) && OutputSupported(formats, outputFormat)
    ensures inputFormat !in formats ==> r == Fail(AudioFormatUnsupported(inputFormat, inputPath))
    ensures inputFormat in formats && !formats[inputFormat].demuxable ==>
      r == Fail(AudioDemuxing(inputFormat, inputPath))
    ensures InputSupported(formats, inputFormat) && outputFormat !in formats ==>
      r == Fail(AudioFormatUnsupported(outputFormat, outputPath))
    ensures InputSupported(formats, inputFormat) && outputFormat in formats && !formats[outputFormat].muxable ==>
      r == Fail(AudioMuxing(outputFormat, outputPath))
  {
    if inputFormat !in formats then Fail(AudioFormatUnsupported(inputFormat, inputPath))
    else if !formats[inputFormat].demuxable then Fail(AudioDemuxing(inputFormat, inputPath))
    else if outputFormat !in formats then Fail(AudioFormatUnsupported(outputFormat, outputPath))
    else if !formats[outputFormat].muxable then Fail(AudioMuxing(outputFormat, outputPath))
    else Pass
  }

  /** When the input fails, the output is never looked at: any output gives the same outcome. */
  lemma InputCheckedFirst(formats: Formats, inputFormat: string, inputPath: Path,
                          outputFormat: string, outputPath: Path, otherFormat: string, otherPath: Path)
    requires !InputSupported(formats, inputFormat)
    ensures CheckFormats(formats, inputFormat, inputPath, outputFormat, outputPath)
         == CheckFormats(formats, inputFormat, inputPath, otherFormat, otherPath)
  {
  }

  /**
   * _validate_audio_formats: loads the dictionary through the cache with
   * save_path omitted, then runs the checks on it; a failed load raises
   * before any check.
   */
  method ValidateAudioFormats(cache: LoadCache, store: JsonStore, inputFormat: string, inputPath: Path,
                              outputFormat: string, outputPath: Path) returns (r: Outcome<AudioError>)
    modifies cache
    ensures old(cache.Hit(None)) ==>
      r == CheckFormats(old(cache.slot).value.formats, inputFormat, inputPath, outputFormat, outputPath)
    ensures !old(cache.Hit(None)) && AudioFormatsSavePath !in store.files ==>
      r == Fail(FileNotFound(AudioFormatsSavePath))
    ensures !old(cache.Hit(None)) && AudioFormatsSavePath in store.files ==>
      r == CheckFormats(store.files[AudioFormatsSavePath], inputFormat, inputPath, outputFormat, outputPath)
    ensures old(cache.Hit(None)) ==> cache.slot == old(cache.slot)
    ensures !old(cache.Hit(None)) && AudioFormatsSavePath in store.files ==>
      cache.slot == Some(CacheEntry(None, store.files[AudioFormatsSavePath]))
    ensures !old(cache.Hit(None)) && AudioFormatsSavePath !in store.files ==> cache.slot == old(cache.slot)
    ensures old(cache.Hit(None)) || AudioFormatsSavePath in store.files ==> cache.Hit(None)
  {
    var loaded := cache.Load(store, None);
    if loaded.Failure? {
      return Fail(loaded.error);
    }
    r := CheckFormats(loaded.value, inputFormat, inputPath, outputFormat, outputPath);
  }
}
