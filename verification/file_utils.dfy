/**
 * Conversion to WAV and the naming of isolated tracks. The file system is an
 * abstract set of existing file paths: decoding with pydub reads the input,
 * exporting or `torchaudio.save` adds the output path, `unlink` removes the
 * input. Audio contents are not modelled.
 */
module FileUtils {
  import opened Wrappers
  import opened PyStr
  import opened Paths
  import opened AudioErrors

  const WavSuffix: string := ".wav"

  /** The test convert_to_wav starts with: the suffix, lower-cased, is ".wav". */
  predicate IsWav(p: Path) {
    Lower(Suffix(p.name)) == WavSuffix
  }

  lemma LowerWavSuffix()
    ensures Lower(WavSuffix) == WavSuffix
  {
    assert Lower(WavSuffix)[1] == 'w';
  }

  /**
   * The path convert_to_wav answers with: the input itself when it is
   * already a WAV file, otherwise its sibling with the ".wav" suffix; None
   * where with_suffix raises ValueError.
   */
  function ConvertedPath(p: Path): (r: Option<Path>)
    ensures r.None? <==> !IsWav(p) && p.name == ""
    ensures r.Some? ==> IsWav(r.value)
    ensures IsWav(p) ==> r == Some(p)
    ensures r.Some? && !IsWav(p) ==>
      && r.value.dir == p.dir
      && Stem(r.value.name) == Stem(p.name)
      && Suffix(r.value.name) == WavSuffix
      && r.value != p
  {
    if IsWav(p) then Some(p)
    else if p.name == "" then WithSuffix(p, WavSuffix)
    else
      WithPlainSuffix(p, WavSuffix);
      LowerWavSuffix();
      WithSuffix(p, WavSuffix)
  }

  /** The WAV test ignores case: "song.WAV" is kept as it is. */
  lemma UpperCaseWavKept(dir: string)
    ensures ConvertedPath(Path(dir, "song.WAV")) == Some(Path(dir, "song.WAV"))
  {
    AppendPlainSuffix("song", ".WAV");
    assert "song" + ".WAV" == "song.WAV";
    assert Lower(".WAV") == WavSuffix by {
      assert Lower(".WAV")[1] == 'w' && Lower(".WAV")[2] == 'a' && Lower(".WAV")[3] == 'v';
    }
  }

  /** Converting the result of a conversion answers with that same path. */
  lemma ConvertedPathIdempotent(p: Path)
    requires ConvertedPath(p).Some?
    ensures ConvertedPath(ConvertedPath(p).value) == ConvertedPath(p)
  {
  }

  /** The existing files. */
  class FileSystem {
    var files: set<Path>

    constructor(files: set<Path>)
      ensures this.files == files
    {
      this.files := files;
    }
  }

  /**
   * convert_to_wav: a WAV input is returned untouched; otherwise the input
   * is decoded (FileNotFoundError when it does not exist), exported to its
   * ".wav" sibling and, unless keepInputFile is set, deleted.
   */
  method ConvertToWav(fs: FileSystem, input: Path, keepInputFile: bool) returns (r: Result<Path, AudioError>)
    modifies fs
    ensures IsWav(input) ==> r == Success(input) && fs.files == old(fs.files)
    ensures !IsWav(input) && input.name == "" ==>
      r == Failure(ValueError(input)) && fs.files == old(fs.files)
    ensures !IsWav(input) && input.name != "" && input !in old(fs.files) ==>
      r == Failure(FileNotFound(input)) && fs.files == old(fs.files)
    ensures !IsWav(input) && input.name != "" && input in old(fs.files) ==>
      && ConvertedPath(input).Some?
      && r == Success(ConvertedPath(input).value)
      && fs.files == old(fs.files) + {r.value} - (if keepInputFile then {} else {input})
    ensures r.Success? ==> IsWav(r.value) && r.value in fs.files + {input}
    ensures r.Success? && r.value != input ==>
      r.value in fs.files && (input in fs.files <==> keepInputFile)
  {
    if IsWav(input) {
      return Success(input);
    }
    var output := WithSuffix(input, WavSuffix);
    if output.None? {
      return Failure(ValueError(input));
    }
    assert Some(output.value) == ConvertedPath(input);
    // AudioSegment.from_file: the input must exist.
    if input !in fs.files {
      return Failure(FileNotFound(input));
    }
    // audio.export
    fs.files := fs.files + {output.value};
    if !keepInputFile {
      // In this model the input is still present, so unlink succeeds.
      assert input in fs.files;
      fs.files := fs.files - {input};
    }
    r := Success(output.value);
  }

  /** The file `_save_isolated_track` writes: `<stem>_<track name>.wav` beside the base path, never the base path itself. */
  function IsolatedTrackPath(base: Path, trackName: string): (r: Path)
    ensures r.dir == base.dir
    ensures IsWav(r)
    ensures Suffix(r.name) == WavSuffix
    ensures Stem(r.name) == Stem(base.name) + "_" + trackName
    ensures r != base
  {
    var stem := Stem(base.name);
    var name := stem + "_" + trackName + WavSuffix;
    AppendPlainSuffix(stem + "_" + trackName, WavSuffix);
    LowerWavSuffix();
    assert name[|stem|] == '_';
    assert Suffix(base.name) != "" ==> base.name[|stem|] == '.';
    Path(base.dir, name)
  }

  /** _save_isolated_track: writes the track file (overwriting one already there) and leaves every other file as it was. */
  method SaveIsolatedTrack(fs: FileSystem, trackName: string, basePath: Path) returns (trackPath: Path)
    modifies fs
    ensures trackPath == IsolatedTrackPath(basePath, trackName)
    ensures fs.files == old(fs.files) + {trackPath}
    ensures basePath in old(fs.files) ==> basePath in fs.files
  {
    trackPath := IsolatedTrackPath(basePath, trackName);
    // torchaudio.save
    fs.files := fs.files + {trackPath};
  }
}
