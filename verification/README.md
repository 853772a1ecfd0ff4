# TabsAI audio utilities: the ffmpeg format registry and WAV path rules

This project is a Dafny model of the two small pieces of logic in TabsAI's
`audio_processing` package that do more than hand work to ffmpeg, pydub,
torchaudio or Demucs.

- **The ffmpeg capability registry** (`ffmpeg_utils.py`):
  - `_build_audio_formats_dict` reads the listing that `ffmpeg -formats`
    prints. Every line that fits the pattern `^\s*([D\s])([E\s])\s+(\S+)\s+.*$`
    maps each comma-separated alias to a `[demuxable, muxable]` pair, and a
    later line overwrites an earlier one.
  - `_save_audio_formats_dict` writes that dictionary to a JSON file.
  - `_load_audio_formats_dict` reads it back under `lru_cache(maxsize=1)`.
  - `_validate_audio_formats` runs four checks in a fixed order and raises at
    the first that fails.
- **Path and naming rules** (`file_utils.py`):
  - `convert_to_wav` returns a `.wav` input untouched. Otherwise it writes the
    `.wav` sibling and, unless asked to keep it, deletes the input.
  - `_save_isolated_track` writes `<stem>_<track>.wav` beside the base file.

Modules:

- `Wrappers`: `Option`, `Result` and `Outcome`.
- `PyStr`: the Python `str` built-ins the code relies on: `isspace`,
  `splitlines`, `split`, `strip` and `lower`. The strip family is defined
  for any class of characters, as `strip(chars)` is, and `strip()` is its
  instance for whitespace.
- `Paths`: pathlib's `suffix`, `stem` and `with_suffix` on a path seen as
  (directory, name).
- `AudioErrors`: the exceptions raised.
- `FormatLine`: the regular expression as a backtracking search that tries
  each greedy quantifier longest first, exactly as Python's `re` does. It is
  proved sound and complete against a declarative description of a match.
  The match it picks is the one with the longest leading whitespace.
- `FfmpegUtils`: the parse loop, the JSON store, the one-slot cache and the
  validator.
- `FileUtils`: `convert_to_wav` and `_save_isolated_track` over an abstract
  set of existing files.

Two consequences of the code are worth stating outright:

- **Flags written apart do not match.** A listing line with a space between
  the flags, such as `D E  wav,wave  WAV format`, yields nothing. The second
  flag would be the space, and the `\s+` that follows then meets `E`.
  `FormatLine.ExampleSpacedFlags` proves this.
- **The cache keys on the argument as passed.** `lru_cache(maxsize=1)` does
  not memoise the load regardless of the path:
  - a call with a different path is a miss and replaces the cached entry;
  - an omitted `save_path` and an explicit default path are two different
    keys.

  `FfmpegUtils.LoadCache.Load` states this.

The dictionary the parse loop builds is defined once for any way of matching
a line (`FfmpegUtils.FormatsWith`), and `FfmpegUtils.FormatsOf` instantiates
it with the format-line pattern. The lemmas about keys, about the last line
winning and about lines that do not match are proved for every such matcher,
so they hold for the pattern in particular.

## Model

| member | source | states |
|---|---|---|
| PyStr.SplitLines | audio_processing/ffmpeg_utils.py:70 | No line it gives contains a line-break character, and it gives no lines exactly for the empty text |
| PyStr.SplitLinesJoinLines | audio_processing/ffmpeg_utils.py:70 | `splitlines` gives back any break-free lines joined with newlines, so the listing is seen line by line as printed |
| PyStr.Split | audio_processing/ffmpeg_utils.py:77 | `split(',')` always gives at least one piece, even for the empty string |
| PyStr.SplitSeparatorFree | audio_processing/ffmpeg_utils.py:77 | No piece of a split contains the separator |
| PyStr.JoinSplit | audio_processing/ffmpeg_utils.py:77 | Joining the pieces of a split with the separator gives back the original string, so no character is lost or added |
| PyStr.SplitJoin | audio_processing/ffmpeg_utils.py:77 | Splitting a join of separator-free pieces gives back exactly those pieces, empty ones included |
| PyStr.ExampleEmptyPiece | audio_processing/ffmpeg_utils.py:77 | `"a,,b"` splits into `"a"`, `""` and `"b"`: the empty alias is kept |
| PyStr.SplitNoSpace | audio_processing/ffmpeg_utils.py:77-80 | Every piece of a whitespace-free token is whitespace-free |
| PyStr.Strip | audio_processing/ffmpeg_utils.py:80 | The result has no whitespace at either end, and a whitespace-free string is left unchanged |
| PyStr.StripIsSlice | audio_processing/ffmpeg_utils.py:80 | What `strip()` keeps is a contiguous slice of the string with only whitespace before it and only whitespace after it; with the previous row this fixes the result as the string minus its leading and trailing whitespace |
| PyStr.LowerFolds | audio_processing/file_utils.py:22 | After `lower()` each ASCII capital has become its own small letter (code point plus 32), no ASCII capital is left, and every other character is kept |
| PyStr.LowerIdempotent | audio_processing/file_utils.py:22 | Lowering a lowered string changes nothing |
| Paths.Suffix | audio_processing/file_utils.py:22 | The suffix is empty, or it is a trailing dot with at least one character after it and no further dot; it is never the whole name (a leading dot starts no suffix); and whenever a dot after the first character and before the last has no dot after it, the suffix starts at that dot |
| Paths.Stem | audio_processing/file_utils.py:50 | The stem followed by the suffix is the name, and the stem is empty only for an empty name |
| Paths.WithSuffix | audio_processing/file_utils.py:25 | `with_suffix` succeeds exactly when the suffix is valid and the name is nonempty (ValueError otherwise), and it keeps the directory |
| Paths.AppendPlainSuffix | audio_processing/file_utils.py:50 | A nonempty name followed by a plain suffix such as `.wav` has exactly that suffix and the name as its stem |
| Paths.WithPlainSuffix | audio_processing/file_utils.py:25 | `with_suffix('.wav')` on a nonempty name keeps the directory and the stem, and the new suffix is `.wav` |
| FormatLine.RestMatchesIff | audio_processing/ffmpeg_utils.py:72 | The closing `.*$` matches from a position exactly when no newline stands before the last character |
| FormatLine.TryLeadFirst | audio_processing/ffmpeg_utils.py:71-74 | The search over the leading whitespace stops at its first success: every longer choice fails, and when it finds nothing every choice fails |
| FormatLine.AfterLeadSound | audio_processing/ffmpeg_utils.py:71-74 | What the search after the leading whitespace finds is a decomposition of the rest of the line: two flags, whitespace, a whitespace-free name, whitespace, and a tail with no newline before its last character |
| FormatLine.MatchSpan | audio_processing/ffmpeg_utils.py:71-74 | Soundness: a match found fits the pattern, leading whitespace included |
| FormatLine.AfterLeadComplete | audio_processing/ffmpeg_utils.py:71-74 | For a given leading whitespace, the search succeeds whenever some decomposition of the rest exists, and puts the name where that decomposition puts it |
| FormatLine.MatchFormatLine | audio_processing/ffmpeg_utils.py:71-77 | On a match, the first flag is `D` or whitespace, the second is `E` or whitespace, and the name token is nonempty and whitespace-free |
| FormatLine.MatchSpanComplete | audio_processing/ffmpeg_utils.py:71-74 | Whenever some decomposition of the line fits the pattern, the search finds a match |
| FormatLine.MatchSpanLongestLead | audio_processing/ffmpeg_utils.py:71-74 | The match found has the longest leading whitespace of all fitting decompositions, and its groups are the only ones with that lead |
| FormatLine.NoMatchIff | audio_processing/ffmpeg_utils.py:71-74 | A line yields no groups exactly when no decomposition fits the pattern |
| FormatLine.GroupsOfLongestLead | audio_processing/ffmpeg_utils.py:71-77 | The groups are the flags and the name of the fitting decomposition with the longest leading whitespace |
| FormatLine.ExampleDemuxMux | audio_processing/ffmpeg_utils.py:71-76 | `" DE mp3 MP3"` gives flags `D`, `E` and the name `mp3` |
| FormatLine.ExampleMuxOnly | audio_processing/ffmpeg_utils.py:71-76 | `"  E mp3 x"` gives a space as the first flag and `E` as the second: greedy `^\s*` leaves only one space for the flag |
| FormatLine.ExampleDeviceLine | audio_processing/ffmpeg_utils.py:71-74 | The device line `" D d alsa ALSA"` does not match |
| FormatLine.ExampleHeaderLine | audio_processing/ffmpeg_utils.py:71-74 | The header line `"File formats:"` does not match |
| FormatLine.ExampleNoDescription | audio_processing/ffmpeg_utils.py:71-74 | A name with nothing after it, `" DE mp3"`, does not match |
| FormatLine.ExampleSpacedFlags | audio_processing/ffmpeg_utils.py:71-74 | `"D E  wav,wave  WAV format"` does not match |
| FfmpegUtils.LineSupport | audio_processing/ffmpeg_utils.py:75-76 | For flags the pattern admits, demuxable holds exactly when the first flag is not whitespace (so it is `D`), and muxable exactly when the second is not (so it is `E`) |
| FfmpegUtils.Aliases | audio_processing/ffmpeg_utils.py:77-80 | There is one alias per comma-separated piece of the token |
| FfmpegUtils.AliasesOfToken | audio_processing/ffmpeg_utils.py:77-80 | For a whitespace-free token, the stripped pieces are exactly the pieces of `split(',')`: stripping changes nothing |
| FfmpegUtils.LineAliases | audio_processing/ffmpeg_utils.py:71-80 | A matching line writes exactly the comma-separated pieces of its name token, in order, and a line that does not match writes nothing |
| FfmpegUtils.BuildAudioFormatsDict | audio_processing/ffmpeg_utils.py:41-82 | A missing ffmpeg gives FFmpegNotInstalled, and a failed listing gives FFmpegExecution. Otherwise the outer loop builds the same dictionary as applying each line in turn to the empty map |
| FfmpegUtils.WriteAliases | audio_processing/ffmpeg_utils.py:75-80 | The inner loop over one matching line writes each of its aliases with the line's pair, over any earlier entry, and leaves every other entry as it was |
| FfmpegUtils.FormatsWithKeys | audio_processing/ffmpeg_utils.py:69-82 | The keys are exactly the union of the aliases of the matching lines |
| FfmpegUtils.FormatsWithLastWins | audio_processing/ffmpeg_utils.py:69-82 | An alias maps to the pair of the last matching line that names it |
| FfmpegUtils.NonMatchingLineIgnored | audio_processing/ffmpeg_utils.py:70-74 | Dropping a line that does not match, anywhere in the listing, leaves the dictionary unchanged |
| FfmpegUtils.AddMatchKeys | audio_processing/ffmpeg_utils.py:79-80 | One line adds its aliases to the keys and removes none |
| FfmpegUtils.SaveAudioFormatsDict | audio_processing/ffmpeg_utils.py:85-100 | On success the save path holds the parsed dictionary and every other file is unchanged; when ffmpeg fails, that error is raised and nothing is written |
| FfmpegUtils.ReadFormatsFile | audio_processing/ffmpeg_utils.py:124-130 | Loading raises FileNotFoundError for that path when no file exists there, and otherwise returns what the file holds |
| FfmpegUtils.EffectivePath | audio_processing/ffmpeg_utils.py:103-104 | An omitted `save_path` reads `audio_formats.json` in the working directory; a given one is read as given |
| FfmpegUtils.ReadAfterWrite | audio_processing/ffmpeg_utils.py:97-130 | Reading the file at a path (the uncached body, lines 124-130) gives the dictionary last saved there, and saving elsewhere does not change what it gives. A cached load is not refreshed by a later save: `LoadCache.Load` returns the cached entry on a hit |
| FfmpegUtils.LoadCache.Load | audio_processing/ffmpeg_utils.py:103-130 | A call with the cached argument answers from the slot and reads nothing. A miss reads the file, and on success replaces the slot with its argument and result. A raising call leaves the slot as it was |
| FfmpegUtils.CheckFormats | audio_processing/ffmpeg_utils.py:151-161 | Validation passes exactly when the input is known and demuxable and the output is known and muxable. Otherwise the first failing check decides the error: an unknown input raises FormatUnsupported and a known but undemuxable input raises Demuxing, both for the input; then an unknown output raises FormatUnsupported and an unmuxable output raises Muxing, both for the output |
| FfmpegUtils.InputCheckedFirst | audio_processing/ffmpeg_utils.py:151-155 | When the input fails, the outcome is the same whatever the output format and path |
| FfmpegUtils.ValidateAudioFormats | audio_processing/ffmpeg_utils.py:133-161 | The checks run on the cached dictionary on a hit, or on the stored file on a miss; a missing file raises FileNotFoundError before any check and leaves the cache as it was. A miss that finds the file caches it under the omitted argument, so the next validation is a hit and reads no file |
| FileUtils.ConvertedPath | audio_processing/file_utils.py:22-25 | A `.wav` input (the suffix lower-cased) is its own result. Any other nonempty name gives a different path in the same directory, with the same stem and the suffix `.wav`. Only an empty name fails. Every result is a WAV path |
| FileUtils.UpperCaseWavKept | audio_processing/file_utils.py:22-23 | The suffix test ignores case: `song.WAV` is returned as it is |
| FileUtils.ConvertedPathIdempotent | audio_processing/file_utils.py:22-25 | Converting a converted path gives that same path |
| FileUtils.ConvertToWav | audio_processing/file_utils.py:11-32 | A WAV input comes back with no file touched, whatever keep_input_file says. An empty name raises ValueError and a missing input raises FileNotFoundError, each before anything is written. Otherwise the output is added, and the input is removed unless keep_input_file is set |
| FileUtils.IsolatedTrackPath | audio_processing/file_utils.py:49-51 | The track path lies in the base path's directory, has exactly the suffix `.wav` and the stem `<base stem>_<track name>` (so its name is `<base stem>_<track name>.wav`), and is never the base path |
| FileUtils.SaveIsolatedTrack | audio_processing/file_utils.py:35-55 | Exactly the track path is added to the files, so the base file is never overwritten or removed |

## Left out

- Running ffmpeg (`_verify_ffmpeg_installation` and the `ffmpeg -formats` call, `ffmpeg_utils.py` lines 22-38 and 57-67) is process I/O. Its outcome is a parameter: not installed, listing failed, or the text printed.
- The JSON encoding (`ffmpeg_utils.py` lines 99-100 and 127-128) is not modelled: a stored file holds the dictionary itself. A file that is not valid JSON, or that holds something other than such a dictionary, is therefore not modelled.
- Decoding, exporting and `torchaudio.save` (`file_utils.py` lines 26-27 and 53) are codec work in external libraries. Only their effect on which files exist is modelled. A decode failure of an existing but unreadable file is not modelled. The waveform and sample-rate arguments of `_save_isolated_track` are dropped.
- `source_separation.py` (the Demucs model, device choice and neural inference) is not part of this model. Its `_save_isolated_track` is the same as the one in `file_utils.py` and is covered by `FileUtils.SaveIsolatedTrack`.
- `__init__.py` is not part of this model: it only re-exports names.
- The module `errors`, which defines the package's exception classes, is not part of this model. Each error is taken to carry the format and path the raising code passes.
- Operating-system failures of the writes and the delete are not modelled: `audio.export` and `input_path.unlink()` (`file_utils.py` lines 27 and 30), `torchaudio.save` (`file_utils.py` line 53) and `open(save_path, 'w')` (`ffmpeg_utils.py` line 99). Each is taken to succeed. A `PermissionError` from `unlink`, for example, would leave both the input and the converted file in place and raise, which the model does not show.
- The thread-safety of `lru_cache` is not modelled: the cache is a single-threaded slot.
- FfmpegUtils.LoadCache.Load: `lru_cache` also keys a positional `f(p)` and a keyword `f(save_path=p)` apart; the model keys both as `Some(p)`. No caller passes the path by keyword, so no call sequence in the source is affected.
- PyStr.Lower: folds ASCII letters only, not the full Unicode `str.lower`. No non-ASCII character lowers to a string equal to `.wav`, so the WAV test is exact.
- FileUtils.IsolatedTrackPath: a track name holding `/` is taken as part of the file name, whereas pathlib would read it as extra directories. The callers pass fixed names such as `guitar`.
- Paths.WithSuffix: takes a path's final component as given. pathlib's own parsing of a full path string into directory and name (separators, `..`, drive letters) is not modelled.
