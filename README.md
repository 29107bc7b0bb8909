# ttu-whispersync core, modelled in Dafny

ttu-whispersync is a browser extension that plays an audio book beside the
ttu reader. It matches each subtitle line to the book's text and
highlights the line that is playing. From a line you can jump, replay,
bookmark, edit, align with the book, restore, or export the line as
audio to an Anki note. This project models the core of that extension:

- the subtitle and chapter records and the dialog store (`general.ts`);
- the helpers for times, percentages, CSS classes, settings fields and
  aborts (`util.ts`);
- loading subtitles and audio into the stores (`files.ts`);
- cutting and joining audio with ffmpeg (`ffmpeg.ts`);
- the AnkiConnect client and the export of lines to notes (`anki.ts`);
- the reader actions a line can be given (`actions.ts`);
- cover sniffing and the cached MediaInfo instance (`mediaInfo.ts`);
- the settings stores backed by local storage (`writeable-store.ts`,
  `writeable-boolean-store.ts`).

The model is written in the source's own form:

- Pure helpers are functions with contracts.
- Loops that build a value are methods with invariants, proved against a
  function that specifies them.
- The application's stores are one object, `Stores.AppState`. Its
  `values` field is a record of every store, and an operation states its
  new state as an update of the old record. Every store it does not name
  is therefore unchanged.
- The ffmpeg toolchain and the AnkiConnect client are objects whose
  fields the methods update: their file system, their log of commands and
  their log of requests.

Times are whole milliseconds wherever the source uses a number of
seconds. Everything the code cannot see is an input of the operation that
meets it:

- the answers of ffmpeg, AnkiConnect, the database and the dialogs;
- the moment the user cancels.

Modules, one per source file, plus helpers:

| module | file |
|---|---|
| `General` | general.dfy |
| `Util` | util.dfy |
| `Files` | files.dfy |
| `Ffmpeg` | ffmpeg.dfy |
| `Anki` | anki.dfy |
| `Actions` | actions.dfy |
| `MediaInfo` | media_info.dfy |
| `WriteableStore` | writeable_store.dfy |
| `WriteableBooleanStore` | writeable_boolean_store.dfy |
| `Settings`, `Stores` | the settings record and the store values the operations use |
| `JsText`, `Ordered`, `Wrappers` | JavaScript string built-ins, insertion-ordered `Map`/`Set`, `Option`/`Result`/`Outcome` |

## Model

| member | source | states |
|---|---|---|
| General.DummySubtitle | src/lib/general.ts:113-126 | the placeholder line has id `-1`, position -1, empty texts and stamps, no adjusted times, and the given start and end as both original and effective times |
| General.DummySubtitleEndDefault | src/lib/general.ts:113 | leaving out the end gives a line that ends at 0 |
| General.DialogsStore.Add | src/lib/general.ts:97-111 | `add` appends the dialog after the open ones and keeps them in order |
| Util.Between | src/lib/util.ts:148-150 | the result lies in `[min, max]` when the bounds are ordered; a value inside is kept, one below is raised to `min`, one above is lowered to `max`; crossed bounds give `max` |
| Util.FloorDiv | src/lib/util.ts:100-104 | `Math.floor` of a quotient: the result times the divisor is at most the dividend and within one divisor of it, for either sign of the divisor |
| Util.Percentage | src/lib/util.ts:191-201 | 0 when either argument is 0; otherwise the floor of `x / y * 100`; between 0 and 100 when `0 <= x <= y` |
| Util.PercentageThreeOfFour | src/lib/util.ts:191-198 | 3 of 4 is 75 % |
| Util.PercentageMonotone | src/lib/util.ts:191-198 | with the same total, more work done never gives a lower percentage |
| Util.GetTimeParts | src/lib/util.ts:99-108 | minutes and seconds are below 60 and milliseconds below 1000; the parts add up to the time; a non-negative time has non-negative hours |
| Util.ToTimeStamp | src/lib/util.ts:110-114 | the stamp has at least 12 characters and ends with `,` and the time's milliseconds padded to three digits |
| Util.TimeStringToSeconds | src/lib/util.ts:203-210 | the result is a number exactly when each of the first three `:`-separated parts parses as an integer |
| Util.TimeStampExtendsTimeString | src/lib/util.ts:110-189 | the time stamp is the time string followed by `,` and the milliseconds padded to three digits |
| Util.SecondsFromParts | src/lib/util.ts:203-210 | the sum is a number exactly when each of the first three parts parses |
| Util.NoColonIsNaN | src/lib/util.ts:203-210 | a string without `:` has no minutes part, so it reads as NaN |
| Util.ParsePadded2 | src/lib/util.ts:113 | a part padded to two digits parses back as itself |
| Util.ThreePartsSeconds | src/lib/util.ts:203-210 | three colon-free parts joined by `:` read as `h * 3600 + m * 60 + s` |
| Util.TimeStringOfRoundTrip | src/lib/util.ts:185-210 | a time string made of any parts, negative hours included, reads back as the seconds those parts make |
| Util.TimePartsSeconds | src/lib/util.ts:99-108 | hours, minutes and seconds make up the floor of the time in seconds |
| Util.ToTimeString | src/lib/util.ts:185-210 | `timeStringToSeconds(toTimeString(t))` is the floor of `t` in seconds, however many hours it has |
| Util.WholeSecondsRoundTrip | src/lib/util.ts:185-210 | for whole seconds `n`, `timeStringToSeconds(toTimeString(n))` is `n` |
| Util.TimeStampWidth | src/lib/util.ts:110-189 | below 100 hours the time string has 8 characters and the stamp 12 |
| Util.LongHoursInFull | src/lib/util.ts:185-189 | from 100 hours on, the hours are printed in full rather than cut to two digits |
| Util.BaseLineClassForId | src/lib/util.ts:132-134 | the class of a line starts with the base class, and what follows is the id |
| Util.LineSelectorForId | src/lib/util.ts:128-130 | the selector is `span.` followed by the line's class |
| Util.FirstLineClass | src/lib/util.ts:122-123 | a found class is in the list and carries the base prefix; none is found only when no class carries it |
| Util.SubtitleIdFromClasses | src/lib/util.ts:120-126 | the id is never empty; with no line class it is `not existing` |
| Util.LineClassRoundTrip | src/lib/util.ts:120-134 | the class made for a non-empty id gives that id back when no earlier class carries the base prefix |
| Util.FirstAfterPlain | src/lib/util.ts:122-123 | classes without the base prefix in front do not change the class found |
| Util.BareBaseClassIsNoLine | src/lib/util.ts:120-126 | the bare base class names no line |
| Util.AbortController.Abort | src/lib/actions.ts:409 | aborting sets the signal's `aborted` flag |
| Util.ThrowIfAborted | src/lib/util.ts:152-162 | passes exactly when there is no signal or it is not aborted; otherwise fails with `user aborted` |
| Util.NumberFieldValue | src/lib/util.ts:6-29 | a NaN input, or one below a present minimum or above a present maximum, gives the default; any other input is kept |
| Util.TextFieldValue | src/lib/util.ts:31-47 | an empty input gives the default; any other is kept |
| MediaInfo.FindMagicKey | src/lib/mediaInfo.ts:19-20 | the index found is the first key the data starts with; none is found exactly when no key matches |
| MediaInfo.ImageMimeType | src/lib/mediaInfo.ts:14-23 | absent or empty data has no type; otherwise there is a type exactly when a key matches, and it is that key's type |
| MediaInfo.MagicKeysPrefixFree | src/lib/mediaInfo.ts:4-10 | no key is a prefix of another |
| MediaInfo.AtMostOneMagicKey | src/lib/mediaInfo.ts:4-10 | data starts with at most one key, so the order of the search does not matter |
| MediaInfo.MagicTypeOf | src/lib/mediaInfo.ts:14-23 | data starting with a key has that key's type, whatever follows |
| MediaInfo.KnownCovers | src/lib/mediaInfo.ts:4-10 | the five prefixes give jpg, png, webp, gif and gif |
| MediaInfo.MediaInfoCover | src/lib/mediaInfo.ts:92-106 | the cover is `''` exactly when no type is sniffed; otherwise it is a blob of the given data with the sniffed type |
| MediaInfo.UnknownCoverIsEmpty | src/lib/mediaInfo.ts:92-106 | data matching no key gives `''` |
| MediaInfo.MediaInfoHolder.SetInstance | src/lib/mediaInfo.ts:25-57 | an existing instance is kept unless a reset is asked for; a factory failure rejects with its message and keeps the old instance; a success closes the old instance, then stores the new one |
| WriteableStore.StoredOrDefault | src/lib/writeables/writeable-store.ts:46-52 | a stored non-empty string is mapped; a missing or empty one gives the default |
| WriteableStore.DefaultOf | src/lib/writeables/writeable-store.ts:6 | a forced default wins, even a falsy one; only an absent one falls back to the settings table |
| WriteableStore.Store.constructor | src/lib/writeables/writeable-store.ts:5-8 | a new store takes its default as above and starts with the stored value or that default |
| WriteableStore.Store.Set | src/lib/writeables/writeable-store.ts:10-14 | `set` writes the string form under the store's key, leaves every other key alone, and makes the value current |
| WriteableStore.Store.Get | src/lib/writeables/writeable-store.ts:16-24 | `get` returns the current value |
| WriteableStore.Store.Key | src/lib/writeables/writeable-store.ts:26-28 | `key` returns the key given at creation |
| WriteableStore.Store.Reset | src/lib/writeables/writeable-store.ts:30-34 | `reset` makes the default current, stores it, and returns it |
| WriteableStore.ReloadAfterSet | src/lib/writeables/writeable-store.ts:10-52 | a store created over storage another store has just written reads that value back, when its string form is not empty and the codec round-trips |
| WriteableStore.SetThenReset | src/lib/writeables/writeable-store.ts:10-34 | a write followed by a reset leaves the default both current and stored |
| WriteableBooleanStore.RadixClass | src/lib/writeables/writeable-boolean-store.ts:5 | a `0x`/`0o`/`0b` literal is a number exactly when its digits are non-empty and fit the radix, and 0 only when they are all zeros |
| WriteableBooleanStore.BoolToString | src/lib/writeables/writeable-boolean-store.ts:6 | true is written as `1` and false as `0`, never as an empty string |
| WriteableBooleanStore.BoolFromString | src/lib/writeables/writeable-boolean-store.ts:5 | `!!+x` is true exactly when the string's numeric value is neither 0 nor NaN |
| WriteableBooleanStore.BoolRoundTrip | src/lib/writeables/writeable-boolean-store.ts:5-6 | every boolean reads back as itself |
| WriteableBooleanStore.DigitStringTruth | src/lib/writeables/writeable-boolean-store.ts:5 | a digit string reads as true exactly when some digit is not 0 |
| WriteableBooleanStore.NonNumericReadsFalse | src/lib/writeables/writeable-boolean-store.ts:5 | text that cannot start a number, such as `abc` or `true`, reads as false |
| WriteableBooleanStore.BlankReadsFalse | src/lib/writeables/writeable-boolean-store.ts:5 | a blank string is the number 0, so false |
| WriteableBooleanStore.SignedDigitsTruth | src/lib/writeables/writeable-boolean-store.ts:5 | a sign in front of digits does not change their truth |
| WriteableBooleanStore.OneAndZero | src/lib/writeables/writeable-boolean-store.ts:5-6 | `1` reads as true and `0` as false |
| WriteableBooleanStore.StoredZeroReadsFalse | src/lib/writeables/writeable-boolean-store.ts:5 | a stored `0` is read as false rather than falling back to a `true` default |
| WriteableBooleanStore.BoolStoreReload | src/lib/writeables/writeable-boolean-store.ts:4-7 | what a boolean store writes, a new store over the same storage reads back |
| Files.FormatOf | src/lib/files.ts:114-169 | a name ending in `.srt` or `.txt` is read with the srt parser; failing that, one ending in `.vtt` is read as a cue track; any other name has no format |
| Files.PaddedStart | src/lib/files.ts:121 | the start is `max(0, start + padding)`: never negative and never before the padded start |
| Files.PaddedEnd | src/lib/files.ts:122-124 | with a known duration the end lies in `[0, duration]` and is the padded end when that fits; without one it is `max(0, end + padding)` |
| Files.LoadedLine | src/lib/files.ts:119-139 | a loaded line keeps the parsed times as originals, has no adjusted times, carries the trimmed text as both text and original text, records its parse position, starts at or after 0 and no earlier than the padded start, ends within the duration when one is known (at or after 0 otherwise), and keeps an `.srt` id verbatim |
| Files.StartMayFollowEnd | src/lib/files.ts:121-124 | nothing keeps the start before the end: a start padding larger than the line gives a start after the end |
| Files.Collect | src/lib/files.ts:127 | `subtitles.set(id, line)` in order keeps the map well formed, never gives more keys than lines, and the last line is stored under its own id |
| Files.CollectKeys | src/lib/files.ts:127 | the collection's keys are exactly the lines' ids |
| Files.CollectLastWins | src/lib/files.ts:127 | a repeated id keeps the line set last |
| Files.CollectDistinct | src/lib/files.ts:119-139 | with distinct ids the collection lists every line, under its id, in parse order |
| Files.CollectDistinctKeys | src/lib/files.ts:119-139 | with distinct ids every id becomes a new key, appended in turn |
| Files.PositionIdsDistinct | src/lib/files.ts:147 | ids `1`, `2`, ... given by position are distinct |
| Files.LoadedIds | src/lib/files.ts:127-128 | each loaded line gets the id its format's rule gives |
| Files.VttKeepsEveryCue | src/lib/files.ts:145-166 | a `.vtt` collection holds every cue, in order, under keys `1`, `2`, ... |
| Files.RepeatedIdOverwrites | src/lib/files.ts:127-128 | two `.srt` lines with the same id leave one entry, holding the later line |
| Files.CollectLines | src/lib/files.ts:119-139 | the index loop builds the collection that setting each line in turn gives |
| Files.SubtitlesResultCases | src/lib/files.ts:114-169 | a collection is produced exactly when the name is `.srt`, `.txt` or `.vtt` and the parse succeeds; any other name fails with `File needs to be .srt,.txt or .vtt` |
| Files.LoadSubtitles | src/lib/files.ts:114-169 | the format check comes first, then the parser's failure, then the collection built from the loaded lines |
| Files.UpdateSubtitles | src/lib/files.ts:102-179 | the player is paused; the result is that of the loading; with `updateContext` and a collection, the subtitle context is set; the `.vtt` URL (or `''`) is revoked last whatever happened; nothing else changes |
| Files.SetSubtitleContext | src/lib/files.ts:181-190 | the bookmark and merge sets are emptied, the file and collection replaced, and every line sent to the player with `replaceTrack` |
| Files.StampPartsStart | src/lib/files.ts:253-259 | the parts of a `_HH_MM_SS_mmm` key give HH hours, MM minutes, SS seconds and mmm milliseconds |
| Files.KeyStartMs | src/lib/files.ts:253-259 | the start is a number exactly when parts 1 to 4 of the key split at `_` each parse as an integer; a key with fewer than five parts gives NaN |
| Files.ShortKeyIsNaN | src/lib/files.ts:253-259 | a key with fewer than five `_`-separated parts gives a NaN start |
| Files.ChaptersOfAppend | src/lib/files.ts:251-267 | the chapters of two runs of entries are the chapters of each, in order |
| Files.ChaptersOf | src/lib/files.ts:251-266 | one chapter per extra entry, in order, each titled with the entry's label, starting at the key's start and keyed by the label followed by `_` |
| Files.ExtractChapters | src/lib/files.ts:239-268 | the nested loops push, in track order, one chapter per extra entry of each contributing track |
| Files.PushChapters | src/lib/files.ts:251-267 | the inner loop appends one chapter per extra key, in key order |
| Files.EntriesFromMenus | src/lib/files.ts:243-249 | an entry is used exactly when it belongs to a Menu track whose first key carries a time stamp |
| Files.ChaptersFromMenus | src/lib/files.ts:239-268 | a chapter is produced exactly when it is the chapter of an entry of a Menu track whose first key carries a time stamp |
| Files.FindGeneral | src/lib/files.ts:232 | the track found is the first General track; none is found exactly when there is no General track |
| Files.CoverUrl | src/lib/files.ts:271-273 | data without a recognised image type gives `''`; otherwise the cover blob's URL |
| Files.ReadMetadata | src/lib/files.ts:217-276 | the metadata step fails exactly when the analysis fails, finds no media or finds no General track, and then yields no cover and no chapters; otherwise chapters come from the chapter menus and the cover from the first General track, each only when enabled |
| Files.ReadAudioMetadata | src/lib/files.ts:217-276 | the metadata step as run, with its early exits, gives what the step function gives |
| Files.ContextValues | src/lib/files.ts:313-324 | after the context swap the audio is not loaded, the new file, cover, source and chapters are in place, a missing file clears the active line, and only then are the old cover and source revoked; nothing else changes |
| Files.ContextOverwrites | src/lib/files.ts:305-325 | setting the same context twice leaves the stores that setting it once leaves, apart from the extra revocations |
| Files.SetAudioContext | src/lib/files.ts:305-325 | the file is put in the toolchain first; if that throws, no store changes; otherwise the stores become the context values |
| Files.InitStep | src/lib/files.ts:209-215 | unless only metadata is wanted, the player is paused and the toolchain is initialised when it is the export processor; a failure is collected once, switches the processor to the recorder and leaves the toolchain unloaded |
| Files.MetadataStep | src/lib/files.ts:217 | with cover and chapters both disabled, nothing is read |
| Files.WithMetadataError | src/lib/files.ts:274-276 | a metadata failure is collected as `MediaInfo failure: <message>`; a success adds nothing |
| Files.ContextStep | src/lib/files.ts:279-296 | with only metadata wanted or no context update nothing changes; a context that cannot be set revokes the new URLs and collects its message |
| Files.AudioOutcome | src/lib/files.ts:298-302 | the call throws exactly when errors were collected, with them joined by `; ` |
| Files.PauseAndInitialize | src/lib/files.ts:209-215 | the first step on the stores and the toolchain gives what the step function gives, and leaves the toolchain's files and commands alone |
| Files.RunMetadataStep | src/lib/files.ts:217-277 | the metadata step as run gives what the step function gives, and collects its failure |
| Files.RunContextStep | src/lib/files.ts:279-296 | the last step on the stores and the toolchain gives what the step function gives |
| Files.UpdateAudio | src/lib/files.ts:192-303 | the stores, the toolchain's loaded flag and the result are those the three steps give in turn; the file is put in the toolchain only when the context is updated and the toolchain is loaded |
| Files.UpdateAudioOf | src/lib/files.ts:192-302 | asked for metadata only, no store changes and the toolchain is not loaded, and no source URL is returned; a successful result carries the cover URL and the chapters the metadata step read |
| Files.ThrowsWhenAStepFails | src/lib/files.ts:298-300 | the call throws exactly when initialisation, the metadata read or the toolchain write failed, and an initialisation failure leads the message |
| Files.StoresMatchResult | src/lib/files.ts:279-302 | after a successful call that updates the context, the stores hold what it returns, for the new file, and the old URLs are revoked after the new ones are in place |
| Files.FailedPutRevokesNewUrls | src/lib/files.ts:290-295 | when the file cannot be put in the toolchain, the call throws with that failure last, the audio stores keep their values, and the URLs just made are revoked |
| Ffmpeg.Codec | src/lib/ffmpeg.ts:14-18 | `ogg` uses `libvorbis` and `opus` uses `opus`; every other format falls back to `libmp3lame` |
| Ffmpeg.FileExtensionOf | src/lib/ffmpeg.ts:275 | the extension of a name is whatever follows its last dot |
| Ffmpeg.FileExtension | src/lib/ffmpeg.ts:275 | the extension holds no dot, and a name without a dot is its own extension |
| Ffmpeg.MergeInputs | src/lib/ffmpeg.ts:317 | after n trims the merge inputs are `-i audio_output_k.<fmt>`, for each k in order |
| Ffmpeg.TrimArgs | src/lib/ffmpeg.ts:294-311 | a trim has at least 14 arguments, reads `audio_input.<ext>` after `-i` at positions 4 and 5, and writes `audio_output_<index>.<fmt>` last |
| Ffmpeg.ConcatArgs | src/lib/ffmpeg.ts:317-342 | the join reads every trimmed piece in order, each after `-i`, then `-filter_complex`, and writes the final output last |
| Ffmpeg.TrimPlanAt | src/lib/ffmpeg.ts:289-311 | run j of the trim loop cuts line j out of the input into output j |
| Ffmpeg.EncodeArgsShape | src/lib/ffmpeg.ts:303-310 | the encoding flags begin with `-strict -2` exactly for opus and carry `-b:a <bitrate>k` exactly for export; they end with `-write_xing 0` and then the output file |
| Ffmpeg.TrimPlanWritesOutputs | src/lib/ffmpeg.ts:293-310 | trim k names `audio_output_k.<fmt>` as its output |
| Ffmpeg.TrimArgsMp3 | src/lib/ffmpeg.ts:294-311 | the full argv of an mp3 trim without export flags: start, input, duration, codec and output, in that order |
| Ffmpeg.TrimArgsOpusExport | src/lib/ffmpeg.ts:294-311 | the full argv of an opus trim for export, with the `-strict -2` and bitrate flags in place |
| Ffmpeg.OutputNameOpus | src/lib/ffmpeg.ts:293 | trim k of an opus clip writes `audio_output_k.opus` |
| Ffmpeg.EncodeOpusExport | src/lib/ffmpeg.ts:334-341 | the full encoding flags for an opus export |
| Ffmpeg.FilterForTwo | src/lib/ffmpeg.ts:319-327 | two lines are joined by the filter `[0:a][1:a]concat=n=2:v=0:a=1` |
| Ffmpeg.PlannedExecsShape | src/lib/ffmpeg.ts:277-349 | n lines plan n trims, in order, plus one concatenation exactly when n > 1; the last run writes the file read back |
| Ffmpeg.OutputNamesDistinct | src/lib/ffmpeg.ts:277-293 | trims write distinct files, none of them the concatenation's output |
| Ffmpeg.ConcatReadsEveryPiece | src/lib/ffmpeg.ts:317-332 | the concatenation takes every trimmed piece as an input |
| Ffmpeg.Cleaned | src/lib/ffmpeg.ts:228-241 | cleaning deletes exactly the non-directory `audio_output*` entries, and also the `audio_input*` ones when asked; the rest keep their contents |
| Ffmpeg.CleanedProperties | src/lib/ffmpeg.ts:228-241 | cleaning is idempotent; directories survive, and so do inputs unless asked for; no scratch output file survives |
| Ffmpeg.CleanedIgnoresOutputs | src/lib/ffmpeg.ts:363-365 | maps that differ only in scratch outputs clean to the same map, so what the runs wrote does not change what cleaning leaves |
| Ffmpeg.Toolchain.constructor | src/lib/ffmpeg.ts:10 | a new toolchain is unloaded, with no file and no run |
| Ffmpeg.Toolchain.Exec | src/lib/ffmpeg.ts:321 | a run is recorded; when it succeeds its last argument names the file it writes; when it throws no file changes |
| Ffmpeg.Toolchain.Inspect | src/lib/ffmpeg.ts:256 | a probing run is recorded and writes nothing |
| Ffmpeg.Toolchain.WriteFile | src/lib/ffmpeg.ts:221 | the named file holds the data afterwards; nothing else changes |
| Ffmpeg.Toolchain.Load | src/lib/ffmpeg.ts:185-189 | a successful load marks the toolchain loaded and touches no file |
| Ffmpeg.Toolchain.CleanFiles | src/lib/ffmpeg.ts:228-241 | nothing happens when the toolchain is not loaded; otherwise the files become the cleaned map |
| Ffmpeg.TrimPhase | src/lib/ffmpeg.ts:289-322 | the loop stops before the first trim that finds the signal aborted, or at the first trim that throws; when it runs through, every trim wrote its output |
| Ffmpeg.FailureMessage | src/lib/ffmpeg.ts:356-359 | the failure reads `Audio creation failed`, followed by ` - ` and the thrown string or the non-empty error message |
| Ffmpeg.Caught | src/lib/ffmpeg.ts:354-360 | an `AbortError` leaves no failure and no audio; anything else thrown becomes the `Audio creation failed` message |
| Ffmpeg.TrimLine | src/lib/ffmpeg.ts:290-321 | one trim is recorded and writes its output when it succeeds; a cancel during it aborts the signal; files other than scratch outputs are untouched |
| Ffmpeg.TrimTurn | src/lib/ffmpeg.ts:290-321 | one turn of the trim loop: an aborted signal stops it before the trim; otherwise the trim is issued, a throwing trim stops the loop, and a successful one leaves its output in place |
| Ffmpeg.RunTrims | src/lib/ffmpeg.ts:289-322 | the loop stops where the trim phase says; exactly the trims before that point are issued, in order; the signal is aborted exactly when the abort rules say; only scratch outputs change |
| Ffmpeg.AbortedAtEndOfStop | src/lib/ffmpeg.ts:324-355 | the signal is aborted at the end when it was aborted before the last trim issued, or when a cancel arrives during the concatenation |
| Ffmpeg.IssuedRuns | src/lib/ffmpeg.ts:289-349 | the runs issued are the trims up to the stop point, plus the concatenation only when every trim succeeded and there is more than one line |
| Ffmpeg.SettleIsRunResult | src/lib/ffmpeg.ts:354-377 | the `catch` and the checks after it turn what the runs leave into the run's result |
| Ffmpeg.Settle | src/lib/ffmpeg.ts:354-377 | an aborted signal throws; otherwise audio comes back exactly when nothing was thrown, with the buffer read; a failure is reported exactly when something other than an `AbortError` was thrown |
| Ffmpeg.RunResult | src/lib/ffmpeg.ts:284-377 | a signal aborted at the end throws; audio comes back only when every trim ran; a reported failure starts with `Audio creation failed` |
| Ffmpeg.ConcatAndRead | src/lib/ffmpeg.ts:324-353 | the concatenation is issued only for more than one line; the buffer read back is that of the final output, or what the read throws |
| Ffmpeg.Finish | src/lib/ffmpeg.ts:354-377 | a throw that is not an abort and not named `AbortError` is thrown as `Audio creation failed`; otherwise an aborted signal throws; otherwise the buffer is returned, or nothing when the `try` threw; files are cleaned only when asked and loaded |
| Ffmpeg.Runs | src/lib/ffmpeg.ts:284-353 | the runs issued are the planned ones up to the run count; what is thrown and read matches the run outcome; the signal ends aborted exactly when the abort rules say |
| Ffmpeg.RunAll | src/lib/ffmpeg.ts:284-377 | the runs issued are the planned ones up to the run count, and the result is the one the protocol gives; with clean-up on, the scratch outputs are gone at the end |
| Ffmpeg.GetAudio | src/lib/ffmpeg.ts:266-378 | the argv lists issued are the planned ones up to the run count, and the result is the one the protocol gives; with clean-up on, the scratch outputs are gone at the end; nothing but scratch outputs changes |
| Ffmpeg.TrimPhaseSkips | src/lib/ffmpeg.ts:289-322 | trims that succeed with no abort before them are passed over |
| Ffmpeg.AbortBeforeRunIssuesNothing | src/lib/ffmpeg.ts:290 | with a signal already aborted, no run is issued and the result is the abort |
| Ffmpeg.CleanRunReturnsFinalOutput | src/lib/ffmpeg.ts:277-353 | with no cancel and every run succeeding, all planned runs are issued and the buffer returned is that of the single trim for one line, of the concatenation otherwise |
| Ffmpeg.FailureIsReported | src/lib/ffmpeg.ts:354-372 | a trim that throws, with no cancel up to it, stops the runs there, and the call throws `Audio creation failed` with its message, unless the throw is named `AbortError` |
| Ffmpeg.AbortErrorGivesNoAudio | src/lib/ffmpeg.ts:354-377 | a trim throwing an `AbortError` while the signal is not aborted is swallowed, and the call resolves with no buffer |
| Ffmpeg.AbortIsNeverAFailure | src/lib/ffmpeg.ts:355 | a cancel during a trim that throws makes the result the abort, not the failure |
| Ffmpeg.CancelDuringTrimStopsAfterIt | src/lib/ffmpeg.ts:289-290 | a cancel during trim k, with lines left, stops the loop before trim k + 1 and the result is the abort |
| Ffmpeg.CancelDuringLastTrimRunsConcat | src/lib/ffmpeg.ts:324-375 | a cancel during the last trim is not checked before the concatenation: every run is issued and the result is still the abort |
| Ffmpeg.Rejections | src/lib/ffmpeg.ts:171-179 | at most one reason per request |
| Ffmpeg.Fulfilled | src/lib/ffmpeg.ts:171-179 | at most one URL per request |
| Ffmpeg.RejectionsAndFulfilled | src/lib/ffmpeg.ts:171-183 | every request is either rejected or fulfilled, and there is no rejection exactly when every request succeeded |
| Ffmpeg.Revocations | src/lib/ffmpeg.ts:203-205 | one revocation per URL, in order |
| Ffmpeg.InitializeFfmpeg | src/lib/ffmpeg.ts:156-206 | a loaded toolchain is left alone; otherwise a failure switches the export processor to the recorder and throws `Error loading FFMPEG - <message>`; in both cases every fetched URL is revoked; files and runs are untouched |
| Ffmpeg.SettleResources | src/lib/ffmpeg.ts:171-179 | the loop collects the rejection reasons and the fulfilled URLs, each in order |
| Ffmpeg.RevokeAll | src/lib/ffmpeg.ts:202-205 | every URL is revoked, in order, and nothing else changes |
| Ffmpeg.InitFailureMessage | src/lib/ffmpeg.ts:181-201 | loading fails exactly when a request is rejected or the load throws; rejections come first in the message, joined by `; ` |
| Ffmpeg.PutFiles | src/lib/ffmpeg.ts:209-242 | nothing changes when the toolchain is not loaded or its listing fails; otherwise no scratch output file is left, and a successful write leaves the file's data under `audio_input.<ext>` |
| Ffmpeg.PutResult | src/lib/ffmpeg.ts:209-242 | the call throws exactly when a loaded toolchain cannot list its directory or cannot take the file's data, with `Failed to update files in FFMPEG - <message>`, the listing's message first |
| Ffmpeg.PutAudioFile | src/lib/ffmpeg.ts:209-242 | unless loaded nothing happens; a failing listing changes no file and throws; otherwise the scratch files, inputs included, are cleaned and the file written; the result is the one `PutResult` gives |
| Ffmpeg.PutLeavesOnlyTheInput | src/lib/ffmpeg.ts:214-221 | after a successful put, the new input is the only scratch file left |
| Ffmpeg.StartThenTitleAddsChapter | src/lib/ffmpeg.ts:109-135 | a start line then a title line add exactly one chapter and leave the parser waiting |
| Ffmpeg.OtherLinesIgnored | src/lib/ffmpeg.ts:109-137 | a line without the pattern the parser waits for changes nothing |
| Ffmpeg.ParsingAppends | src/lib/ffmpeg.ts:133 | parsing only appends: the chapters already parsed stay, in order |
| Ffmpeg.Step | src/lib/ffmpeg.ts:107-141 | a line adds a chapter exactly when the parser waits for a title and the line has one; the new chapter goes at the end with the trimmed title and the last start seen, and the earlier chapters stay; a start line ends the wait for a start, a title line starts it again |
| Ffmpeg.ChaptersNeedTwoLines | src/lib/ffmpeg.ts:109-135 | each chapter takes a start line and a title line, so at most half the lines add a chapter |
| Ffmpeg.ChapterLog.constructor | src/lib/ffmpeg.ts:31-33 | the parser starts waiting, with no chapter |
| Ffmpeg.ChapterLog.HandleLog | src/lib/ffmpeg.ts:107-141 | the parser's state becomes that after one step on the line |
| Ffmpeg.ChapterLog.ResetChapterData | src/lib/ffmpeg.ts:143-150 | the parser's state becomes the reset state |
| Ffmpeg.GetChapterData | src/lib/ffmpeg.ts:243-264 | the parser is reset; an unloaded toolchain gives no chapters and issues nothing; a loaded one issues one probe of the input and gives the chapters parsed from its log; no file changes |
| Ffmpeg.FeedLines | src/lib/ffmpeg.ts:254-256 | the parser's state after the loop is that after parsing the lines in order |
| Anki.Separator | src/lib/anki.ts:236-238 | `<br/>` stands between the two values exactly when both are non-empty |
| Anki.NewFieldValue | src/lib/anki.ts:232-244 | replace gives the new value; before and after put the new value at the matching end of the existing one, with the separator between them when both are non-empty; an empty existing value gives the new one |
| Anki.BeforeMirrorsAfter | src/lib/anki.ts:235-238 | inserting a before b is inserting b after a |
| Anki.PostedBody | src/lib/anki.ts:82-91 | the posted body has version 6 and carries the key when one is set; each action of a `multi` request gets that key and nothing else in it changes |
| Anki.NonEmpty | src/lib/anki.ts:103-113 | the kept strings are exactly the non-empty ones |
| Anki.GatherErrors | src/lib/anki.ts:101-115 | the loop gathers the reply's errors into the set the reply gives |
| Anki.RequestResult | src/lib/anki.ts:93-122 | an HTTP failure throws `Request failed with status <n>`; an answer succeeds exactly when it gathers no error, and then gives its result |
| Anki.ReplyErrorsProperties | src/lib/anki.ts:101-119 | each gathered error appears once and is non-empty; they are exactly the top-level error and, for `multi`, the per-action errors; there are none exactly when all of these are empty |
| Anki.AnkiClient.constructor | src/lib/anki.ts:74-75 | the client starts with no permission, no key and no request |
| Anki.AnkiClient.SetApiKey | src/lib/anki.ts:259-261 | the key becomes the value; nothing else changes |
| Anki.PermissionOutcome | src/lib/anki.ts:125-151 | the permission holds when it was already granted, when the request fails with AnkiConnect Android's JSON error, or when the reply is a string or grants it; a failure keeps the request's message, a refusal says `Anki permission not granted` |
| Anki.RequestPermission | src/lib/anki.ts:125-151 | the outcome is the permission outcome, a pass is remembered, and the AnkiConnect Android flag is set only by its JSON error |
| Anki.ResetSettings | src/lib/anki.ts:281-286 | deck, model, sound field and sentence field become empty; no other setting changes |
| Anki.ResetAnkiSettings | src/lib/anki.ts:281-288 | the four settings are cleared and the permission forgotten; nothing else changes |
| Anki.VerifyOf | src/lib/anki.ts:160-206 | the configuration is valid exactly when URL, deck and model are set, both are listed and the fields found list the sentence and sound fields; a failing lookup clears all four settings with a `Failed to verify Anki settings` message; otherwise exactly the missing deck, model or fields are cleared |
| Anki.FailureResets | src/lib/anki.ts:197-198 | a failed verification clears exactly what the reset clears |
| Anki.ValidKeepsSettings | src/lib/anki.ts:160-206 | a valid configuration leaves the settings as they are |
| Anki.AfterPermission | src/lib/anki.ts:78-80 | a request fails with the permission's message when the permission fails, and is its own reply otherwise |
| Anki.VerifyAnkiSettings | src/lib/anki.ts:153-207 | with URL, deck or model missing, nothing is asked or changed and the result is invalid; otherwise the result, the cleared settings, the last error, the permission and the Android flag are those the verification gives; no other store changes |
| Anki.CheckSettings | src/lib/anki.ts:167-206 | the lookups give the verification's verdict, clear what it says, and record its failure |
| Anki.FailVerification | src/lib/anki.ts:197-203 | a failure resets the four settings, forgets the permission and records `Failed to verify Anki settings: <message>` |
| Anki.RefusalMessage | src/lib/anki.ts:340-347 | a refusal keeps the earlier error in front, followed by `; `, and names the reasons last |
| Anki.CardForUpdate | src/lib/anki.ts:350-378 | the card is the first of the data of the last note added today; no note gives `No card added today`, no data `Data for last added card not available`, a failing request its own message |
| Anki.StartExportOf | src/lib/anki.ts:209-230 | AnkiConnect Android, a failing lookup or no selection send nothing and remember no note; otherwise the placeholder note `1` is selected and the last selected note remembered |
| Anki.FinalizeCalls | src/lib/anki.ts:246-257 | the remembered note is selected again, and nothing is sent when there is none |
| Anki.ExportRestoresSelection | src/lib/anki.ts:209-257 | when notes were selected, the export's first request selects the placeholder and its last selects the last of them again |
| Anki.BaseName | src/lib/anki.ts:382-383 | the base name is the name up to its last dot when an extension follows it, else the whole name |
| Anki.AudioFileName | src/lib/anki.ts:391 | the audio file is named `<base>-<first id>`, `-<last id>` for several lines, then `.<format>` |
| Anki.TrimmedTexts | src/lib/anki.ts:392 | each line's text, trimmed, in order |
| Anki.SentenceContent | src/lib/anki.ts:392 | the sentence starts with the first line's trimmed text and ends with the last's; a single line gives its trimmed text |
| Anki.TagOf | src/lib/anki.ts:432-436 | a tag holds no space |
| Anki.TagListOf | src/lib/anki.ts:314-317 | a blank setting gives no tag; otherwise one tag per comma-separated entry, holding no space and no comma |
| Anki.TrimKeeps | src/lib/anki.ts:316 | trimming adds no character |
| Anki.NoteTags | src/lib/anki.ts:393-439 | each tag of a note is listed once |
| Anki.NoteTagsMembers | src/lib/anki.ts:393-439 | the tags of a note are exactly the card's, the subtitle file's and the audio file's when asked for, and the setting's |
| Anki.NoteTagMember | src/lib/anki.ts:393-439 | a given tag is a note tag exactly when it comes from the card, a file asked for, or the setting |
| Anki.DedupMember | src/lib/anki.ts:439 | removing duplicates keeps every value |
| Anki.DuplicateOptionsOf | src/lib/anki.ts:440-455 | duplicates are allowed exactly when the check is off; otherwise the scope is the deck for the deck modes and the collection else, children are checked only for the sub-deck mode, and the deck is named only for the deck mode |
| Anki.FieldValue | src/lib/anki.ts:467-513 | the sentence goes into the sentence field and `[sound:<file>]` into the sound field, after the sentence when they are the same field, each merged with the card's value by the field mode; every other field keeps the card's value |
| Anki.FieldsOf | src/lib/anki.ts:467-514 | the note has exactly the model's fields, each with its field value |
| Anki.BuildFields | src/lib/anki.ts:467-514 | the loop builds the note's fields as the field function gives them |
| Anki.WithKeyField | src/lib/anki.ts:516-522 | a blank key field refuses the note with `cannot process note because it is empty`, unless empty key fields are allowed, in which case it is filled |
| Anki.KeyField | src/lib/anki.ts:516-522 | the key field is the first configured field, and `undefined` when none is configured |
| Anki.NoteFields | src/lib/anki.ts:467-522 | the note is refused exactly when its key field is blank and that is not allowed; otherwise every model field has its value and the key field is filled when blank |
| Anki.NoteOf | src/lib/anki.ts:457-465 | an update carries the card's note id; a new note carries deck, model and duplicate options; both carry the fields, tags and audio |
| Anki.NoteReplyError | src/lib/anki.ts:524-531 | the reply fails on a request failure, or for a new note on a falsy id with `Got failure response` |
| Anki.NoteRun | src/lib/anki.ts:467-531 | at most the media file and the note are sent, the note last; the note is added for a new card and updated for an update; a group without error sent its note |
| Anki.GroupRunOf | src/lib/anki.ts:388-542 | only an empty group throws; an abort comes only from the audio and sends nothing; the player is asked to play the lines exactly when the recorder makes the audio for a sound field |
| Anki.NewNoteHoldsSentence | src/lib/anki.ts:469-510 | a new note whose sentence field is not its sound field holds exactly the group's joined lines in that field |
| Anki.SentenceFieldHoldsSentence | src/lib/anki.ts:469-522 | the sentence field of a new note holds the sentence |
| Anki.LoopEndOf | src/lib/anki.ts:387-545 | the loop ends at a group it reached, or completes |
| Anki.LoopFrom | src/lib/anki.ts:387-545 | the loop only adds requests and failures, counts progress only for groups it reaches, and a throw it adds is the user's abort or the empty-group error |
| Anki.Failures | src/lib/anki.ts:538 | no more failures than groups |
| Anki.Progress | src/lib/anki.ts:544 | the progress stays between 0 and 100 |
| Anki.ProgressGrows | src/lib/anki.ts:544 | the progress only grows and reaches 100 with the last group |
| Anki.LoopFromMeaning | src/lib/anki.ts:387-545 | from any group on, the loop's requests, failures, playback request, progress and result agree with where it ends |
| Anki.LoopBreaks | src/lib/anki.ts:532-541 | a group whose error is an abort or came with the cancellation ends the loop with a `break` |
| Anki.LoopStopsAtBreak | src/lib/anki.ts:539-541 | a `break` at a group ends the loop there with that group's requests |
| Anki.LoopPasses | src/lib/anki.ts:532-545 | any other group that runs leaves the loop in the state expected before the next group |
| Anki.EndSkipsGroup | src/lib/anki.ts:387-545 | where the loop ends does not change by passing a group that does not stop it |
| Anki.LoopSkipsGroup | src/lib/anki.ts:387-545 | the loop goes on at the next group |
| Anki.PrefixStep | src/lib/anki.ts:387-545 | one more group adds its requests, its failure and its playback request |
| Anki.RunGroups | src/lib/anki.ts:387-545 | the loop's result, failure count, requests, playback request, progress and abort flag are those where the loop ends; nothing else changes |
| Anki.GroupStep | src/lib/anki.ts:387-545 | one turn either stops the loop with its result or moves to the next group with the progress of one more group |
| Anki.GroupBody | src/lib/anki.ts:390-544 | a group breaks exactly when its error is an abort or came with the cancellation; otherwise its failure is counted and the progress set |
| Anki.RecordGroup | src/lib/anki.ts:401-531 | a group's requests are sent, its playback request published, and a cancel during it aborts the controller |
| Anki.UninterruptedExportCountsAll | src/lib/anki.ts:387-545 | with no cancel and no abort, the loop runs through every group |
| Anki.BeginExport | src/lib/anki.ts:291-305 | the player pauses unless ffmpeg cuts the audio, the last error and the progress are cleared, and a fresh controller is published |
| Anki.GateExport | src/lib/anki.ts:340-348 | the export goes on exactly when the configuration is valid and the update is not blocked; otherwise the refusal message is recorded |
| Anki.FetchCard | src/lib/anki.ts:350-378 | an update goes on exactly when the card is found; otherwise `Failed to get card for update: <message>` is recorded |
| Anki.ExportToAnki | src/lib/anki.ts:290-553 | without a subtitle file nothing happens; otherwise a fresh controller is published; nothing is sent to Anki unless URL, deck and model are set and the configuration verifies |
| Anki.PrepareExport | src/lib/anki.ts:324-379 | the export goes on only with a verified configuration, and the fields it uses are those the verification found; a blocked update never goes on, and a card is fetched exactly for an update |
| Anki.RunsOf | src/lib/anki.ts:387-545 | one group body per group, in order |
| Anki.SendExport | src/lib/anki.ts:381-553 | the requests sent are those of the start, of every group the loop reached and, unless the loop threw, the one restoring the selection; failed groups are reported as `<n> Export(s) failed` |
| Actions.Without | src/lib/actions.ts:47 | deleting from a set never makes it larger |
| Actions.WithoutMembers | src/lib/actions.ts:47 | after deleting x the set holds exactly its other members |
| Actions.WithoutDistinct | src/lib/actions.ts:47 | deleting keeps a set free of duplicates |
| Actions.WithoutAbsent | src/lib/actions.ts:46-47 | deleting a missing id changes nothing |
| Actions.ToggledMembers | src/lib/actions.ts:43-53 | toggling flips whether the id is in the set, leaves every other id as it was, and keeps the set free of duplicates |
| Actions.ToggleTwice | src/lib/actions.ts:43-53 | toggling twice gives back the same members, and the same order when the id was absent |
| Actions.Toggled | src/lib/actions.ts:43-53 | the id is in the result exactly when it was not in the set, and every other id is in it exactly when it was before |
| Actions.ExecuteFilterAction | src/lib/actions.ts:43-53 | the id is toggled in the chosen set, bookmarks or merge, and no other store changes |
| Actions.PersistSubtitles | src/lib/actions.ts:414-432 | a failed write throws `Failed to persist subtitles - <message>`; the stores become the persisted values |
| Actions.PersistedMeaning | src/lib/actions.ts:414-432 | the data is stored and a sync requested exactly when the write succeeds; the extension data is set last whatever happens; the collection and the last error are untouched |
| Actions.SubtitlesForExport | src/lib/actions.ts:234-246 | merging gives one group holding every line; otherwise one group per line, in order; the groups flattened are the lines |
| Actions.RestoreStep | src/lib/actions.ts:181-213 | one turn keeps the collection well formed |
| Actions.RestoreAll | src/lib/actions.ts:181-213 | the loop keeps the collection well formed |
| Actions.RestoreTurn | src/lib/actions.ts:181-213 | one turn on the local collection gives what the turn function gives |
| Actions.ExecuteRestoreSubtitle | src/lib/actions.ts:172-232 | the stores and the outcome are those the restore function gives |
| Actions.RestoreEffect | src/lib/actions.ts:172-232 | the collection stays well formed; the only error passed on is the one from reading the name of a missing subtitle file before persisting; with persisting switched off nothing is persisted and the restore passes |
| Actions.FinishRestore | src/lib/actions.ts:215-231 | what follows the loop gives what the finishing function gives |
| Actions.PersistCaught | src/lib/actions.ts:226-231 | persisting the collection under the current file's name, its failure caught into the last error, gives what the persist function gives |
| Actions.RestoredLine | src/lib/actions.ts:183-203 | a restored line has the times and time stamps that loading its original times with the current paddings gives |
| Actions.RestoredClean | src/lib/actions.ts:192-203 | a restored line keeps its id, original text and index, shows its original text, has no adjusted time, and has no text or time difference left |
| Actions.RestoreAllChanged | src/lib/actions.ts:181-213 | the loop reports a change exactly when some targeted line differs in text or time |
| Actions.RestoreAllTimeChanged | src/lib/actions.ts:209-211 | the loop lists exactly the lines whose times differ, restored, in order |
| Actions.RestoreStepLists | src/lib/actions.ts:209-211 | one turn lists the line, restored, exactly when its times differ |
| Actions.RestoreAllUntargeted | src/lib/actions.ts:181-213 | the loop adds no line it was not given and leaves every line it was not given as it was |
| Actions.PersistOrErrorKeeps | src/lib/actions.ts:414-432 | persisting touches neither the collection nor the change events, and only appends to the event log |
| Actions.PersistOrErrorLines | src/lib/actions.ts:414-424 | persisting touches neither the collection nor the change events |
| Actions.PersistOrErrorEvents | src/lib/actions.ts:426-430 | persisting only appends to the event log |
| Actions.RestoreFinishFacts | src/lib/actions.ts:215-231 | the collection is the loop's; without a change nothing else differs; with one, the collection store is set first and one change event lists the time-changed lines; the database is written only with the persist setting on |
| Actions.RestoreWithoutChange | src/lib/actions.ts:215-217 | a restore with no changed line sets no store and persists nothing |
| Actions.RestoreWithChange | src/lib/actions.ts:219-231 | a restore with a change sets the collection store first and emits one change event listing exactly the time-changed lines; it persists only with the persist setting on |
| Actions.RestoreKeepsOthers | src/lib/actions.ts:181-213 | a line the restore was not given keeps its value |
| Actions.LineSpans | src/lib/actions.ts:129 | the spans found belong to the book and carry the line's id |
| Actions.ExtractLineText | src/lib/actions.ts:131-140 | the inner loop builds the line's text |
| Actions.LineTextAppend | src/lib/actions.ts:133-140 | the text of two runs of spans is the text of each, concatenated |
| Actions.LineTextSpan | src/lib/actions.ts:135-139 | a span inside `rp` or `rt` adds nothing; any other adds its trimmed text in its place |
| Actions.LineText | src/lib/actions.ts:131-140 | spans that all sit in ignored elements (`rp`, `rt`) give the empty text |
| Actions.AlignStep | src/lib/actions.ts:128-148 | one turn keeps the collection well formed |
| Actions.AlignAll | src/lib/actions.ts:127-149 | the loop keeps the collection well formed |
| Actions.AlignTurn | src/lib/actions.ts:128-148 | one turn on the local collection gives what the turn function gives |
| Actions.ExecuteAlignSubtitle | src/lib/actions.ts:116-170 | the stores become those the align function gives |
| Actions.AlignEffect | src/lib/actions.ts:116-170 | the collection stays well formed, and the persisted data changes only when both persist switches are on |
| Actions.AlignStopped | src/lib/actions.ts:128 | once the loop meets a missing line, the later lines change nothing |
| Actions.AlignFinishing | src/lib/actions.ts:151-169 | what follows the loop gives what the finishing function gives |
| Actions.AlignStepLines | src/lib/actions.ts:142-148 | one turn keeps the keys, sets a line's text to the book's text only when that differs from the original, and changes nothing when it reports no change |
| Actions.AlignAllLines | src/lib/actions.ts:127-149 | the loop keeps every key in its place and changes only the text of each line, to the book's text when that differs from the original |
| Actions.AlignFinishFacts | src/lib/actions.ts:151-169 | the collection is the loop's; with no missing line and no change nothing else differs; the database is written only after a change and with both persist switches on |
| Actions.AlignWithoutChange | src/lib/actions.ts:118-153 | aligning with no missing and no changed line only clears the last error |
| Actions.AlignPersistsOnlyWhenAsked | src/lib/actions.ts:151-166 | aligning persists only after a change and only when both persist switches are on |
| Actions.AlignOnlyText | src/lib/actions.ts:116-170 | aligning keeps the collection's keys and every field of every line but its text |
| Actions.Replaced | src/lib/actions.ts:109 | an index inside the list replaces that line only; the index just past the end appends |
| Actions.ExecuteEditSubtitle | src/lib/actions.ts:55-114 | the stores and the outcome are those the edit function gives |
| Actions.EditEffect | src/lib/actions.ts:55-114 | playback ends paused and the collection stays well formed; the only error passed on is the one from reading the name of a missing subtitle file before persisting; with persisting switched off nothing is persisted and the edit passes |
| Actions.EditRejected | src/lib/actions.ts:56-97 | an error or a cancelled dialog only pauses playback, and records the error |
| Actions.EditSaved | src/lib/actions.ts:99-101 | a saved edit pauses playback, stores the line under the edited line's id, leaves every other line as it was, and emits one change event holding the new line |
| Actions.EditPersistStep | src/lib/actions.ts:99-107 | with the persist setting on, a saved edit still sets the line and emits its change event before writing |
| Actions.EditPersists | src/lib/actions.ts:103-113 | the database is written only for a saved line with the persist setting on, with the lines and the new one at its own index |
| Actions.ExecuteRoute | src/lib/actions.ts:342-411 | the branch taken does what that branch does; a cancel aborts the controller |
| Actions.RouteOf | src/lib/actions.ts:330-411 | every branch but the ignored one has target lines; edit takes the first line, the filter toggles take its id, and align, restore and export take all of them; while recording, no play, pause or navigation branch is taken |
| Actions.ExportAction | src/lib/actions.ts:398-405 | whatever the export's outcome, the progress is reset and the controller dropped |
| Actions.ExecuteAction | src/lib/actions.ts:319-412 | the action takes the branch the routing picks and does what that branch does; a cancel aborts the existing controller |
| Actions.CancelNeedsController | src/lib/actions.ts:408-410 | only an existing controller not yet aborted is cancelled |
| Actions.IgnoredExactly | src/lib/actions.ts:330-340 | nothing happens for `NONE`, a missing or empty target, or a raised skip-key flag not ignored, and in no other case does the call return before its branches |
| Actions.ExportInFlightRefuses | src/lib/actions.ts:366-407 | while an export runs, editing, aligning, restoring, exporting and opening Anki are refused |
| Actions.CancelExactly | src/lib/actions.ts:406-411 | `CANCEL_EXPORT` aborts exactly an existing controller whose signal is not yet aborted |
| Actions.NavigationClamped | src/lib/actions.ts:381-385 | the previous line is never before the first and the next never past the last; inside the collection both move by one unless at an end |
| Actions.NavigationTarget | src/lib/actions.ts:376-392 | a navigation from a line of the collection restarts exactly its neighbour and keeps the pause state |
| Actions.UnclaimedOpensAnki | src/lib/actions.ts:406-407 | with no export running, the seek actions, opening the last card and cancelling open Anki |
| Actions.RecordingOpensAnki | src/lib/actions.ts:342-407 | while recording, the playback and navigation actions fall through and, with no export running, open Anki |
| Actions.UnavailableOpensAnki | src/lib/actions.ts:366-407 | aligning before the book is matched, and exporting when Anki cannot be exported to, open Anki when no export runs |

## Left out

- Network and storage I/O are not modelled. This covers the `fetch` of `request` and of the permission request, the IndexedDB write of `persistSubtitles`, and the clipboard write of the copy action. Each one's answer or failure is an input; the copy action changes no store.
- The record `persistSubtitles` writes carries a title and `Date.now()`; only the subtitle data the stores keep is modelled, because clocks are outside the model.
- File and browser plumbing is not modelled: FileReader, loading `.vtt` cues through a DOM `<track>`, file pickers and permissions, `downloadFile`, `interactWithSandbox` and `parseHTML`. The subtitle parser's output is an input list of records, and the book is a list of spans (line id, parent tag, text).
- Foreign libraries are not modelled: `srt-parser-2`, the MediaInfo analysis, the recorder and lamejs, and base64 through `Buffer`. Their results are inputs, and the base64 text of a clip is an opaque string. The JSON deep copies are plain value copies.
- ffmpeg's wasm runs are a recorded argv list: a run writes the file named by its last argument or throws, as an input says. `toBlobURL`/`getUrl`, the Tampermonkey cache and the three resource URLs are inputs to the initialisation. The console logging of ffmpeg's log events is left out.
- Floating point is left out. Times are whole milliseconds: the JavaScript rounding inside `getTimeParts` and `parseFloat` of ffmpeg's chapter times are not modelled, and `${seconds}` is rendered exactly. `caluclatePercentage` is modelled in its default round-down mode only, on exact rationals, so it can differ from the double result by one: `caluclatePercentage(29, 100)` is `Math.floor(0.29 * 100)`, which is 28 in JavaScript, while Util.Percentage and Anki.Progress give 29. The boolean store's `!!+value` is also read exactly: `'1e-400'` underflows to 0 in JavaScript and reads as false, while the model reads any non-zero number as true. A number field's parsed value is a `real` given as input.
- Ffmpeg.Finish: the directory listing of `cleanFiles` is taken to succeed when `getAudio` cleans up (and when `exportToAnki` cleans up at its end); a failing listing there would make the call reject with the listing's own error, which the model does not give. Only `putAudioFileInFFMPEG` takes a listing failure as an input, in Ffmpeg.PutAudioFile.
- Concurrency is left out. The abort is a flag. A cancel is an input naming the run or group during which it arrives, and it is seen at the checks the code makes. The 100 ms wait before aligning and the ordering of awaits are not modelled.
- Svelte is left out: the dialog components of the edit action and the regions of the advanced editor. The dialog's answer is an input. `dialogs$.add` is modelled as the dialogs store's append.
- The skip-key DOM listeners (`skipKeys`, `clickOutside`) are not modelled; the skip-key flag is a store value.
- An action string outside the `Action` enum is not modelled; such a string reaches the last branches of `executeAction` like an unclaimed action.
- `openGUIForNote` is not part of this model. The fall-through branch of `executeAction` routes to it and changes no store.
- The third argument that `executeAction` passes to `exportToAnki` is dropped, because `exportToAnki` takes two parameters.
- The `!` assertions on a missing subtitle file or line are modelled as the `TypeError` messages JavaScript gives. They are not given as a plain failure of their own.
- Restore assumes that the lines it is given are the collection's own objects, as the UI passes them. Deleting their adjusted times therefore clears the entry of the same id.
- An edit whose line index lies past the end of the list, or a navigation from a line outside the collection, is not modelled beyond a JavaScript array write at the end or a clamped index.
- The lower-casing of a span's parent tag name is not modelled; the tag arrives already lower-cased.
- CSS selector escaping of line ids is not modelled.
- The Anki note's model field names are assumed distinct, as AnkiConnect lists them.
- Anki.ExportToAnki: states the guards only. With no subtitle file nothing happens, and nothing is sent unless the configuration verifies. The requests it sends, the loop's outcome and the summary message are stated by Anki.SendExport and the loop lemmas, not repeated here. The `findNotes` and `notesInfo` requests of an update are answers given as inputs, not recorded among the client's requests.
- Anki.TagOf: states only that a tag holds no space; the tag is the name trimmed with spaces turned into underscores.
- Anki.LoopEndOf: states only that the loop ends at a group it reached; Anki.LoopFromMeaning states what happens there.
- Actions.RestoreStep, Actions.RestoreAll, Actions.AlignStep, Actions.AlignAll: state only that the collection stays well formed; the restore and align lemmas state what they change.
- Nothing keeps a loaded line's start before its end, in the code or in the model (Files.StartMayFollowEnd shows one such line).
- The align action compares the book's text with each line's original text, not with its current text; the model does the same.
