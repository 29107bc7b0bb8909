/** The ffmpeg side of the extension (`src/lib/ffmpeg.ts`): the argument
    lists given to the wasm toolchain, the run protocol of `getAudio` with
    its abort and clean-up rules, scratch-file clean-up, one-time loading,
    and the parser that reads chapters out of ffmpeg's log.
    The toolchain is a file map plus the list of argv it was asked to run;
    what a run writes, and whether it throws, are inputs. */
module Ffmpeg {
  import opened Wrappers
  import opened JsText
  import opened Util
  import opened General
  import opened Settings
  import opened Stores
  import Ordered

  type Bytes = seq<bv8>

  // ---------------------------------------------------------------------
  // Argument lists
  // ---------------------------------------------------------------------

  /** `libMap.get(format) || 'libmp3lame'`. */
  function Codec(format: string): (r: string)
    ensures r in {"libvorbis", "opus", "libmp3lame"}
    ensures r == "libvorbis" <==> format == "ogg"
    ensures r == "opus" <==> format == "opus"
  {
    if format == "ogg" then "libvorbis"
    else if format == "opus" then "opus"
    else "libmp3lame"
  }

  /** `audioFile.name.split('.').pop()`: what follows the last dot, or the
      whole name when it has no dot. */
  function FileExtension(fileName: string): (r: string)
    ensures '.' !in r
    ensures '.' !in fileName ==> r == fileName
  {
    var parts := Split(fileName, '.');
    assert '.' !in fileName ==> parts == [fileName] by {
      if '.' !in fileName {
        SplitNoSep(fileName, '.');
      }
    }
    parts[|parts| - 1]
  }

  lemma FileExtensionOf(base: string, ext: string)
    requires '.' !in ext
    ensures FileExtension(base + "." + ext) == ext
  {
    SplitLast(base, '.', ext);
  }

  function InputName(ext: string): string {
    "audio_input." + ext
  }

  /** The file trim `index` writes. */
  function OutputName(index: nat, format: string): string {
    "audio_output_" + NatToString(index) + "." + format
  }

  /** The file `getAudio` reads back: the single trim's output for one
      line, the concatenation's otherwise. */
  function FinalOutput(n: nat, format: string): string {
    if n == 1 then OutputName(0, format) else "audio_output." + format
  }

  /** The encoding flags every run ends with, then the output file. */
  function EncodeArgs(format: string, bitrate: int, forExport: bool, output: string): seq<string> {
    (if format == "opus" then ["-strict", "-2"] else [])
    + ["-vn", "-acodec", Codec(format)]
    + (if forExport then ["-b:a", IntToString(bitrate) + "k"] else [])
    + ["-write_xing", "0", output]
  }

  /** The argv that cuts line `index` out of the input. */
  function TrimArgs(line: Subtitle, index: nat, ext: string, format: string, bitrate: int,
                    forExport: bool): (r: seq<string>)
    ensures |r| >= 14
    ensures r[4] == "-i" && r[5] == InputName(ext)
    ensures r[|r| - 1] == OutputName(index, format)
  {
    var head := ["-hide_banner", "-y", "-ss", SecondsText(line.startMs), "-i", InputName(ext),
                 "-t", SecondsText(line.endMs - line.startMs)];
    var tail := EncodeArgs(format, bitrate, forExport, OutputName(index, format));
    EncodeArgsShape(format, bitrate, forExport, OutputName(index, format));
    assert (head + tail)[4] == head[4] && (head + tail)[5] == head[5];
    assert (head + tail)[|head + tail| - 1] == tail[|tail| - 1];
    head + tail
  }

  /** `mergeInputs` after `n` trims: `-i audio_output_k.<fmt>` for each k. */
  function MergeInputs(n: nat, format: string): (r: seq<string>)
    ensures |r| == 2 * n
    ensures forall k :: 0 <= k < n ==> r[2 * k] == "-i" && r[2 * k + 1] == OutputName(k, format)
  {
    if n == 0 then [] else MergeInputs(n - 1, format) + ["-i", OutputName(n - 1, format)]
  }

  /** `filterInput` after `n` trims: `[0:a][1:a]…`. */
  function FilterInputs(n: nat): string {
    if n == 0 then "" else FilterInputs(n - 1) + "[" + NatToString(n - 1) + ":a]"
  }

  /** The argv that joins the `n` trimmed pieces. */
  function ConcatArgs(n: nat, format: string, bitrate: int, forExport: bool): (r: seq<string>)
    ensures |r| >= 2 * n + 9
    ensures forall k :: 0 <= k < n ==> r[2 * k + 2] == "-i" && r[2 * k + 3] == OutputName(k, format)
    ensures r[2 * n + 2] == "-filter_complex"
    ensures r[|r| - 1] == FinalOutput(n, format)
  {
    var pre, inputs := ["-hide_banner", "-y"], MergeInputs(n, format);
    var filter := ["-filter_complex", FilterInputs(n) + "concat=n=" + NatToString(n) + ":v=0:a=1"];
    var tail := EncodeArgs(format, bitrate, forExport, FinalOutput(n, format));
    EncodeArgsShape(format, bitrate, forExport, FinalOutput(n, format));
    var r := pre + inputs + filter + tail;
    Layout(pre, inputs, filter, tail);
    assert forall k :: 0 <= k < n ==> r[2 * k + 2] == "-i" && r[2 * k + 3] == OutputName(k, format) by {
      forall k | 0 <= k < n ensures r[2 * k + 2] == "-i" && r[2 * k + 3] == OutputName(k, format) {
        assert r[2 * k + 2] == inputs[2 * k] && r[2 * k + 3] == inputs[2 * k + 1];
      }
    }
    r
  }

  /** Where the parts of `pre + mid + sep + tail` land, for a two-element
      `pre` and `sep`. */
  lemma Layout<T>(pre: seq<T>, mid: seq<T>, sep: seq<T>, tail: seq<T>)
    requires |pre| == 2 && |sep| == 2 && tail != []
    ensures var r := pre + mid + sep + tail;
      && |r| == |mid| + 4 + |tail|
      && (forall j :: 0 <= j < |mid| ==> r[j + 2] == mid[j])
      && r[|mid| + 2] == sep[0]
      && r[|r| - 1] == tail[|tail| - 1]
  {
  }

  /** Every run `getAudio` asks for when nothing stops it: one trim per
      line, in order, and a concatenation when there is more than one line. */
  function PlannedExecs(lines: seq<Subtitle>, ext: string, format: string, bitrate: int,
                        forExport: bool): seq<seq<string>> {
    TrimPlan(lines, ext, format, bitrate, forExport)
    + (if |lines| > 1 then [ConcatArgs(|lines|, format, bitrate, forExport)] else [])
  }

  /** One trim per line, in order. */
  function TrimPlan(lines: seq<Subtitle>, ext: string, format: string, bitrate: int,
                    forExport: bool): (r: seq<seq<string>>)
    ensures |r| == |lines|
  {
    seq(|lines|, j requires 0 <= j < |lines| => TrimArgs(lines[j], j, ext, format, bitrate, forExport))
  }

  /** Run j of the trims is the trim of line j. */
  lemma TrimPlanAt(lines: seq<Subtitle>, j: nat, ext: string, format: string, bitrate: int, forExport: bool)
    requires j < |lines|
    ensures TrimPlan(lines, ext, format, bitrate, forExport)[j] == TrimArgs(lines[j], j, ext, format, bitrate, forExport)
  {
  }

  lemma EncodeArgsShape(format: string, bitrate: int, forExport: bool, output: string)
    ensures var a := EncodeArgs(format, bitrate, forExport, output);
      |a| == 6 + (if format == "opus" then 2 else 0) + (if forExport then 2 else 0) &&
      a[|a| - 1] == output && a[|a| - 3 .. |a| - 1] == ["-write_xing", "0"] &&
      (format == "opus" ==> a[..2] == ["-strict", "-2"]) &&
      (forExport ==> a[|a| - 5 .. |a| - 3] == ["-b:a", IntToString(bitrate) + "k"])
  {
  }

  /** Trim k writes `audio_output_k.<fmt>`. */
  lemma TrimPlanWritesOutputs(lines: seq<Subtitle>, ext: string, format: string, bitrate: int, forExport: bool)
    ensures WritesOutputs(TrimPlan(lines, ext, format, bitrate, forExport), format)
  {
    var trims := TrimPlan(lines, ext, format, bitrate, forExport);
    forall k | 0 <= k < |trims|
      ensures trims[k] != [] && trims[k][|trims[k]| - 1] == OutputName(k, format)
    {
      TrimPlanAt(lines, k, ext, format, bitrate, forExport);
      EncodeArgsShape(format, bitrate, forExport, OutputName(k, format));
    }
  }

  /** A trim for mp3 without export flags, written out in full. */
  lemma TrimArgsMp3(line: Subtitle, index: nat, ext: string, bitrate: int)
    ensures TrimArgs(line, index, ext, "mp3", bitrate, false) ==
      ["-hide_banner", "-y", "-ss", SecondsText(line.startMs), "-i", "audio_input." + ext,
       "-t", SecondsText(line.endMs - line.startMs), "-vn", "-acodec", "libmp3lame",
       "-write_xing", "0", "audio_output_" + NatToString(index) + ".mp3"]
  {
    assert OutputName(index, "mp3") == "audio_output_" + NatToString(index) + ".mp3";
    assert EncodeArgs("mp3", bitrate, false, OutputName(index, "mp3")) ==
      ["-vn", "-acodec", "libmp3lame", "-write_xing", "0", OutputName(index, "mp3")];
  }

  /** A trim for opus with export flags, written out in full. */
  lemma TrimArgsOpusExport(line: Subtitle, index: nat, ext: string, bitrate: int)
    ensures TrimArgs(line, index, ext, "opus", bitrate, true) ==
      ["-hide_banner", "-y", "-ss", SecondsText(line.startMs), "-i", "audio_input." + ext,
       "-t", SecondsText(line.endMs - line.startMs)] +
      ["-strict", "-2", "-vn", "-acodec", "opus", "-b:a", IntToString(bitrate) + "k",
       "-write_xing", "0", "audio_output_" + NatToString(index) + ".opus"]
  {
    var output := OutputName(index, "opus");
    var head := ["-hide_banner", "-y", "-ss", SecondsText(line.startMs), "-i", "audio_input." + ext,
                 "-t", SecondsText(line.endMs - line.startMs)];
    var tail := ["-strict", "-2", "-vn", "-acodec", "opus", "-b:a", IntToString(bitrate) + "k",
                 "-write_xing", "0", output];
    assert TrimArgs(line, index, ext, "opus", bitrate, true) == head + tail by {
      EncodeOpusExport(bitrate, output);
      assert InputName(ext) == "audio_input." + ext;
    }
    OutputNameOpus(index);
  }

  lemma OutputNameOpus(index: nat)
    ensures OutputName(index, "opus") == "audio_output_" + NatToString(index) + ".opus"
  {
  }

  lemma EncodeOpusExport(bitrate: int, output: string)
    ensures EncodeArgs("opus", bitrate, true, output) ==
      ["-strict", "-2", "-vn", "-acodec", "opus", "-b:a", IntToString(bitrate) + "k", "-write_xing", "0", output]
  {
  }

  /** Two lines are joined by `[0:a][1:a]concat=n=2:v=0:a=1`. */
  lemma FilterForTwo()
    ensures FilterInputs(2) + "concat=n=" + NatToString(2) + ":v=0:a=1" == "[0:a][1:a]concat=n=2:v=0:a=1"
  {
  }

  /** A group of n lines asks for n trims plus one concatenation iff n > 1,
      the k-th run is the trim of line k, and the last run writes the file
      that is read back. */
  lemma PlannedExecsShape(lines: seq<Subtitle>, ext: string, format: string, bitrate: int, forExport: bool)
    ensures var p := PlannedExecs(lines, ext, format, bitrate, forExport);
      |p| == |lines| + (if |lines| > 1 then 1 else 0) &&
      (forall k :: 0 <= k < |lines| ==> p[k] == TrimArgs(lines[k], k, ext, format, bitrate, forExport)) &&
      (|lines| >= 1 ==> p[|p| - 1][|p[|p| - 1]| - 1] == FinalOutput(|lines|, format))
  {
    var n := |lines|;
    forall k | 0 <= k < n
      ensures PlannedExecs(lines, ext, format, bitrate, forExport)[k] == TrimArgs(lines[k], k, ext, format, bitrate, forExport)
    {
      TrimPlanAt(lines, k, ext, format, bitrate, forExport);
    }
    if n == 1 {
      EncodeArgsShape(format, bitrate, forExport, OutputName(0, format));
    } else if n > 1 {
      EncodeArgsShape(format, bitrate, forExport, FinalOutput(n, format));
    }
  }

  /** Trim outputs have distinct names, none of them the concatenation's. */
  lemma OutputNamesDistinct(i: nat, j: nat, format: string)
    ensures i != j ==> OutputName(i, format) != OutputName(j, format)
    ensures OutputName(i, format) != "audio_output." + format
  {
    var a := OutputName(i, format);
    assert a[12] == '_';
    assert ("audio_output." + format)[12] == '.';
    if i != j && a == OutputName(j, format) {
      var si, sj := NatToString(i), NatToString(j);
      var prefix := "audio_output_";
      assert a == prefix + (si + "." + format);
      assert OutputName(j, format) == prefix + (sj + "." + format);
      assert si + "." + format == (prefix + (si + "." + format))[|prefix|..];
      assert sj + "." + format == (prefix + (sj + "." + format))[|prefix|..];
      DigitsBeforeDot(si, sj, format);
      NatToStringInjective(i, j);
    }
  }

  lemma DigitsBeforeDot(a: string, b: string, rest: string)
    requires '.' !in a && '.' !in b && a + "." + rest == b + "." + rest
    ensures a == b
  {
    var s := a + "." + rest;
    IndexOfAfter(a, '.', rest);
    IndexOfAfter(b, '.', rest);
    assert s == a + ['.'] + rest;
    assert s == b + ['.'] + rest;
    assert s[..|a|] == a && s[..|b|] == b;
  }

  /** The concatenation reads every trimmed piece. */
  lemma ConcatReadsEveryPiece(n: nat, format: string, bitrate: int, forExport: bool, k: nat)
    requires k < n
    ensures OutputName(k, format) in ConcatArgs(n, format, bitrate, forExport)
  {
    var m := MergeInputs(n, format);
    assert m[2 * k + 1] == OutputName(k, format);
    var c := ConcatArgs(n, format, bitrate, forExport);
    assert c[2 + 2 * k + 1] == m[2 * k + 1];
  }

  // ---------------------------------------------------------------------
  // The toolchain: its file system and the runs it was asked for
  // ---------------------------------------------------------------------

  /** A directory entry of the toolchain's file system. */
  datatype Entry = Entry(isDir: bool, data: Bytes)

  /** What a thrown value carries: an Error's name and message, or a thrown
      string (which has no name). */
  datatype Thrown = ThrownError(name: string, message: string) | ThrownString(text: string)

  /** Whether a thrown value is named `AbortError`. */
  predicate IsAbortError(e: Thrown) {
    e.ThrownError? && e.name == "AbortError"
  }

  /** How one `exec` ends: it writes its output file, or it throws. */
  datatype ExecOutcome = Wrote(data: Bytes) | ExecThrew(error: Thrown)

  /** The scratch files `cleanFiles(cleanInput)` deletes. */
  predicate Removable(name: string, entry: Entry, cleanInput: bool) {
    !entry.isDir && ((cleanInput && StartsWith(name, "audio_input")) || StartsWith(name, "audio_output"))
  }

  /** The file map after `cleanFiles(cleanInput)`. */
  function Cleaned(files: map<string, Entry>, cleanInput: bool): (r: map<string, Entry>)
    ensures forall name :: name in r <==> name in files && !Removable(name, files[name], cleanInput)
    ensures forall name :: name in r ==> r[name] == files[name]
  {
    map name | name in files && !Removable(name, files[name], cleanInput) :: files[name]
  }

  /** Files whose names do not start with `audio_output` are the same in both maps. */
  ghost predicate SameOutsideOutputs(a: map<string, Entry>, b: map<string, Entry>) {
    forall name :: !StartsWith(name, "audio_output") ==>
      (name in a <==> name in b) && (name in a ==> a[name] == b[name])
  }

  /** Cleaning twice is cleaning once; directories and, unless asked for,
      inputs survive. */
  lemma CleanedProperties(files: map<string, Entry>, cleanInput: bool, name: string)
    ensures Cleaned(Cleaned(files, cleanInput), cleanInput) == Cleaned(files, cleanInput)
    ensures name in files && files[name].isDir ==> name in Cleaned(files, cleanInput)
    ensures name in files && !cleanInput && !StartsWith(name, "audio_output") ==>
              name in Cleaned(files, cleanInput)
    ensures name in Cleaned(files, cleanInput) && !Cleaned(files, cleanInput)[name].isDir ==>
              !StartsWith(name, "audio_output")
  {
  }

  /** Writing scratch outputs does not change what cleaning leaves. */
  lemma CleanedIgnoresOutputs(a: map<string, Entry>, b: map<string, Entry>)
    requires SameOutsideOutputs(a, b)
    requires forall name :: name in a && StartsWith(name, "audio_output") ==> !a[name].isDir
    requires forall name :: name in b && StartsWith(name, "audio_output") ==> !b[name].isDir
    ensures Cleaned(a, false) == Cleaned(b, false)
  {
  }

  /** Writing a scratch output leaves every other file as it was. */
  lemma WriteOutput(files: map<string, Entry>, older: map<string, Entry>, name: string, data: Bytes)
    requires SameOutsideOutputs(files, older)
    requires forall f :: f in files && StartsWith(f, "audio_output") ==> !files[f].isDir
    requires StartsWith(name, "audio_output")
    ensures SameOutsideOutputs(files[name := Entry(false, data)], older)
    ensures forall f :: f in files[name := Entry(false, data)] && StartsWith(f, "audio_output") ==>
              !files[name := Entry(false, data)][f].isDir
  {
  }

  lemma OutputNamesAreOutputs(i: nat, n: nat, format: string)
    ensures StartsWith(OutputName(i, format), "audio_output")
    ensures StartsWith(FinalOutput(n, format), "audio_output")
  {
    assert OutputName(i, format) == "audio_output" + ("_" + NatToString(i) + "." + format);
    assert ("audio_output." + format) == "audio_output" + ("." + format);
  }

  /** The wasm toolchain (`new FFmpeg()`). */
  class Toolchain {
    var loaded: bool
    var files: map<string, Entry>
    var execLog: seq<seq<string>>

    constructor ()
      ensures !loaded && files == map[] && execLog == []
    {
      loaded := false;
      files := map[];
      execLog := [];
    }

    /** `ffmpeg.exec(args)`: recorded; on success the output file (the last
        argument) is written. */
    method Exec(args: seq<string>, outcome: ExecOutcome)
      requires args != []
      modifies this
      ensures execLog == old(execLog) + [args] && loaded == old(loaded)
      ensures outcome.Wrote? ==> files == old(files)[args[|args| - 1] := Entry(false, outcome.data)]
      ensures outcome.ExecThrew? ==> files == old(files)
    {
      execLog := execLog + [args];
      if outcome.Wrote? {
        files := files[args[|args| - 1] := Entry(false, outcome.data)];
      }
    }

    /** `ffmpeg.exec(args)` for a run that names no output file (it only
        prints what it finds): recorded, and nothing is written. */
    method Inspect(args: seq<string>)
      modifies this
      ensures execLog == old(execLog) + [args] && loaded == old(loaded) && files == old(files)
    {
      execLog := execLog + [args];
    }

    /** `ffmpeg.writeFile(name, data)`. */
    method WriteFile(name: string, data: Bytes)
      modifies this
      ensures files == old(files)[name := Entry(false, data)]
      ensures loaded == old(loaded) && execLog == old(execLog)
    {
      files := files[name := Entry(false, data)];
    }

    /** `ffmpeg.load(...)` that succeeds. */
    method Load()
      modifies this
      ensures loaded && files == old(files) && execLog == old(execLog)
    {
      loaded := true;
    }

    /** `cleanFiles(cleanInput)`: nothing when not loaded; otherwise every
        non-directory `audio_output*` file goes, and `audio_input*` files too
        when `cleanInput`. */
    method CleanFiles(cleanInput: bool)
      modifies this
      ensures loaded == old(loaded) && execLog == old(execLog)
      ensures !loaded ==> files == old(files)
      ensures loaded ==> files == Cleaned(old(files), cleanInput)
    {
      if !loaded {
        return;
      }
      files := Cleaned(files, cleanInput);
    }
  }

  // ---------------------------------------------------------------------
  // getAudio: the run protocol
  // ---------------------------------------------------------------------

  /** Where the trim loop stops. */
  datatype TrimStop = AllTrimmed | AbortedBefore(index: nat) | FailedAt(index: nat)

  /** Whether the signal is aborted when trim `i` is about to start: it was
      aborted before the call, or the user cancelled during an earlier run. */
  predicate AbortedBeforeTrim(i: nat, abortedAtStart: bool, cancelAt: Option<nat>) {
    abortedAtStart || (cancelAt.Some? && cancelAt.value < i)
  }

  /** The signal is aborted before trim `i + 1` exactly when it was before
      trim `i` or the user cancelled during trim `i`. */
  lemma AbortedBeforeNextTrim(i: nat, abortedAtStart: bool, cancelAt: Option<nat>)
    ensures AbortedBeforeTrim(i + 1, abortedAtStart, cancelAt) ==
            (AbortedBeforeTrim(i, abortedAtStart, cancelAt) || cancelAt == Some(i))
  {
  }

  /** The trim loop from line `i`: the abort check comes before each trim,
      a throwing trim ends the loop. */
  function TrimPhase(i: nat, n: nat, outcomes: seq<ExecOutcome>, abortedAtStart: bool,
                     cancelAt: Option<nat>): (r: TrimStop)
    requires i <= n <= |outcomes|
    ensures r.AbortedBefore? ==> i <= r.index < n && AbortedBeforeTrim(r.index, abortedAtStart, cancelAt)
    ensures r.FailedAt? ==> i <= r.index < n && outcomes[r.index].ExecThrew?
    ensures r.AllTrimmed? ==> forall k :: i <= k < n ==> outcomes[k].Wrote?
    decreases n - i
  {
    if i == n then AllTrimmed
    else if AbortedBeforeTrim(i, abortedAtStart, cancelAt) then AbortedBefore(i)
    else if outcomes[i].ExecThrew? then FailedAt(i)
    else TrimPhase(i + 1, n, outcomes, abortedAtStart, cancelAt)
  }

  /** How many runs `getAudio` issues. */
  function ExecCount(n: nat, outcomes: seq<ExecOutcome>, abortedAtStart: bool, cancelAt: Option<nat>): nat
    requires n <= |outcomes|
  {
    match TrimPhase(0, n, outcomes, abortedAtStart, cancelAt)
    case AllTrimmed => n + (if n > 1 then 1 else 0)
    case AbortedBefore(i) => i
    case FailedAt(i) => i + 1
  }

  /** Whether the signal is aborted once the runs are over. */
  predicate AbortedAtEnd(n: nat, outcomes: seq<ExecOutcome>, abortedAtStart: bool, cancelAt: Option<nat>)
    requires n <= |outcomes|
  {
    abortedAtStart || (cancelAt.Some? && cancelAt.value < ExecCount(n, outcomes, abortedAtStart, cancelAt))
  }

  /** `Audio creation failed` with the thrown message, if there is one. */
  function FailureMessage(e: Thrown): (r: string)
    ensures StartsWith(r, "Audio creation failed")
    ensures e.ThrownError? && e.message == "" ==> r == "Audio creation failed"
    ensures e.ThrownError? && e.message != "" ==> r == "Audio creation failed - " + e.message
    ensures e.ThrownString? ==> r == "Audio creation failed - " + e.text
  {
    match e
    case ThrownString(t) => "Audio creation failed - " + t
    case ThrownError(_, m) => "Audio creation failed" + (if m != "" then " - " + m else "")
  }

  /** What `getAudio` returns or throws: the buffer read, the failure, the
      abort, or nothing at all (`undefined`) when the `try` threw before the
      buffer was assigned and the throw was not reported. */
  datatype ClipResult = Audio(data: Bytes) | AudioFailed(message: string) | AudioAborted | NoAudio

  /** What the `catch` of `getAudio` makes of a throw while the signal is not
      aborted: a throw named `AbortError` is swallowed and the call resolves
      with no buffer; any other throw is reported as the failure. */
  function Caught(e: Thrown): (r: ClipResult)
    ensures r.NoAudio? <==> IsAbortError(e)
    ensures r.AudioFailed? <==> !IsAbortError(e)
    ensures r.AudioFailed? ==> r.message == FailureMessage(e)
  {
    if IsAbortError(e) then NoAudio else AudioFailed(FailureMessage(e))
  }

  /** The outcome of `getAudio` for `n` lines: an abort wins over every
      failure; otherwise the first throwing run, or a failed read, is the
      failure; otherwise the file read back is the last run's output (or,
      with no line, whatever `audio_output.<fmt>` held before). */
  function RunResult(n: nat, outcomes: seq<ExecOutcome>, abortedAtStart: bool, cancelAt: Option<nat>,
                     previous: Option<Entry>, readFailure: Thrown): (r: ClipResult)
    requires n < |outcomes|
    ensures AbortedAtEnd(n, outcomes, abortedAtStart, cancelAt) ==> r == AudioAborted
    ensures r.Audio? ==> TrimPhase(0, n, outcomes, abortedAtStart, cancelAt).AllTrimmed?
    ensures r.AudioFailed? ==> StartsWith(r.message, "Audio creation failed")
  {
    if AbortedAtEnd(n, outcomes, abortedAtStart, cancelAt) then AudioAborted
    else match TrimPhase(0, n, outcomes, abortedAtStart, cancelAt)
      case FailedAt(i) => Caught(outcomes[i].error)
      case AbortedBefore(_) => AudioAborted
      case AllTrimmed =>
        if n > 1 && outcomes[n].ExecThrew? then Caught(outcomes[n].error)
        else if n == 1 then Audio(outcomes[0].data)
        else if n > 1 then Audio(outcomes[n].data)
        else if previous.Some? && !previous.value.isDir then Audio(previous.value.data)
        else Caught(readFailure)
  }

  /** The runs the trim loop issues before it stops. */
  function TrimCount(stop: TrimStop, n: nat): nat {
    match stop
    case AllTrimmed => n
    case AbortedBefore(i) => i
    case FailedAt(i) => i + 1
  }

  /** Non-directory entries are all that `audio_output*` names hold. */
  ghost predicate OutputsAreFiles(files: map<string, Entry>) {
    forall name :: name in files && StartsWith(name, "audio_output") ==> !files[name].isDir
  }

  lemma SameOutsideOutputsTransitive(a: map<string, Entry>, b: map<string, Entry>, c: map<string, Entry>)
    requires SameOutsideOutputs(a, b) && SameOutsideOutputs(b, c)
    ensures SameOutsideOutputs(a, c)
  {
  }

  /** The last argument of every run in `trims` names trim k's output. */
  predicate WritesOutputs(trims: seq<seq<string>>, format: string) {
    forall k :: 0 <= k < |trims| ==> trims[k] != [] && trims[k][|trims[k]| - 1] == OutputName(k, format)
  }

  /** One trim: the run is issued, and a cancel that arrives while it runs
      aborts the signal. */
  method TrimLine(tool: Toolchain, args: seq<string>, i: nat, format: string,
                  signal: AbortController?, outcome: ExecOutcome, cancelAt: Option<nat>)
    requires args != [] && args[|args| - 1] == OutputName(i, format)
    requires OutputsAreFiles(tool.files)
    modifies tool, signal
    ensures tool.execLog == old(tool.execLog) + [args]
    ensures tool.loaded == old(tool.loaded)
    ensures outcome.Wrote? ==> tool.files == old(tool.files)[OutputName(i, format) := Entry(false, outcome.data)]
    ensures outcome.ExecThrew? ==> tool.files == old(tool.files)
    ensures SameOutsideOutputs(tool.files, old(tool.files)) && OutputsAreFiles(tool.files)
    ensures signal != null ==> signal.aborted == (old(signal.aborted) || cancelAt == Some(i))
  {
    if outcome.Wrote? {
      OutputNamesAreOutputs(i, i, format);
      WriteOutput(tool.files, tool.files, OutputName(i, format), outcome.data);
    }
    tool.Exec(args, outcome);
    if signal != null && cancelAt == Some(i) {
      signal.Abort();
    }
  }

  /** The trim loop of `getAudio` over the trims' argv lists: before each
      trim the signal is checked; a cancel during trim k is seen before
      trim k + 1; a throwing trim ends the loop. */
  method RunTrims(tool: Toolchain, trims: seq<seq<string>>, format: string,
                  signal: AbortController?, outcomes: seq<ExecOutcome>, cancelAt: Option<nat>)
    returns (stop: TrimStop)
    requires |outcomes| == |trims| + 1
    requires WritesOutputs(trims, format)
    requires OutputsAreFiles(tool.files)
    modifies tool, signal
    ensures var a0 := old(signal != null && signal.aborted);
            var cancel := if signal == null then None else cancelAt;
            stop == TrimPhase(0, |trims|, outcomes, a0, cancel) &&
            tool.execLog == old(tool.execLog) + trims[..TrimCount(stop, |trims|)] &&
            (signal != null ==> signal.aborted == AbortedBeforeTrim(TrimCount(stop, |trims|), a0, cancel))
    ensures tool.loaded == old(tool.loaded)
    ensures SameOutsideOutputs(tool.files, old(tool.files)) && OutputsAreFiles(tool.files)
    ensures |trims| == 0 ==> tool.files == old(tool.files)
    ensures stop.AllTrimmed? && |trims| > 0 ==>
              OutputName(|trims| - 1, format) in tool.files &&
              tool.files[OutputName(|trims| - 1, format)] == Entry(false, outcomes[|trims| - 1].data)
  {
    var n := |trims|;
    ghost var a0 := signal != null && signal.aborted;
    ghost var cancel := if signal == null then None else cancelAt;
    var i := 0;
    stop := AllTrimmed;
    while i < n && stop.AllTrimmed?
      invariant 0 <= i <= n
      decreases n - i, if stop.AllTrimmed? then 1 else 0
      invariant stop.AllTrimmed? ==> TrimPhase(0, n, outcomes, a0, cancel) == TrimPhase(i, n, outcomes, a0, cancel)
      invariant !stop.AllTrimmed? ==> stop == TrimPhase(0, n, outcomes, a0, cancel) && TrimCount(stop, n) == i
      invariant tool.execLog == old(tool.execLog) + trims[..i]
      invariant tool.loaded == old(tool.loaded)
      invariant signal != null ==> signal.aborted == AbortedBeforeTrim(i, a0, cancel)
      invariant SameOutsideOutputs(tool.files, old(tool.files)) && OutputsAreFiles(tool.files)
      invariant i == 0 ==> tool.files == old(tool.files)
      invariant 0 < i && stop.AllTrimmed? ==>
                  outcomes[i - 1].Wrote? && OutputName(i - 1, format) in tool.files &&
                  tool.files[OutputName(i - 1, format)] == Entry(false, outcomes[i - 1].data)
    {
      ghost var before := tool.files;
      stop := TrimTurn(tool, trims, format, signal, outcomes, cancelAt, i, a0, cancel);
      SameOutsideOutputsTransitive(tool.files, before, old(tool.files));
      if !stop.AbortedBefore? {
        assert trims[..i + 1] == trims[..i] + [trims[i]];
        i := i + 1;
      }
    }
  }

  /** One turn of the trim loop at trim `i`: the abort check, then the
      trim, which ends the loop when it throws. */
  method TrimTurn(tool: Toolchain, trims: seq<seq<string>>, format: string, signal: AbortController?,
                  outcomes: seq<ExecOutcome>, cancelAt: Option<nat>, i: nat, ghost a0: bool, ghost cancel: Option<nat>)
    returns (stop: TrimStop)
    requires i < |trims| && |outcomes| == |trims| + 1
    requires WritesOutputs(trims, format)
    requires OutputsAreFiles(tool.files)
    requires cancel == (if signal == null then None else cancelAt) && (signal == null ==> !a0)
    requires signal != null ==> signal.aborted == AbortedBeforeTrim(i, a0, cancel)
    modifies tool, signal
    ensures stop == if AbortedBeforeTrim(i, a0, cancel) then AbortedBefore(i)
                    else if outcomes[i].ExecThrew? then FailedAt(i) else AllTrimmed
    ensures tool.execLog == old(tool.execLog) + (if stop.AbortedBefore? then [] else [trims[i]])
    ensures tool.loaded == old(tool.loaded)
    ensures signal != null ==> signal.aborted == AbortedBeforeTrim(if stop.AbortedBefore? then i else i + 1, a0, cancel)
    ensures SameOutsideOutputs(tool.files, old(tool.files)) && OutputsAreFiles(tool.files)
    ensures stop.AbortedBefore? ==> tool.files == old(tool.files)
    ensures stop.AllTrimmed? ==>
              OutputName(i, format) in tool.files && tool.files[OutputName(i, format)] == Entry(false, outcomes[i].data)
  {
    var check := ThrowIfAborted(signal);
    if check.Fail? {
      return AbortedBefore(i);
    }
    TrimLine(tool, trims[i], i, format, signal, outcomes[i], cancelAt);
    AbortedBeforeNextTrim(i, a0, cancel);
    stop := if outcomes[i].ExecThrew? then FailedAt(i) else AllTrimmed;
  }

  /** The entry a file name holds, if any. */
  function Lookup(files: map<string, Entry>, name: string): Option<Entry> {
    if name in files then Some(files[name]) else None
  }

  /** What is thrown, and what buffer is read, after the trims all
      succeeded: the concatenation's error, or the contents of the final
      output (`final`, as the file system holds it before the
      concatenation), or the read's own failure when it is not a file. */
  function ReadBack(n: nat, concat: ExecOutcome, final: Option<Entry>, readFailure: Thrown): (Option<Thrown>, Bytes) {
    if n > 1 && concat.ExecThrew? then (Some(concat.error), [])
    else if n > 1 then (None, concat.data)
    else if final.Some? && !final.value.isDir then (None, final.value.data)
    else (Some(readFailure), [])
  }

  /** The end of `getAudio`: a throw that is not an abort is reported;
      then an abort is thrown; otherwise the buffer is returned, which is
      unassigned when the `try` threw. */
  function Settle(thrown: Option<Thrown>, aborted: bool, buffer: Bytes): (r: ClipResult)
    ensures aborted ==> r == AudioAborted
    ensures r.Audio? <==> !aborted && thrown.None?
    ensures r.Audio? ==> r.data == buffer
    ensures r.AudioFailed? <==> !aborted && thrown.Some? && !IsAbortError(thrown.value)
  {
    if aborted then AudioAborted
    else if thrown.Some? then Caught(thrown.value)
    else Audio(buffer)
  }

  /** The signal at the end is the signal after the trims, plus a cancel
      during the concatenation. */
  lemma AbortedAtEndOfStop(n: nat, outcomes: seq<ExecOutcome>, a0: bool, cancel: Option<nat>, stop: TrimStop)
    requires n <= |outcomes| && stop == TrimPhase(0, n, outcomes, a0, cancel)
    ensures AbortedAtEnd(n, outcomes, a0, cancel) ==
              (AbortedBeforeTrim(TrimCount(stop, n), a0, cancel) || (stop.AllTrimmed? && n > 1 && cancel == Some(n)))
  {
  }

  /** After every trim succeeded, the runs leave what the read-back of the
      final output gives, which for one line is that trim's output. */
  lemma RunsOutcomeAllTrimmed(n: nat, outcomes: seq<ExecOutcome>, a0: bool, cancel: Option<nat>,
                              previous: Option<Entry>, final: Option<Entry>, readFailure: Thrown)
    requires n < |outcomes| && TrimPhase(0, n, outcomes, a0, cancel).AllTrimmed?
    requires n == 0 ==> final == previous
    requires n == 1 ==> final == Some(Entry(false, outcomes[0].data))
    ensures RunsOutcome(n, outcomes, a0, cancel, previous, readFailure) == ReadBack(n, outcomes[n], final, readFailure)
  {
  }

  /** The runs issued are the planned ones up to the count. */
  lemma IssuedRuns(trims: seq<seq<string>>, concat: seq<string>, outcomes: seq<ExecOutcome>, a0: bool,
                   cancel: Option<nat>, stop: TrimStop)
    requires |trims| <= |outcomes| && stop == TrimPhase(0, |trims|, outcomes, a0, cancel)
    ensures var n := |trims|;
            (trims + (if n > 1 then [concat] else []))[..ExecCount(n, outcomes, a0, cancel)] ==
              trims[..TrimCount(stop, n)] + (if stop.AllTrimmed? && n > 1 then [concat] else [])
  {
    var n := |trims|;
    var plan := trims + (if n > 1 then [concat] else []);
    if stop.AllTrimmed? && n > 1 {
      assert plan[..n + 1] == plan;
      assert trims[..n] == trims;
    } else {
      assert plan[..TrimCount(stop, n)] == trims[..TrimCount(stop, n)];
    }
  }

  /** What the runs leave for the `catch`: the error thrown, if any, and
      the buffer read back. */
  function RunsOutcome(n: nat, outcomes: seq<ExecOutcome>, a0: bool, cancel: Option<nat>,
                       previous: Option<Entry>, readFailure: Thrown): (Option<Thrown>, Bytes)
    requires n < |outcomes|
  {
    match TrimPhase(0, n, outcomes, a0, cancel)
    case FailedAt(i) => (Some(outcomes[i].error), [])
    case AbortedBefore(_) => (None, [])
    case AllTrimmed =>
      ReadBack(n, outcomes[n], if n == 1 then Some(Entry(false, outcomes[0].data)) else previous, readFailure)
  }

  /** Settling what the runs leave gives the run's result. */
  lemma SettleIsRunResult(n: nat, outcomes: seq<ExecOutcome>, a0: bool, cancel: Option<nat>,
                          previous: Option<Entry>, readFailure: Thrown)
    requires n < |outcomes|
    ensures var (thrown, buffer) := RunsOutcome(n, outcomes, a0, cancel, previous, readFailure);
            Settle(thrown, AbortedAtEnd(n, outcomes, a0, cancel), buffer) ==
              RunResult(n, outcomes, a0, cancel, previous, readFailure)
  {
    AbortedAtEndOfStop(n, outcomes, a0, cancel, TrimPhase(0, n, outcomes, a0, cancel));
  }

  /** The concatenation (for more than one line) and the read of the final
      output, once every trim succeeded. */
  method ConcatAndRead(tool: Toolchain, n: nat, format: string, concatArgs: seq<string>,
                       signal: AbortController?, concat: ExecOutcome, cancelAt: Option<nat>, readFailure: Thrown)
    returns (thrown: Option<Thrown>, buffer: Bytes)
    requires concatArgs != [] && concatArgs[|concatArgs| - 1] == FinalOutput(n, format)
    requires OutputsAreFiles(tool.files)
    modifies tool, signal
    ensures tool.execLog == old(tool.execLog) + (if n > 1 then [concatArgs] else [])
    ensures tool.loaded == old(tool.loaded)
    ensures SameOutsideOutputs(tool.files, old(tool.files)) && OutputsAreFiles(tool.files)
    ensures signal != null ==> signal.aborted == (old(signal.aborted) || (n > 1 && cancelAt == Some(n)))
    ensures (thrown, buffer) == ReadBack(n, concat, old(Lookup(tool.files, FinalOutput(n, format))), readFailure)
  {
    var finalOutput := FinalOutput(n, format);
    thrown := None;
    buffer := [];
    if n > 1 {
      OutputNamesAreOutputs(0, n, format);
      if concat.Wrote? {
        WriteOutput(tool.files, tool.files, finalOutput, concat.data);
      }
      tool.Exec(concatArgs, concat);
      if signal != null && cancelAt == Some(n) {
        signal.Abort();
      }
      if concat.ExecThrew? {
        return Some(concat.error), [];
      }
    }
    if finalOutput in tool.files && !tool.files[finalOutput].isDir {
      buffer := tool.files[finalOutput].data;
    } else {
      thrown := Some(readFailure);
    }
  }

  /** The `catch`/`finally` of `getAudio`: a failure that is not an abort
      becomes the error message, the scratch outputs are cleaned when asked
      for, then an abort is thrown, else the buffer is returned. */
  method Finish(tool: Toolchain, thrown: Option<Thrown>, buffer: Bytes, signal: AbortController?,
                executeCleanFiles: bool)
    returns (r: ClipResult)
    modifies tool
    ensures r == Settle(thrown, signal != null && signal.aborted, buffer)
    ensures tool.loaded == old(tool.loaded) && tool.execLog == old(tool.execLog)
    ensures executeCleanFiles && tool.loaded ==> tool.files == Cleaned(old(tool.files), false)
    ensures !(executeCleanFiles && tool.loaded) ==> tool.files == old(tool.files)
  {
    var failure := "";
    if thrown.Some? && !(signal != null && signal.aborted) && !IsAbortError(thrown.value) {
      failure := FailureMessage(thrown.value);
    }
    if executeCleanFiles {
      tool.CleanFiles(false);
    }
    if failure != "" {
      return AudioFailed(failure);
    }
    var check := ThrowIfAborted(signal);
    if check.Fail? {
      return AudioAborted;
    }
    r := if thrown.Some? then NoAudio else Audio(buffer);
  }

  /** The `try` of `getAudio` once the argv lists are built: the trims in
      `trims`, then the concatenation `concatArgs`, then the read. */
  method Runs(tool: Toolchain, trims: seq<seq<string>>, concatArgs: seq<string>,
              signal: AbortController?, format: string,
              outcomes: seq<ExecOutcome>, cancelAt: Option<nat>, readFailure: Thrown)
    returns (thrown: Option<Thrown>, buffer: Bytes)
    requires |outcomes| == |trims| + 1
    requires WritesOutputs(trims, format)
    requires concatArgs != [] && concatArgs[|concatArgs| - 1] == FinalOutput(|trims|, format)
    requires OutputsAreFiles(tool.files)
    modifies tool, signal
    ensures var a0 := old(signal != null && signal.aborted);
            var cancel := if signal == null then None else cancelAt;
            tool.execLog == old(tool.execLog) + (trims + (if |trims| > 1 then [concatArgs] else []))[..ExecCount(|trims|, outcomes, a0, cancel)]
    ensures var a0 := old(signal != null && signal.aborted);
            var cancel := if signal == null then None else cancelAt;
            (thrown, buffer) == RunsOutcome(|trims|, outcomes, a0, cancel, old(Lookup(tool.files, "audio_output." + format)), readFailure)
    ensures var a0 := old(signal != null && signal.aborted);
            var cancel := if signal == null then None else cancelAt;
            signal != null ==> signal.aborted == AbortedAtEnd(|trims|, outcomes, a0, cancel)
    ensures tool.loaded == old(tool.loaded)
    ensures SameOutsideOutputs(tool.files, old(tool.files)) && OutputsAreFiles(tool.files)
  {
    var n := |trims|;
    ghost var a0 := signal != null && signal.aborted;
    ghost var cancel := if signal == null then None else cancelAt;

    var stop := RunTrims(tool, trims, format, signal, outcomes, cancelAt);
    ghost var afterTrims := tool.files;
    thrown := None;
    buffer := [];
    if stop.FailedAt? {
      thrown := Some(outcomes[stop.index].error);
    } else if stop.AllTrimmed? {
      ghost var final := Lookup(tool.files, FinalOutput(n, format));
      RunsOutcomeAllTrimmed(n, outcomes, a0, cancel, old(Lookup(tool.files, "audio_output." + format)), final, readFailure);
      thrown, buffer := ConcatAndRead(tool, n, format, concatArgs, signal, outcomes[n], cancelAt, readFailure);
      SameOutsideOutputsTransitive(tool.files, afterTrims, old(tool.files));
    }
    IssuedRuns(trims, concatArgs, outcomes, a0, cancel, stop);
    AbortedAtEndOfStop(n, outcomes, a0, cancel, stop);
  }

  /** `getAudio` once the argv lists are built. */
  method RunAll(tool: Toolchain, trims: seq<seq<string>>, concatArgs: seq<string>, executeCleanFiles: bool,
                signal: AbortController?, format: string,
                outcomes: seq<ExecOutcome>, cancelAt: Option<nat>, readFailure: Thrown)
    returns (r: ClipResult)
    requires |outcomes| == |trims| + 1
    requires WritesOutputs(trims, format)
    requires concatArgs != [] && concatArgs[|concatArgs| - 1] == FinalOutput(|trims|, format)
    requires OutputsAreFiles(tool.files)
    modifies tool, signal
    ensures var a0 := old(signal != null && signal.aborted);
            var cancel := if signal == null then None else cancelAt;
            var n := |trims|;
            tool.execLog == old(tool.execLog) + (trims + (if n > 1 then [concatArgs] else []))[..ExecCount(n, outcomes, a0, cancel)] &&
            r == RunResult(n, outcomes, a0, cancel, old(Lookup(tool.files, "audio_output." + format)), readFailure) &&
            (signal != null ==> signal.aborted == AbortedAtEnd(n, outcomes, a0, cancel))
    ensures tool.loaded == old(tool.loaded)
    ensures executeCleanFiles && tool.loaded ==> tool.files == Cleaned(old(tool.files), false)
    ensures SameOutsideOutputs(tool.files, old(tool.files))
  {
    ghost var a0 := signal != null && signal.aborted;
    ghost var cancel := if signal == null then None else cancelAt;
    ghost var previous := Lookup(tool.files, "audio_output." + format);
    var thrown, buffer := Runs(tool, trims, concatArgs, signal, format, outcomes, cancelAt, readFailure);
    ghost var beforeClean := tool.files;
    SettleIsRunResult(|trims|, outcomes, a0, cancel, previous, readFailure);
    r := Finish(tool, thrown, buffer, signal, executeCleanFiles);
    if executeCleanFiles && tool.loaded {
      CleanedIgnoresOutputs(beforeClean, old(tool.files));
    }
  }

  /** `getAudio(audioFile, lines, executeCleanFiles, signal, format, bitrate,
      forExport)`. `outcomes[k]` is how run k ends (the last one is for the
      concatenation), `cancelAt` the run during which the user cancels, and
      `readFailure` what reading a missing output throws. */
  method GetAudio(tool: Toolchain, fileName: string, lines: seq<Subtitle>, executeCleanFiles: bool,
                  signal: AbortController?, format: string, bitrate: int, forExport: bool,
                  outcomes: seq<ExecOutcome>, cancelAt: Option<nat>, readFailure: Thrown)
    returns (r: ClipResult)
    requires |outcomes| == |lines| + 1
    requires OutputsAreFiles(tool.files)
    modifies tool, signal
    ensures var a0 := old(signal != null && signal.aborted);
            var cancel := if signal == null then None else cancelAt;
            var count := ExecCount(|lines|, outcomes, a0, cancel);
            tool.execLog == old(tool.execLog) + PlannedExecs(lines, FileExtension(fileName), format, bitrate, forExport)[..count] &&
            r == RunResult(|lines|, outcomes, a0, cancel, old(Lookup(tool.files, "audio_output." + format)), readFailure) &&
            (signal != null ==> signal.aborted == AbortedAtEnd(|lines|, outcomes, a0, cancel))
    ensures tool.loaded == old(tool.loaded)
    ensures executeCleanFiles && tool.loaded ==> tool.files == Cleaned(old(tool.files), false)
    ensures SameOutsideOutputs(tool.files, old(tool.files))
  {
    var n := |lines|;
    var ext := FileExtension(fileName);
    var trims := TrimPlan(lines, ext, format, bitrate, forExport);
    var concatArgs := ConcatArgs(n, format, bitrate, forExport);
    TrimPlanWritesOutputs(lines, ext, format, bitrate, forExport);
    EncodeArgsShape(format, bitrate, forExport, FinalOutput(n, format));
    r := RunAll(tool, trims, concatArgs, executeCleanFiles, signal, format, outcomes, cancelAt, readFailure);
  }

  // ---------------------------------------------------------------------
  // What the run protocol promises
  // ---------------------------------------------------------------------

  /** Trims that are neither aborted before nor throwing are passed over. */
  lemma {:induction false} TrimPhaseSkips(i: nat, m: nat, n: nat, outcomes: seq<ExecOutcome>, a0: bool,
                                          cancel: Option<nat>)
    requires i <= m <= n <= |outcomes|
    requires forall j :: i <= j < m ==> !AbortedBeforeTrim(j, a0, cancel) && outcomes[j].Wrote?
    ensures TrimPhase(i, n, outcomes, a0, cancel) == TrimPhase(m, n, outcomes, a0, cancel)
    decreases m - i
  {
    if i < m {
      TrimPhaseSkips(i + 1, m, n, outcomes, a0, cancel);
    }
  }

  /** A signal aborted before the call: no run is issued and the result is
      the abort, whatever the runs would have done. */
  lemma AbortBeforeRunIssuesNothing(n: nat, outcomes: seq<ExecOutcome>, cancel: Option<nat>,
                                    previous: Option<Entry>, readFailure: Thrown)
    requires n < |outcomes|
    ensures ExecCount(n, outcomes, true, cancel) == 0
    ensures RunResult(n, outcomes, true, cancel, previous, readFailure) == AudioAborted
  {
  }

  /** With no cancel and every run writing its output, all planned runs
      are issued and the final output is returned: the single trim's for
      one line, the concatenation's otherwise. */
  lemma CleanRunReturnsFinalOutput(n: nat, outcomes: seq<ExecOutcome>, previous: Option<Entry>,
                                   readFailure: Thrown)
    requires 0 < n < |outcomes|
    requires forall j :: 0 <= j <= n ==> outcomes[j].Wrote?
    ensures ExecCount(n, outcomes, false, None) == n + (if n > 1 then 1 else 0)
    ensures RunResult(n, outcomes, false, None, previous, readFailure) ==
              Audio(if n == 1 then outcomes[0].data else outcomes[n].data)
  {
    TrimPhaseSkips(0, n, n, outcomes, false, None);
  }

  /** A trim that throws, with no cancel up to its end, stops the runs
      there and is what the `catch` makes of it: `Audio creation failed`,
      or no buffer when it is named `AbortError`. */
  lemma FailureIsReported(n: nat, k: nat, outcomes: seq<ExecOutcome>, cancel: Option<nat>,
                          previous: Option<Entry>, readFailure: Thrown)
    requires k < n < |outcomes|
    requires forall j :: 0 <= j < k ==> outcomes[j].Wrote?
    requires outcomes[k].ExecThrew?
    requires cancel.None? || cancel.value > k
    ensures ExecCount(n, outcomes, false, cancel) == k + 1
    ensures RunResult(n, outcomes, false, cancel, previous, readFailure) ==
              Caught(outcomes[k].error)
  {
    TrimPhaseSkips(0, k, n, outcomes, false, cancel);
  }

  /** A trim that throws an error named `AbortError` while the signal is
      not aborted is not reported: `getAudio` resolves with no buffer. */
  lemma AbortErrorGivesNoAudio(n: nat, k: nat, outcomes: seq<ExecOutcome>, cancel: Option<nat>,
                               previous: Option<Entry>, readFailure: Thrown)
    requires k < n < |outcomes|
    requires forall j :: 0 <= j < k ==> outcomes[j].Wrote?
    requires outcomes[k].ExecThrew? && IsAbortError(outcomes[k].error)
    requires cancel.None? || cancel.value > k
    ensures RunResult(n, outcomes, false, cancel, previous, readFailure) == NoAudio
  {
    FailureIsReported(n, k, outcomes, cancel, previous, readFailure);
  }

  /** A cancel during a throwing trim wins: the result is the abort, not
      the failure. */
  lemma AbortIsNeverAFailure(n: nat, k: nat, outcomes: seq<ExecOutcome>, previous: Option<Entry>,
                             readFailure: Thrown)
    requires k < n < |outcomes|
    requires forall j :: 0 <= j < k ==> outcomes[j].Wrote?
    requires outcomes[k].ExecThrew?
    ensures ExecCount(n, outcomes, false, Some(k)) == k + 1
    ensures RunResult(n, outcomes, false, Some(k), previous, readFailure) == AudioAborted
  {
    TrimPhaseSkips(0, k, n, outcomes, false, Some(k));
  }

  /** A cancel during trim k, with more lines to go, is seen before trim
      k + 1: exactly k + 1 runs are issued and the result is the abort. */
  lemma CancelDuringTrimStopsAfterIt(n: nat, k: nat, outcomes: seq<ExecOutcome>, previous: Option<Entry>,
                                     readFailure: Thrown)
    requires k + 1 < n < |outcomes|
    requires forall j :: 0 <= j <= k ==> outcomes[j].Wrote?
    ensures TrimPhase(0, n, outcomes, false, Some(k)) == AbortedBefore(k + 1)
    ensures ExecCount(n, outcomes, false, Some(k)) == k + 1
    ensures RunResult(n, outcomes, false, Some(k), previous, readFailure) == AudioAborted
  {
    TrimPhaseSkips(0, k + 1, n, outcomes, false, Some(k));
  }

  /** The abort is not checked before the concatenation: a cancel during
      the last trim still lets the concatenation run, and the result is
      the abort even though every run succeeded. */
  lemma CancelDuringLastTrimRunsConcat(n: nat, outcomes: seq<ExecOutcome>, previous: Option<Entry>,
                                       readFailure: Thrown)
    requires 1 < n < |outcomes|
    requires forall j :: 0 <= j <= n ==> outcomes[j].Wrote?
    ensures ExecCount(n, outcomes, false, Some(n - 1)) == n + 1
    ensures RunResult(n, outcomes, false, Some(n - 1), previous, readFailure) == AudioAborted
  {
    TrimPhaseSkips(0, n, n, outcomes, false, Some(n - 1));
  }

  // ---------------------------------------------------------------------
  // initializeFFMPEG and putAudioFileInFFMPEG
  // ---------------------------------------------------------------------

  /** The reasons of the rejected resource requests, in order. */
  function Rejections(results: seq<Result<string>>): (r: seq<string>)
    ensures |r| <= |results|
  {
    if results == [] then []
    else Rejections(results[..|results| - 1])
         + (if results[|results| - 1].Err? then [results[|results| - 1].message] else [])
  }

  /** The URLs of the fulfilled resource requests, in order. */
  function Fulfilled(results: seq<Result<string>>): (r: seq<string>)
    ensures |r| <= |results|
  {
    if results == [] then []
    else Fulfilled(results[..|results| - 1])
         + (if results[|results| - 1].Ok? then [results[|results| - 1].value] else [])
  }

  /** Every request is either rejected or fulfilled. */
  lemma {:induction false} RejectionsAndFulfilled(results: seq<Result<string>>)
    ensures |Rejections(results)| + |Fulfilled(results)| == |results|
    ensures Rejections(results) == [] <==> (forall k :: 0 <= k < |results| ==> results[k].Ok?)
    decreases |results|
  {
    if results != [] {
      var init := results[..|results| - 1];
      RejectionsAndFulfilled(init);
      assert forall k :: 0 <= k < |init| ==> init[k] == results[k];
    }
  }

  /** `revokeObjectURL` for each URL, in order. */
  function Revocations(urls: seq<string>): (r: seq<StoreEvent>)
    ensures |r| == |urls| && forall k :: 0 <= k < |urls| ==> r[k] == UrlRevoked(urls[k])
  {
    if urls == [] then [] else Revocations(urls[..|urls| - 1]) + [UrlRevoked(urls[|urls| - 1])]
  }

  /** What `initializeFFMPEG` throws inside its `try`: the joined rejection
      reasons, or else what `load` throws. */
  function InitFailure(results: seq<Result<string>>, loadFailure: Option<Thrown>): Option<Thrown> {
    var errors := Rejections(results);
    if errors != [] then Some(ThrownError("Error", Join(errors, "; "))) else loadFailure
  }

  /** The message of a loading failure: a thrown string as it is, else the
      error's message, else `Unknown error`. */
  function LoadErrorMessage(e: Thrown): string {
    match e
    case ThrownString(t) => t
    case ThrownError(_, m) => if m != "" then m else "Unknown error"
  }

  /** `initializeFFMPEG()`. `results` are how the three resource requests
      settle and `loadFailure` what `ffmpeg.load` throws, if anything. */
  method InitializeFfmpeg(tool: Toolchain, st: AppState, results: seq<Result<string>>, loadFailure: Option<Thrown>)
    returns (r: Outcome)
    modifies tool, st
    ensures tool.files == old(tool.files) && tool.execLog == old(tool.execLog)
    ensures old(tool.loaded) ==> r == Pass && tool.loaded && st.values == old(st.values)
    ensures !old(tool.loaded) ==>
              var failure := InitFailure(results, loadFailure);
              var events := old(st.values.events) + Revocations(Fulfilled(results));
              (failure.None? ==> r == Pass && tool.loaded && st.values == old(st.values).(events := events)) &&
              (failure.Some? ==>
                 r == Fail("Error loading FFMPEG - " + LoadErrorMessage(failure.value)) && !tool.loaded &&
                 st.values == old(st.values).(settings := old(st.values.settings).(exportAudioProcessor := Recorder),
                                              events := events))
  {
    if tool.loaded {
      return Pass;
    }
    var errors, blobUrls := SettleResources(results);
    var thrown: Option<Thrown> := None;
    if errors != [] {
      thrown := Some(ThrownError("Error", Join(errors, "; ")));
    } else if loadFailure.Some? {
      thrown := loadFailure;
    } else {
      tool.Load();
    }
    r := Pass;
    if thrown.Some? {
      st.values := st.values.(settings := st.values.settings.(exportAudioProcessor := Recorder));
      r := Fail("Error loading FFMPEG - " + LoadErrorMessage(thrown.value));
    }
    RevokeAll(st, blobUrls);
  }

  /** The loop over the settled requests: reasons of the rejected ones
      and URLs of the fulfilled ones, each in order. */
  method SettleResources(results: seq<Result<string>>) returns (errors: seq<string>, blobUrls: seq<string>)
    ensures errors == Rejections(results) && blobUrls == Fulfilled(results)
  {
    blobUrls := [];
    errors := [];
    var i := 0;
    while i < |results|
      invariant 0 <= i <= |results|
      invariant errors == Rejections(results[..i]) && blobUrls == Fulfilled(results[..i])
    {
      assert results[..i + 1][..i] == results[..i];
      if results[i].Err? {
        errors := errors + [results[i].message];
      } else {
        blobUrls := blobUrls + [results[i].value];
      }
      i := i + 1;
    }
    assert results[..i] == results;
  }

  /** The `finally` of `initializeFFMPEG`: every URL is revoked, in order. */
  method RevokeAll(st: AppState, urls: seq<string>)
    modifies st
    ensures st.values == old(st.values).(events := old(st.values.events) + Revocations(urls))
  {
    var k := 0;
    while k < |urls|
      invariant 0 <= k <= |urls|
      invariant st.values == old(st.values).(events := old(st.values.events) + Revocations(urls[..k]))
    {
      assert urls[..k + 1][..k] == urls[..k];
      st.values := st.values.(events := st.values.events + [UrlRevoked(urls[k])]);
      k := k + 1;
    }
    assert urls[..k] == urls;
  }

  /** A failed load always falls back to the recorder, and the message
      names the first cause: the joined rejections when there are some. */
  lemma InitFailureMessage(results: seq<Result<string>>, loadFailure: Option<Thrown>)
    ensures InitFailure(results, loadFailure).None? <==>
              (forall k :: 0 <= k < |results| ==> results[k].Ok?) && loadFailure.None?
    ensures Rejections(results) != [] ==>
              LoadErrorMessage(InitFailure(results, loadFailure).value) ==
                (if Join(Rejections(results), "; ") != "" then Join(Rejections(results), "; ") else "Unknown error")
  {
    RejectionsAndFulfilled(results);
  }

  /** The scratch files after `putAudioFileInFFMPEG`: nothing happens while
      the toolchain is not loaded or when listing its directory fails;
      otherwise every scratch file goes and the new file's data is written
      under its input name, unless that write fails. */
  function PutFiles(files: map<string, Entry>, loaded: bool, file: Option<FileRef>, data: Bytes,
                    listFailure: Option<string>, writeFailure: Option<string>): (r: map<string, Entry>)
    ensures !loaded || listFailure.Some? ==> r == files
    ensures loaded && listFailure.None? && file.Some? && writeFailure.None? ==>
              InputName(FileExtension(file.value.name)) in r &&
              r[InputName(FileExtension(file.value.name))] == Entry(false, data)
    ensures loaded && listFailure.None? ==>
              forall name :: name in r && !r[name].isDir ==> !StartsWith(name, "audio_output")
  {
    if !loaded || listFailure.Some? then files
    else if file.Some? && writeFailure.None? then
      Cleaned(files, true)[InputName(FileExtension(file.value.name)) := Entry(false, data)]
    else Cleaned(files, true)
  }

  /** How `putAudioFileInFFMPEG` settles: it throws only when a loaded
      toolchain fails to list its directory, or fails to take the file's
      data; the listing comes first. */
  function PutResult(loaded: bool, file: Option<FileRef>, listFailure: Option<string>,
                     writeFailure: Option<string>): (r: Outcome)
    ensures r.Fail? <==> loaded && (listFailure.Some? || (file.Some? && writeFailure.Some?))
    ensures r.Fail? && listFailure.Some? ==> r.message == "Failed to update files in FFMPEG - " + listFailure.value
    ensures r.Fail? && listFailure.None? ==> r.message == "Failed to update files in FFMPEG - " + writeFailure.value
  {
    if loaded && listFailure.Some? then Fail("Failed to update files in FFMPEG - " + listFailure.value)
    else if loaded && file.Some? && writeFailure.Some? then Fail("Failed to update files in FFMPEG - " + writeFailure.value)
    else Pass
  }

  /** `putAudioFileInFFMPEG(audioFile)`: nothing unless loaded; otherwise
      every scratch file, input included, is deleted, then the file is
      written as `audio_input.<ext>`. `listFailure` is the message the
      directory listing of `cleanFiles` throws, if it throws, and
      `writeFailure` the one `writeFile` throws. */
  method PutAudioFile(tool: Toolchain, file: Option<FileRef>, data: Bytes, listFailure: Option<string>,
                      writeFailure: Option<string>)
    returns (r: Outcome)
    modifies tool
    ensures tool.loaded == old(tool.loaded) && tool.execLog == old(tool.execLog)
    ensures tool.files == PutFiles(old(tool.files), old(tool.loaded), file, data, listFailure, writeFailure)
    ensures r == PutResult(old(tool.loaded), file, listFailure, writeFailure)
    ensures !tool.loaded ==> r == Pass && tool.files == old(tool.files)
    ensures tool.loaded && listFailure.Some? ==> tool.files == old(tool.files)
    ensures tool.loaded && listFailure.None? && (file.None? || writeFailure.Some?) ==>
              tool.files == Cleaned(old(tool.files), true)
    ensures tool.loaded && listFailure.None? && file.Some? && writeFailure.None? ==>
              tool.files == Cleaned(old(tool.files), true)[InputName(FileExtension(file.value.name)) := Entry(false, data)]
  {
    if !tool.loaded {
      return Pass;
    }
    if listFailure.Some? {
      return Fail("Failed to update files in FFMPEG - " + listFailure.value);
    }
    tool.CleanFiles(true);
    if file.Some? {
      var ext := FileExtension(file.value.name);
      if writeFailure.Some? {
        return Fail("Failed to update files in FFMPEG - " + writeFailure.value);
      }
      tool.WriteFile(InputName(ext), data);
    }
    r := Pass;
  }

  /** After a successful put, the input is the only scratch file. */
  lemma PutLeavesOnlyTheInput(files: map<string, Entry>, name: string, data: Bytes, other: string)
    requires other != InputName(FileExtension(name))
    requires StartsWith(other, "audio_input") || StartsWith(other, "audio_output")
    ensures var after := Cleaned(files, true)[InputName(FileExtension(name)) := Entry(false, data)];
            other in after ==> after[other].isDir
  {
  }

  // ---------------------------------------------------------------------
  // Chapters read from the toolchain's log
  // ---------------------------------------------------------------------

  /** What one log line gives the two chapter patterns: the start of
      `chapter … start <s.s>, end` in milliseconds, and the text after
      `title …:`. */
  datatype LogLine = LogLine(startMatch: Option<int>, titleMatch: Option<string>)

  /** The parser's module-level state: whether it waits for a chapter's
      start, the start last seen, and the chapters parsed so far. */
  datatype ParserState = ParserState(waitForChapter: bool, lastStartMs: int, chapters: seq<AudioChapter>)

  /** The chapter a title line completes: keyed `<title>_<start seconds>`. */
  function ParsedChapter(title: string, startMs: int): AudioChapter {
    var t := Trim(title);
    AudioChapter(t + "_" + SecondsText(startMs), t, Some(startMs), ToTimeString(startMs))
  }

  /** `resetChapterData(resetParsedChapters)`. */
  function ResetState(s: ParserState, resetParsed: bool): ParserState {
    ParserState(true, 0, if resetParsed then [] else s.chapters)
  }

  /** `handleFFMPEGLogForChapterData` on one line: a start line is taken
      only while waiting, a title line only after a start; a title adds
      one chapter at the end, with the start last seen, and the parser
      waits again. */
  function Step(s: ParserState, line: LogLine): (r: ParserState)
    ensures |r.chapters| == |s.chapters| + (if !s.waitForChapter && line.titleMatch.Some? then 1 else 0)
    ensures r.chapters[..|s.chapters|] == s.chapters
    ensures s.waitForChapter ==> (r.waitForChapter <==> line.startMatch.None?)
    ensures !s.waitForChapter ==> (r.waitForChapter <==> line.titleMatch.Some?)
    ensures !s.waitForChapter && line.titleMatch.Some? ==>
              r.chapters[|s.chapters|].title == Trim(line.titleMatch.value) &&
              r.chapters[|s.chapters|].startMs == Some(s.lastStartMs)
  {
    if s.waitForChapter then
      if line.startMatch.Some? then s.(waitForChapter := false, lastStartMs := line.startMatch.value) else s
    else if line.titleMatch.Some? then
      ResetState(s.(chapters := s.chapters + [ParsedChapter(line.titleMatch.value, s.lastStartMs)]), false)
    else s
  }

  /** The parser after the lines, in order. */
  function ParseLines(s: ParserState, lines: seq<LogLine>): ParserState {
    if lines == [] then s else Step(ParseLines(s, lines[..|lines| - 1]), lines[|lines| - 1])
  }

  /** A start line then a title line add exactly one chapter and leave the
      parser waiting again. */
  lemma StartThenTitleAddsChapter(s: ParserState, startMs: int, title: string, a: LogLine, b: LogLine)
    requires s.waitForChapter && a.startMatch == Some(startMs) && b.titleMatch == Some(title)
    ensures Step(Step(s, a), b) == ParserState(true, 0, s.chapters + [ParsedChapter(title, startMs)])
  {
  }

  /** A line without the pattern the parser waits for changes nothing. */
  lemma OtherLinesIgnored(s: ParserState, line: LogLine)
    requires if s.waitForChapter then line.startMatch.None? else line.titleMatch.None?
    ensures Step(s, line) == s
  {
  }

  /** Parsing only appends: the chapters already parsed stay, in order. */
  lemma {:induction false} ParsingAppends(s: ParserState, lines: seq<LogLine>)
    ensures var r := ParseLines(s, lines);
            |s.chapters| <= |r.chapters| && r.chapters[..|s.chapters|] == s.chapters
    decreases |lines|
  {
    if lines != [] {
      var mid := ParseLines(s, lines[..|lines| - 1]);
      ParsingAppends(s, lines[..|lines| - 1]);
      Ordered.PrefixOfPrefix(s.chapters, mid.chapters, Step(mid, lines[|lines| - 1]).chapters);
    }
  }

  /** From a waiting parser, each chapter takes two lines (a start, then a
      title): at most half the lines add a chapter. */
  lemma {:induction false} ChaptersNeedTwoLines(s: ParserState, lines: seq<LogLine>)
    requires s.waitForChapter
    ensures var r := ParseLines(s, lines);
            2 * (|r.chapters| - |s.chapters|) + (if r.waitForChapter then 0 else 1) <= |lines|
    decreases |lines|
  {
    if lines != [] {
      ChaptersNeedTwoLines(s, lines[..|lines| - 1]);
    }
  }

  /** The module-level chapter parser. */
  class ChapterLog {
    var waitForChapter: bool
    var lastStartMs: int
    var chapters: seq<AudioChapter>

    function State(): ParserState
      reads this
    {
      ParserState(waitForChapter, lastStartMs, chapters)
    }

    /** The initial values: waiting, no chapter. */
    constructor ()
      ensures State() == ParserState(true, 0, [])
    {
      waitForChapter := true;
      lastStartMs := 0;
      chapters := [];
    }

    /** `handleFFMPEGLogForChapterData`. */
    method HandleLog(line: LogLine)
      modifies this
      ensures State() == Step(old(State()), line)
    {
      if waitForChapter {
        if line.startMatch.Some? {
          lastStartMs := line.startMatch.value;
          waitForChapter := false;
        }
      } else {
        if line.titleMatch.Some? {
          chapters := chapters + [ParsedChapter(line.titleMatch.value, lastStartMs)];
          ResetChapterData(false);
        }
      }
    }

    /** `resetChapterData(resetParsedChapters)`. */
    method ResetChapterData(resetParsed: bool)
      modifies this
      ensures State() == ResetState(old(State()), resetParsed)
    {
      lastStartMs := 0;
      waitForChapter := true;
      if resetParsed {
        chapters := [];
      }
    }
  }

  /** `getChapterData(audioFile)`: the parser is reset; unless the
      toolchain is loaded no run is issued and no chapter is found;
      otherwise the input is probed and the lines it logs are parsed in
      order (a failing probe is only logged). */
  method GetChapterData(tool: Toolchain, log: ChapterLog, fileName: string, lines: seq<LogLine>)
    returns (chapters: seq<AudioChapter>)
    modifies tool, log
    ensures tool.loaded == old(tool.loaded) && tool.files == old(tool.files)
    ensures !tool.loaded ==> chapters == [] && tool.execLog == old(tool.execLog)
    ensures tool.loaded ==>
              tool.execLog == old(tool.execLog) + [["-hide_banner", "-y", "-i", InputName(FileExtension(fileName))]] &&
              chapters == ParseLines(ParserState(true, 0, []), lines).chapters
    ensures log.chapters == chapters
  {
    log.ResetChapterData(true);
    if !tool.loaded {
      return log.chapters;
    }
    var ext := FileExtension(fileName);
    tool.Inspect(["-hide_banner", "-y", "-i", InputName(ext)]);
    FeedLines(log, lines);
    chapters := log.chapters;
  }

  /** The log handler called on each line the probe prints, in order. */
  method FeedLines(log: ChapterLog, lines: seq<LogLine>)
    modifies log
    ensures log.State() == ParseLines(old(log.State()), lines)
  {
    var k := 0;
    while k < |lines|
      invariant 0 <= k <= |lines|
      invariant log.State() == ParseLines(old(log.State()), lines[..k])
    {
      assert lines[..k + 1][..k] == lines[..k];
      log.HandleLog(lines[k]);
      k := k + 1;
    }
    assert lines[..k] == lines;
  }
}
