/** The shared records of `src/lib/general.ts`. Times are integer
    milliseconds; an optional number (`adjustedStartSeconds?`) is an Option. */
module General {
  import opened Wrappers

  /** One subtitle line. `original*` hold the parsed values, the others the
      padded, clamped and possibly edited ones; `adjusted*` are set by the
      editors and cleared by a restore. */
  datatype Subtitle = Subtitle(
    id: string,
    originalStartMs: int,
    adjustedStartMs: Option<int>,
    startMs: int,
    startTime: string,
    originalEndMs: int,
    adjustedEndMs: Option<int>,
    endMs: int,
    endTime: string,
    originalText: string,
    text: string,
    subIndex: int
  )

  /** One chapter of an audio book (`title` is the source's `label`); `startMs` is None when a part of the
      chapter key did not parse (the source's NaN). */
  datatype AudioChapter = AudioChapter(key: string, title: string, startMs: Option<int>, startText: string)

  /** What loading an audio file gives (`AudioResult`): the cover's object
      URL (`''` for none), the chapters and the audio's object URL. */
  datatype AudioResult = AudioResult(coverUrl: string, chapters: seq<AudioChapter>, audioSourceUrl: string)

  /** The event that tells the player which lines changed; an absent
      `replaceTrack` is false. */
  datatype SubtitleChange = SubtitleChange(subtitles: seq<Subtitle>, replaceTrack: bool)

  /** The line the player should highlight (`ActiveSubtitle`). */
  datatype ActiveSubtitle = ActiveSubtitle(previous: string, current: string, useTimeFallback: bool)

  /** The actions a line can be given (the `Action` enum of `actions.ts`). */
  datatype Action =
    | NoAction | TogglePlayback | Rewind | RewindAlt | FastForward | FastForwardAlt
    | RestartPlayback | TogglePlayPause | TogglePlaybackLoop
    | ToggleBookmark | ToggleShowBookmarked | ToggleMerge | ToggleShowForMerge
    | AlignSubtitle | EditSubtitle | RestoreSubtitle | CopySubtitle
    | PreviousSubtitle | NextSubtitle | ExportNew | ExportUpdate
    | OpenLastExportedCard | CancelExport

  /** A request to the player (`PlayLineData`, without the recorder callbacks). */
  datatype PlayLineData = PlayLineData(action: Action, subtitles: seq<Subtitle>, skipUpdates: bool, keepPauseState: bool)

  /** `getDummySubtitle(startSeconds, endSeconds = 0)`: a placeholder line,
      id `-1` and position -1, with empty texts and time stamps, whose
      original and effective times are the given ones. */
  function DummySubtitle(startMs: int, endMs: int := 0): (r: Subtitle)
    ensures r.id == "-1" && r.subIndex == -1
    ensures r.startMs == r.originalStartMs == startMs
    ensures r.endMs == r.originalEndMs == endMs
    ensures r.adjustedStartMs.None? && r.adjustedEndMs.None?
    ensures r.text == r.originalText == r.startTime == r.endTime == ""
  {
    Subtitle("-1", startMs, None, startMs, "", endMs, None, endMs, "", "", "", -1)
  }

  /** Leaving out the end gives a line that ends at 0. */
  lemma DummySubtitleEndDefault(startMs: int)
    ensures DummySubtitle(startMs) == DummySubtitle(startMs, 0)
    ensures DummySubtitle(startMs).endMs == 0
  {
  }

  /** The store of open dialogs (`createDialogsStore`). */
  class DialogsStore<D> {
    var dialogs: seq<D>

    constructor ()
      ensures dialogs == []
    {
      dialogs := [];
    }

    /** `add(dialog)`: pushes the dialog after the open ones. */
    method Add(dialog: D)
      modifies this
      ensures dialogs == old(dialogs) + [dialog]
      ensures |dialogs| == |old(dialogs)| + 1 && dialogs[..|old(dialogs)|] == old(dialogs)
    {
      dialogs := dialogs + [dialog];
    }
  }
}
