/** The application's shared stores (`src/lib/stores.ts`) that the modelled
    operations read and write, gathered in one object. A store's `set` is an
    assignment; notifications that matter to the model are recorded in
    `events`, and every value given to `subtitleChange$` in `subtitleChanges`. */
module Stores {
  import opened Wrappers
  import opened Ordered
  import opened Util
  import opened General
  import opened Settings

  /** A `File`, known by its name. */
  datatype FileRef = FileRef(name: string)

  /** What is persisted for a subtitle file (`SubtitleData`). */
  datatype SubtitleData = SubtitleData(name: string, subtitles: seq<Subtitle>)

  /** Observable steps whose order matters. */
  datatype StoreEvent =
    | SubtitlesStoreSet                        // currentSubtitles$.set(...)
    | ExtensionDataSet                         // extensionData$.set(...)
    | AudioContextAssigned(cover: string, source: string)
    | UrlRevoked(url: string)                  // URL.revokeObjectURL(url)
    | SyncRequested                            // the 'ttu-action' sync event for the subtitles

  /** The value of every store at one moment. An operation states its new
      state as an update of the old value, so every store it does not name
      is unchanged. */
  datatype StoreValues = StoreValues(
    settings: Settings,
    lastError: string,
    skipKeyListener: bool,
    bookMatchedBy: string,
    persistedSubtitleData: Option<SubtitleData>,   // extensionData.subtitleData
    currentSubtitleFile: Option<FileRef>,
    currentSubtitles: OrderedMap<string, Subtitle>,
    currentAudioFile: Option<FileRef>,
    currentCoverUrl: string,
    currentAudioSourceUrl: string,
    currentAudioChapters: seq<AudioChapter>,
    currentAudioLoaded: bool,
    canExportToAnki: bool,
    isAnkiconnectAndroid: bool,
    exportProgress: int,
    exportCancelController: AbortController?,
    isRecording: bool,
    showBookmarkedSubtitlesOnly: bool,
    bookmarkedSubtitles: seq<string>,
    showSubtitlesForMergeOnly: bool,
    subtitlesForMerge: seq<string>,
    activeSubtitle: ActiveSubtitle,
    paused: bool,
    durationMs: int,
    playLine: Option<PlayLineData>,
    subtitleChanges: seq<SubtitleChange>,
    events: seq<StoreEvent>)

  /** The stores' initial values, with the given settings. */
  function InitialValues(settings: Settings): (v: StoreValues)
    ensures v.settings == settings && v.lastError == "" && !v.skipKeyListener
    ensures v.currentSubtitles == EmptyMap() && v.currentSubtitleFile.None?
    ensures v.bookmarkedSubtitles == [] && v.subtitlesForMerge == []
    ensures v.exportProgress == 0 && v.exportCancelController == null
    ensures v.paused && v.durationMs == 0 && v.subtitleChanges == [] && v.events == []
  {
    StoreValues(settings, "", false, "", None, None, EmptyMap(), None, "", "", [], false, false, false,
                0, null, false, false, [], false, [], ActiveSubtitle("", "", true), true, 0, None, [], [])
  }

  /** The application's stores. Every store is written through `values`,
      one store at a time. */
  class AppState {
    var values: StoreValues

    constructor (settings: Settings)
      ensures values == InitialValues(settings)
    {
      values := InitialValues(settings);
    }
  }
}
