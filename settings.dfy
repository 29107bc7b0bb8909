/** The settings the modelled code reads (`src/lib/settings.ts`), as one
    value record. Times are integer milliseconds. */
module Settings {

  datatype AudioProcessor = Recorder | Ffmpeg

  datatype AudioFormat = Mp3 | Ogg | Opus {
    /** The enum's string value, also the file extension. */
    function Text(): (r: string)
      ensures r in {"mp3", "ogg", "opus"}
    {
      match this
      case Mp3 => "mp3"
      case Ogg => "ogg"
      case Opus => "opus"
    }
  }

  datatype ExportFieldMode = Before | After | Replace

  datatype AnkiDuplicateMode = Disabled | Deck | DeckAndChildren | Collection

  datatype Settings = Settings(
    subtitlesGlobalStartPaddingMs: int,
    subtitlesGlobalEndPaddingMs: int,
    subtitlesEnablePersist: bool,
    playerEnableCover: bool,
    playerEnableChapters: bool,
    exportFieldMode: ExportFieldMode,
    exportAudioProcessor: AudioProcessor,
    exportAudioFormat: AudioFormat,
    exportAudioBitrate: int,
    ankiAddSubtitleTag: bool,
    ankiAddAudioTag: bool,
    ankiTagList: string,
    ankiDuplicateMode: AnkiDuplicateMode,
    ankiUrl: string,
    ankiDeck: string,
    ankiModel: string,
    ankiSentenceField: string,
    ankiSoundField: string,
    ankiAllowEmptyKeyField: bool
  )
}
