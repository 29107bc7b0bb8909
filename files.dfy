/** Loading subtitle and audio files (`src/lib/files.ts`): parser output
    becomes the ordered id -> line collection, media metadata becomes
    chapters and a cover, and the stores take the new file in a fixed order.
    Times are integer milliseconds; the subtitle parser, the VTT cue loader,
    the metadata analysis and `URL.createObjectURL` are inputs. */
module Files {
  import opened Wrappers
  import opened JsText
  import opened Ordered
  import opened Util
  import opened General
  import opened Settings
  import opened Stores
  import opened MediaInfo
  import Ffmpeg

  // ---------------------------------------------------------------------
  // updateSubtitles: from parser output to the collection
  // ---------------------------------------------------------------------

  /** One parsed line: an `srt-parser-2` result or a VTT cue (a cue has no
      id of its own; its `id` is not read). */
  datatype ParsedLine = ParsedLine(id: string, startMs: int, endMs: int, text: string)

  datatype SubtitleFormat = Srt | Vtt

  /** The format chosen by the file name's ending; None for any other. */
  function FormatOf(fileName: string): (r: Option<SubtitleFormat>)
    ensures r == Some(Srt) <==> EndsWith(fileName, ".srt") || EndsWith(fileName, ".txt")
    ensures r == Some(Vtt) <==> !EndsWith(fileName, ".srt") && !EndsWith(fileName, ".txt") && EndsWith(fileName, ".vtt")
  {
    if EndsWith(fileName, ".srt") || EndsWith(fileName, ".txt") then Some(Srt)
    else if EndsWith(fileName, ".vtt") then Some(Vtt)
    else None
  }

  /** `Math.max(0, start + padding)`. */
  function PaddedStart(startMs: int, padMs: int): (r: int)
    ensures r >= 0 && r >= startMs + padMs
    ensures r == 0 || r == startMs + padMs
  {
    if startMs + padMs < 0 then 0 else startMs + padMs
  }

  /** The padded end: clamped into `[0, duration]` when a duration is known
      (non-zero), else only kept from going negative. */
  function PaddedEnd(endMs: int, padMs: int, durationMs: int): (r: int)
    ensures durationMs == 0 ==> r >= 0 && r >= endMs + padMs && (r == 0 || r == endMs + padMs)
    ensures durationMs > 0 ==> 0 <= r <= durationMs
    ensures durationMs > 0 && 0 <= endMs + padMs <= durationMs ==> r == endMs + padMs
  {
    if durationMs != 0 then Between(0, durationMs, endMs + padMs)
    else if endMs + padMs < 0 then 0 else endMs + padMs
  }

  /** The id a line is stored under: verbatim for `.srt`/`.txt`, its
      1-based position for `.vtt`. */
  function LineId(format: SubtitleFormat, p: ParsedLine, index: nat): string {
    if format == Srt then p.id else NatToString(index + 1)
  }

  /** The line built from the parse result at `index`. */
  function LoadedLine(format: SubtitleFormat, p: ParsedLine, index: nat, s: Settings, durationMs: int): (r: Subtitle)
    ensures r.originalStartMs == p.startMs && r.originalEndMs == p.endMs
    ensures r.adjustedStartMs.None? && r.adjustedEndMs.None?
    ensures r.text == r.originalText == Trim(p.text) && r.subIndex == index
    ensures r.startMs >= 0 && r.startMs >= p.startMs + s.subtitlesGlobalStartPaddingMs
    ensures durationMs > 0 ==> 0 <= r.endMs <= durationMs
    ensures durationMs == 0 ==> r.endMs >= 0
    ensures format == Srt ==> r.id == p.id
  {
    var start := PaddedStart(p.startMs, s.subtitlesGlobalStartPaddingMs);
    var end := PaddedEnd(p.endMs, s.subtitlesGlobalEndPaddingMs, durationMs);
    var text := Trim(p.text);
    Subtitle(LineId(format, p, index), p.startMs, None, start, ToTimeStamp(start),
             p.endMs, None, end, ToTimeStamp(end), text, text, index)
  }

  /** Every parse result, in order, as a line. */
  function LoadedLines(format: SubtitleFormat, parsed: seq<ParsedLine>, s: Settings, durationMs: int): (r: seq<Subtitle>)
    ensures |r| == |parsed|
  {
    seq(|parsed|, k requires 0 <= k < |parsed| => LoadedLine(format, parsed[k], k, s, durationMs))
  }

  /** Nothing keeps a line's start before its end: a start padding larger
      than the line gives a line that ends before it starts. */
  lemma StartMayFollowEnd()
    ensures var s := Settings(500, 0, false, false, false, Replace, Recorder, Mp3, 0, false, false, "",
                               Disabled, "", "", "", "", "", false);
            var line := LoadedLine(Srt, ParsedLine("1", 1000, 1200, "a"), 0, s, 0);
            line.startMs == 1500 && line.endMs == 1200
  {
  }

  /** `subtitles.set(line.id, line)` for every line in order. */
  function Collect(lines: seq<Subtitle>): (r: OrderedMap<string, Subtitle>)
    ensures r.Valid()
    ensures |r.keys| <= |lines|
    ensures lines != [] ==> lines[|lines| - 1].id in r.entries && r.entries[lines[|lines| - 1].id] == lines[|lines| - 1]
  {
    if lines == [] then EmptyMap()
    else Collect(lines[..|lines| - 1]).Set(lines[|lines| - 1].id, lines[|lines| - 1])
  }

  /** The collection's keys are the lines' ids, each at the place of its
      first occurrence. */
  lemma {:induction false} CollectKeys(lines: seq<Subtitle>, k: string)
    ensures k in Collect(lines).entries <==> exists i :: 0 <= i < |lines| && lines[i].id == k
  {
    if lines != [] {
      var init := lines[..|lines| - 1];
      CollectKeys(init, k);
      if exists i :: 0 <= i < |init| && init[i].id == k {
        var i :| 0 <= i < |init| && init[i].id == k;
        assert lines[i].id == k;
      }
      if exists i :: 0 <= i < |lines| && lines[i].id == k {
        var i :| 0 <= i < |lines| && lines[i].id == k;
        if i < |init| {
          assert init[i].id == k;
        }
      }
    }
  }

  /** A repeated id keeps the line set last. */
  lemma {:induction false} CollectLastWins(lines: seq<Subtitle>, i: nat)
    requires i < |lines|
    requires forall j :: i < j < |lines| ==> lines[j].id != lines[i].id
    ensures lines[i].id in Collect(lines).entries
    ensures Collect(lines).entries[lines[i].id] == lines[i]
  {
    var init := lines[..|lines| - 1];
    if i < |init| {
      assert init[i] == lines[i];
      CollectLastWins(init, i);
    }
  }

  /** With distinct ids nothing is overwritten: the collection lists every
      line, in parse order. */
  lemma CollectDistinct(lines: seq<Subtitle>)
    requires forall i, j :: 0 <= i < j < |lines| ==> lines[i].id != lines[j].id
    ensures |Collect(lines).keys| == |lines|
    ensures forall i :: 0 <= i < |lines| ==> Collect(lines).keys[i] == lines[i].id
    ensures Collect(lines).Values() == lines
  {
    CollectDistinctKeys(lines);
    var m := Collect(lines);
    forall i | 0 <= i < |lines|
      ensures m.entries[m.keys[i]] == lines[i]
    {
      CollectLastWins(lines, i);
    }
    assert m.Values() == lines;
  }

  /** With distinct ids every id is a new key, appended in turn. */
  lemma {:induction false} CollectDistinctKeys(lines: seq<Subtitle>)
    requires forall i, j :: 0 <= i < j < |lines| ==> lines[i].id != lines[j].id
    ensures |Collect(lines).keys| == |lines|
    ensures forall i :: 0 <= i < |lines| ==> Collect(lines).keys[i] == lines[i].id
  {
    if lines != [] {
      var init := lines[..|lines| - 1];
      var last := lines[|lines| - 1];
      CollectDistinctKeys(init);
      CollectKeys(init, last.id);
      assert Collect(lines).keys == Collect(init).keys + [last.id];
    }
  }

  /** Lines numbered `"1"`, `"2"`, ... by position have distinct ids. */
  lemma PositionIdsDistinct(lines: seq<Subtitle>)
    requires forall i :: 0 <= i < |lines| ==> lines[i].id == NatToString(i + 1)
    ensures forall i, j :: 0 <= i < j < |lines| ==> lines[i].id != lines[j].id
  {
    forall i, j | 0 <= i < j < |lines| ensures lines[i].id != lines[j].id {
      if lines[i].id == lines[j].id {
        NatToStringInjective(i + 1, j + 1);
      }
    }
  }

  /** The ids the loaded lines get. */
  lemma LoadedIds(format: SubtitleFormat, parsed: seq<ParsedLine>, s: Settings, durationMs: int)
    ensures forall i :: 0 <= i < |parsed| ==>
              LoadedLines(format, parsed, s, durationMs)[i].id == LineId(format, parsed[i], i)
  {
  }

  /** `.vtt` ids are `"1"`, `"2"`, ... so no cue overwrites another and the
      collection holds every cue in order. */
  lemma VttKeepsEveryCue(parsed: seq<ParsedLine>, s: Settings, durationMs: int)
    ensures var lines := LoadedLines(Vtt, parsed, s, durationMs);
      Collect(lines).Values() == lines &&
      forall i :: 0 <= i < |parsed| ==> Collect(lines).keys[i] == NatToString(i + 1)
  {
    var lines := LoadedLines(Vtt, parsed, s, durationMs);
    LoadedIds(Vtt, parsed, s, durationMs);
    PositionIdsDistinct(lines);
    CollectDistinct(lines);
  }

  /** Two lines with the same id leave one entry, the later line: this
      is what happens to a repeated `.srt` id, which is taken verbatim. */
  lemma RepeatedIdOverwrites(a: Subtitle, b: Subtitle)
    requires a.id == b.id
    ensures Collect([a, b]).keys == [a.id] && Collect([a, b]).entries[a.id] == b
  {
    var none: seq<Subtitle> := [];
    assert [a][..0] == none;
    assert Collect(none) == EmptyMap();
    var first := Collect([a]);
    assert first == Collect(none).Set(a.id, a);
    assert [a, b][..1] == [a];
    assert Collect([a, b]) == first.Set(b.id, b);
  }

  /** The index loop filling the map (each line is built by `LoadedLine`). */
  method CollectLines(lines: seq<Subtitle>) returns (m: OrderedMap<string, Subtitle>)
    ensures m == Collect(lines)
  {
    m := EmptyMap();
    var index := 0;
    while index < |lines|
      invariant 0 <= index <= |lines|
      invariant m == Collect(lines[..index])
    {
      assert lines[..index + 1][..index] == lines[..index];
      m := m.Set(lines[index].id, lines[index]);
      index := index + 1;
    }
    assert lines[..index] == lines;
  }

  /** The URL revoked in the `finally`: the `.vtt` file's object URL, else `''`. */
  function SubUrl(fileName: string, objectUrl: string): string {
    if FormatOf(fileName) == Some(Vtt) then objectUrl else ""
  }

  /** What `updateSubtitles` returns or throws: the format check comes
      first, then the parser's failure, then the collection. */
  function SubtitlesResult(fileName: string, parsed: Result<seq<ParsedLine>>, s: Settings, durationMs: int)
    : (r: Result<OrderedMap<string, Subtitle>>)
    ensures r.Ok? ==> r.value.Valid()
  {
    match FormatOf(fileName)
    case None => Err("File needs to be .srt,.txt or .vtt")
    case Some(format) =>
      if parsed.Err? then Err(parsed.message) else Ok(Collect(LoadedLines(format, parsed.value, s, durationMs)))
  }

  /** Only a `.srt`, `.txt` or `.vtt` name with a successful parse yields a
      collection, and it holds one entry per distinct id. */
  lemma SubtitlesResultCases(fileName: string, parsed: Result<seq<ParsedLine>>, s: Settings, durationMs: int)
    ensures var r := SubtitlesResult(fileName, parsed, s, durationMs);
      && (r.Ok? <==> parsed.Ok? && (EndsWith(fileName, ".srt") || EndsWith(fileName, ".txt") || EndsWith(fileName, ".vtt")))
      && (!EndsWith(fileName, ".srt") && !EndsWith(fileName, ".txt") && !EndsWith(fileName, ".vtt") ==>
            r == Err("File needs to be .srt,.txt or .vtt"))
  {
  }

  /** Builds the collection the loops of `updateSubtitles` build. */
  method LoadSubtitles(fileName: string, parsed: Result<seq<ParsedLine>>, s: Settings, durationMs: int)
    returns (r: Result<OrderedMap<string, Subtitle>>)
    ensures r == SubtitlesResult(fileName, parsed, s, durationMs)
  {
    var format := FormatOf(fileName);
    if format.None? {
      r := Err("File needs to be .srt,.txt or .vtt");
    } else if parsed.Err? {
      r := Err(parsed.message);
    } else {
      var m := CollectLines(LoadedLines(format.value, parsed.value, s, durationMs));
      r := Ok(m);
    }
  }

  /** `updateSubtitles(file, document, updateContext)`. `parsed` is what the
      file's parser gives for its format (an Err is the message of a read or
      load failure) and `objectUrl` the URL a `.vtt` file is given. The
      player is paused first; the URL (`''` unless `.vtt`) is revoked last,
      whatever happened. */
  method UpdateSubtitles(st: AppState, fileName: string, parsed: Result<seq<ParsedLine>>, objectUrl: string,
                         updateContext: bool)
    returns (r: Result<OrderedMap<string, Subtitle>>)
    modifies st
    ensures r == SubtitlesResult(fileName, parsed, old(st.values.settings), old(st.values.durationMs))
    ensures var after := old(st.values).(paused := true);
            var revoked := old(st.values.events) + [UrlRevoked(SubUrl(fileName, objectUrl))];
            if r.Ok? && updateContext then
              st.values == after.(bookmarkedSubtitles := [], subtitlesForMerge := [],
                                  currentSubtitleFile := Some(FileRef(fileName)),
                                  currentSubtitles := r.value,
                                  subtitleChanges := old(st.values.subtitleChanges) + [SubtitleChange(r.value.Values(), true)],
                                  events := revoked)
            else st.values == after.(events := revoked)
  {
    st.values := st.values.(paused := true);
    r := LoadSubtitles(fileName, parsed, st.values.settings, st.values.durationMs);
    if r.Ok? && updateContext {
      SetSubtitleContext(st, Some(FileRef(fileName)), r.value);
    }
    st.values := st.values.(events := st.values.events + [UrlRevoked(SubUrl(fileName, objectUrl))]);
  }

  /** `setSubtitleContext(file, subtitles)`: the selection sets are emptied,
      the file and collection replaced, and every line is sent to the
      player as a new track. */
  method SetSubtitleContext(st: AppState, file: Option<FileRef>, subtitles: OrderedMap<string, Subtitle>)
    requires subtitles.Valid()
    modifies st
    ensures st.values == old(st.values).(bookmarkedSubtitles := [], subtitlesForMerge := [],
                                         currentSubtitleFile := file, currentSubtitles := subtitles,
                                         subtitleChanges := old(st.values.subtitleChanges) + [SubtitleChange(subtitles.Values(), true)])
  {
    st.values := st.values.(bookmarkedSubtitles := []);
    st.values := st.values.(subtitlesForMerge := []);
    st.values := st.values.(currentSubtitleFile := file);
    st.values := st.values.(currentSubtitles := subtitles);
    st.values := st.values.(subtitleChanges := st.values.subtitleChanges + [SubtitleChange(subtitles.Values(), true)]);
  }

  // ---------------------------------------------------------------------
  // updateAudio: chapters from the metadata's Menu tracks
  // ---------------------------------------------------------------------

  /** One track of the metadata: its `@type`, its `extra` entries (key and
      value) in `Object.keys` order, and its `Cover_Data`. */
  datatype Track = Track(kind: string, extra: seq<(string, string)>, coverData: Option<string>)

  /** The pattern `_\d{2}_\d{2}_\d{2}_\d{3}` matches `s` at position `i`. */
  predicate StampAt(s: string, i: int) {
    0 <= i && i + 13 <= |s| &&
    s[i] == '_' && IsDigit(s[i + 1]) && IsDigit(s[i + 2]) &&
    s[i + 3] == '_' && IsDigit(s[i + 4]) && IsDigit(s[i + 5]) &&
    s[i + 6] == '_' && IsDigit(s[i + 7]) && IsDigit(s[i + 8]) &&
    s[i + 9] == '_' && IsDigit(s[i + 10]) && IsDigit(s[i + 11]) && IsDigit(s[i + 12])
  }

  /** `key.match(/_(\d{2}_\d{2}_\d{2}_\d{3})/)` finds a match. */
  predicate HasStamp(key: string) {
    exists i :: 0 <= i < |key| && StampAt(key, i)
  }

  /** A track that contributes chapters: a Menu whose first extra key
      carries a time stamp. */
  predicate IsChapterMenu(t: Track) {
    t.kind == "Menu" && t.extra != [] && HasStamp(t.extra[0].0)
  }

  /** Parts 1 to 4 of `key.split('_')` read as hours, minutes, seconds and
      milliseconds; None is NaN (a part missing or without leading digits). */
  function KeyStartMs(key: string): (r: Option<int>)
    ensures var parts := Split(key, '_');
      r.Some? <==> ParsePart(parts, 1).Some? && ParsePart(parts, 2).Some? &&
                   ParsePart(parts, 3).Some? && ParsePart(parts, 4).Some?
    ensures |Split(key, '_')| < 5 ==> r.None?
  {
    StartOfParts(Split(key, '_'))
  }

  /** `parseInt(parts[1]) * 3600 + parseInt(parts[2]) * 60 +
      parseInt(parts[3]) + parseInt(parts[4]) / 1000`, in milliseconds. */
  function StartOfParts(parts: seq<string>): Option<int> {
    var h, m, s, ms := ParsePart(parts, 1), ParsePart(parts, 2), ParsePart(parts, 3), ParsePart(parts, 4);
    if h.Some? && m.Some? && s.Some? && ms.Some? then
      Some(h.value * 3600000 + m.value * 60000 + s.value * 1000 + ms.value)
    else None
  }

  /** The parts of a `_HH_MM_SS_mmm` stamp, zero-padded, give the time
      HH hours, MM minutes, SS seconds and mmm milliseconds in. */
  lemma StampPartsStart(parts: seq<string>, h: nat, m: nat, s: nat, ms: nat)
    requires |parts| == 5
    requires parts[1] == Padded(h, 2) && parts[2] == Padded(m, 2)
    requires parts[3] == Padded(s, 2) && parts[4] == Padded(ms, 3)
    ensures StartOfParts(parts) == Some(h * 3600000 + m * 60000 + s * 1000 + ms)
  {
    PaddedPart(parts, 1, h, 2);
    PaddedPart(parts, 2, m, 2);
    PaddedPart(parts, 3, s, 2);
    PaddedPart(parts, 4, ms, 3);
    PartsStart(parts, h, m, s, ms);
  }

  lemma PaddedPart(parts: seq<string>, k: nat, n: nat, width: nat)
    requires k < |parts| && parts[k] == Padded(n, width)
    ensures ParsePart(parts, k) == Some(n)
  {
    ParsePaddedInt(n, width);
  }

  lemma PartsStart(parts: seq<string>, h: int, m: int, s: int, ms: int)
    requires ParsePart(parts, 1) == Some(h) && ParsePart(parts, 2) == Some(m)
    requires ParsePart(parts, 3) == Some(s) && ParsePart(parts, 4) == Some(ms)
    ensures StartOfParts(parts) == Some(h * 3600000 + m * 60000 + s * 1000 + ms)
  {
  }

  /** A key with fewer than five `_`-separated parts starts at NaN. */
  lemma ShortKeyIsNaN(parts: seq<string>)
    requires |parts| < 5
    ensures StartOfParts(parts).None?
  {
  }

  /** `${startSeconds}`: the number of seconds, or `NaN`. */
  function StartNumberText(startMs: Option<int>): string {
    if startMs.Some? then SecondsText(startMs.value) else "NaN"
  }

  /** `toTimeString(startSeconds)`; every part of NaN is `NaN`. */
  function StartTimeText(startMs: Option<int>): string {
    if startMs.Some? then ToTimeString(startMs.value) else "NaN:NaN:NaN"
  }

  /** The chapter an extra entry (key, label) gives. */
  function ChapterOf(entry: (string, string)): AudioChapter {
    var start := KeyStartMs(entry.0);
    AudioChapter(entry.1 + "_" + StartNumberText(start), entry.1, start, StartTimeText(start))
  }

  /** The chapters of a list of extra entries, one each, in order. */
  function ChaptersOf(entries: seq<(string, string)>): (r: seq<AudioChapter>)
    ensures |r| == |entries|
    ensures forall k :: 0 <= k < |entries| ==>
              r[k].title == entries[k].1 && r[k].startMs == KeyStartMs(entries[k].0) &&
              StartsWith(r[k].key, entries[k].1 + "_")
  {
    seq(|entries|, k requires 0 <= k < |entries| => ChapterOf(entries[k]))
  }

  lemma ChaptersOfSnoc(entries: seq<(string, string)>, e: (string, string))
    ensures ChaptersOf(entries + [e]) == ChaptersOf(entries) + [ChapterOf(e)]
  {
    assert (entries + [e])[|entries|] == e;
    forall k | 0 <= k < |entries| ensures ChaptersOf(entries + [e])[k] == ChaptersOf(entries)[k] {
      assert (entries + [e])[k] == entries[k];
    }
  }

  lemma ChaptersOfAppend(a: seq<(string, string)>, b: seq<(string, string)>)
    ensures ChaptersOf(a + b) == ChaptersOf(a) + ChaptersOf(b)
  {
    forall k | 0 <= k < |a| + |b| ensures ChaptersOf(a + b)[k] == (ChaptersOf(a) + ChaptersOf(b))[k] {
      if k < |a| {
        assert (a + b)[k] == a[k];
      } else {
        assert (a + b)[k] == b[k - |a|];
      }
    }
  }

  /** The extra entries a track contributes: all of them when it is a
      chapter menu, none otherwise. */
  function MenuEntries(t: Track): seq<(string, string)> {
    if IsChapterMenu(t) then t.extra else []
  }

  /** The entries of every contributing track, in track order. */
  function ChapterEntries(tracks: seq<Track>): seq<(string, string)> {
    if tracks == [] then [] else ChapterEntries(tracks[..|tracks| - 1]) + MenuEntries(tracks[|tracks| - 1])
  }

  /** The chapters of every track, in track order. */
  function AllChapters(tracks: seq<Track>): (r: seq<AudioChapter>)
    ensures |r| == |ChapterEntries(tracks)|
  {
    ChaptersOf(ChapterEntries(tracks))
  }

  /** The nested loops of `updateAudio` that push the chapters. */
  method ExtractChapters(tracks: seq<Track>) returns (chapters: seq<AudioChapter>)
    ensures chapters == AllChapters(tracks)
  {
    chapters := [];
    var index := 0;
    while index < |tracks|
      invariant 0 <= index <= |tracks|
      invariant chapters == ChaptersOf(ChapterEntries(tracks[..index]))
    {
      var track := tracks[index];
      ChapterEntriesStep(tracks, index);
      ChaptersOfAppend(ChapterEntries(tracks[..index]), MenuEntries(track));
      if track.kind != "Menu" || track.extra == [] || !HasStamp(track.extra[0].0) {
        index := index + 1;
        continue;
      }
      chapters := PushChapters(chapters, track.extra);
      index := index + 1;
    }
    assert tracks[..index] == tracks;
  }

  lemma ChapterEntriesStep(tracks: seq<Track>, index: nat)
    requires index < |tracks|
    ensures ChapterEntries(tracks[..index + 1]) == ChapterEntries(tracks[..index]) + MenuEntries(tracks[index])
  {
    assert tracks[..index + 1][..index] == tracks[..index];
  }

  /** The inner loop: one chapter per extra key. */
  method PushChapters(chapters: seq<AudioChapter>, extra: seq<(string, string)>) returns (r: seq<AudioChapter>)
    ensures r == chapters + ChaptersOf(extra)
  {
    r := chapters;
    var index2 := 0;
    while index2 < |extra|
      invariant 0 <= index2 <= |extra|
      invariant r == chapters + ChaptersOf(extra[..index2])
    {
      assert extra[..index2 + 1] == extra[..index2] + [extra[index2]];
      ChaptersOfSnoc(extra[..index2], extra[index2]);
      r := r + [ChapterOf(extra[index2])];
      index2 := index2 + 1;
    }
    assert extra[..index2] == extra;
  }

  /** Every chapter entry comes from a chapter menu, and every entry of a
      chapter menu is one. */
  lemma {:induction false} EntriesFromMenus(tracks: seq<Track>, e: (string, string))
    ensures e in ChapterEntries(tracks) <==> FromMenu(tracks, e)
  {
    if tracks != [] {
      EntriesFromMenus(tracks[..|tracks| - 1], e);
      FromMenuSnoc(tracks, e);
    }
  }

  /** Entry `e` is an entry of one of the chapter menus among `tracks`. */
  predicate FromMenu(tracks: seq<Track>, e: (string, string)) {
    exists i, k :: 0 <= i < |tracks| && IsChapterMenu(tracks[i]) && 0 <= k < |tracks[i].extra| &&
                   e == tracks[i].extra[k]
  }

  lemma FromMenuSnoc(tracks: seq<Track>, e: (string, string))
    requires tracks != []
    ensures FromMenu(tracks, e) <==> FromMenu(tracks[..|tracks| - 1], e) || e in MenuEntries(tracks[|tracks| - 1])
  {
    var init, last := tracks[..|tracks| - 1], tracks[|tracks| - 1];
    if e in MenuEntries(last) {
      var k :| 0 <= k < |last.extra| && last.extra[k] == e;
      assert IsChapterMenu(tracks[|tracks| - 1]) && e == tracks[|tracks| - 1].extra[k];
    }
    if FromMenu(init, e) {
      var i, k :| 0 <= i < |init| && IsChapterMenu(init[i]) && 0 <= k < |init[i].extra| && e == init[i].extra[k];
      assert tracks[i] == init[i];
    }
    if FromMenu(tracks, e) {
      var i, k :| 0 <= i < |tracks| && IsChapterMenu(tracks[i]) && 0 <= k < |tracks[i].extra| &&
                  e == tracks[i].extra[k];
      if i < |init| {
        assert init[i] == tracks[i];
      }
    }
  }

  /** Only the tracks that are Menus and whose first key carries a time
      stamp give chapters; each of their keys gives one. */
  lemma ChaptersFromMenus(tracks: seq<Track>, c: AudioChapter)
    ensures c in AllChapters(tracks) <==>
              exists i, k :: 0 <= i < |tracks| && IsChapterMenu(tracks[i]) && 0 <= k < |tracks[i].extra| &&
                             c == ChapterOf(tracks[i].extra[k])
  {
    var es := ChapterEntries(tracks);
    if c in AllChapters(tracks) {
      var j :| 0 <= j < |es| && AllChapters(tracks)[j] == c;
      EntriesFromMenus(tracks, es[j]);
    }
    if exists i, k :: 0 <= i < |tracks| && IsChapterMenu(tracks[i]) && 0 <= k < |tracks[i].extra| &&
                      c == ChapterOf(tracks[i].extra[k]) {
      var i, k :| 0 <= i < |tracks| && IsChapterMenu(tracks[i]) && 0 <= k < |tracks[i].extra| &&
                  c == ChapterOf(tracks[i].extra[k]);
      EntriesFromMenus(tracks, tracks[i].extra[k]);
      var j :| 0 <= j < |es| && es[j] == tracks[i].extra[k];
      assert AllChapters(tracks)[j] == c;
    }
  }

  // ---------------------------------------------------------------------
  // updateAudio: metadata
  // ---------------------------------------------------------------------

  /** What the metadata analysis gives: no `media` at all, or its tracks. */
  datatype Metadata = NoMedia | Media(tracks: seq<Track>)

  /** `track.find(entry => entry['@type'] === 'General')`. */
  function FindGeneral(tracks: seq<Track>): (r: Option<Track>)
    ensures r.None? <==> forall i :: 0 <= i < |tracks| ==> tracks[i].kind != "General"
    ensures r.Some? ==> exists i :: 0 <= i < |tracks| && tracks[i] == r.value &&
                          r.value.kind == "General" && forall j :: 0 <= j < i ==> tracks[j].kind != "General"
  {
    if tracks == [] then None
    else if tracks[0].kind == "General" then Some(tracks[0])
    else
      var r := FindGeneral(tracks[1..]);
      assert forall i :: 1 <= i < |tracks| ==> tracks[i] == tracks[1..][i - 1];
      r
  }

  /** The cover URL: `''` when the data has no recognised image type, else
      the object URL made for its blob. */
  function CoverUrl(coverData: Option<string>, blobUrl: string): (r: string)
    ensures ImageMimeType(coverData).None? ==> r == ""
    ensures ImageMimeType(coverData).Some? ==> r == blobUrl
  {
    match MediaInfoCover(coverData)
    case NoCover => ""
    case CoverBlob(_, _) => blobUrl
  }

  /** What the metadata step leaves: the error it caught, if any, and the
      cover URL and chapters it produced. */
  datatype MetadataRead = MetadataRead(error: Option<string>, coverUrl: string, chapters: seq<AudioChapter>)

  /** The `try` block of the metadata step. `analysis` is what the analysis
      resolves to, or the message it rejects with; `coverBlobUrl` is the
      object URL made for a cover blob. It fails exactly when the analysis
      fails, finds no media or finds no General track, and then yields no
      cover and no chapters; otherwise chapters come from the chapter menus
      when enabled and the cover from the first General track when enabled. */
  function ReadMetadata(analysis: Result<Metadata>, enableCover: bool, enableChapters: bool, coverBlobUrl: string)
    : (r: MetadataRead)
    ensures r.error.Some? <==>
              analysis.Err? || analysis.value.NoMedia? ||
              forall i :: 0 <= i < |analysis.value.tracks| ==> analysis.value.tracks[i].kind != "General"
    ensures r.error.Some? ==> r.coverUrl == "" && r.chapters == []
    ensures analysis.Err? ==> r.error == Some(analysis.message)
    ensures analysis.Ok? && analysis.value.NoMedia? ==> r.error == Some("No media metadata found")
    ensures r.error.None? ==>
              (enableChapters ==> r.chapters == AllChapters(analysis.value.tracks)) &&
              (!enableChapters ==> r.chapters == []) &&
              (!enableCover ==> r.coverUrl == "") &&
              (enableCover ==> r.coverUrl == CoverUrl(FindGeneral(analysis.value.tracks).value.coverData, coverBlobUrl))
  {
    if analysis.Err? then MetadataRead(Some(analysis.message), "", [])
    else if analysis.value.NoMedia? then MetadataRead(Some("No media metadata found"), "", [])
    else
      var tracks := analysis.value.tracks;
      match FindGeneral(tracks)
      case None => MetadataRead(Some("No general track found"), "", [])
      case Some(general) =>
        MetadataRead(None,
                     if enableCover then CoverUrl(general.coverData, coverBlobUrl) else "",
                     if enableChapters then AllChapters(tracks) else [])
  }

  /** The metadata step as `updateAudio` runs it: the chapter loops run
      only when chapters are enabled and a General track exists. */
  method ReadAudioMetadata(analysis: Result<Metadata>, enableCover: bool, enableChapters: bool, coverBlobUrl: string)
    returns (r: MetadataRead)
    ensures r == ReadMetadata(analysis, enableCover, enableChapters, coverBlobUrl)
  {
    if analysis.Err? {
      return MetadataRead(Some(analysis.message), "", []);
    }
    if analysis.value.NoMedia? {
      return MetadataRead(Some("No media metadata found"), "", []);
    }
    var tracks := analysis.value.tracks;
    var general := FindGeneral(tracks);
    if general.None? {
      return MetadataRead(Some("No general track found"), "", []);
    }
    var chapters: seq<AudioChapter> := [];
    if enableChapters {
      chapters := ExtractChapters(tracks);
    }
    var coverUrl := "";
    if enableCover {
      coverUrl := CoverUrl(general.value.coverData, coverBlobUrl);
    }
    r := MetadataRead(None, coverUrl, chapters);
  }

  // ---------------------------------------------------------------------
  // setAudioContext
  // ---------------------------------------------------------------------

  /** The stores once `setAudioContext` has put the file in the toolchain:
      audio not loaded, the new file, cover, source and chapters, a cleared
      active line when there is no file, and then the old cover and the old
      source revoked, in that order. */
  function ContextValues(v: StoreValues, file: Option<FileRef>, audio: AudioResult,
                         oldCoverUrl: string, oldSourceUrl: string): (r: StoreValues)
    ensures !r.currentAudioLoaded && r.currentAudioFile == file
    ensures r.currentCoverUrl == audio.coverUrl && r.currentAudioSourceUrl == audio.audioSourceUrl
    ensures r.currentAudioChapters == audio.chapters
    ensures r.activeSubtitle == (if file.None? then ActiveSubtitle("", "", false) else v.activeSubtitle)
    ensures r.events == v.events + [AudioContextAssigned(audio.coverUrl, audio.audioSourceUrl),
                                    UrlRevoked(oldCoverUrl), UrlRevoked(oldSourceUrl)]
    ensures r.(currentAudioLoaded := v.currentAudioLoaded, currentAudioFile := v.currentAudioFile,
               currentCoverUrl := v.currentCoverUrl, currentAudioSourceUrl := v.currentAudioSourceUrl,
               currentAudioChapters := v.currentAudioChapters, activeSubtitle := v.activeSubtitle,
               events := v.events) == v
  {
    var w := v.(currentAudioLoaded := false, currentAudioFile := file, currentCoverUrl := audio.coverUrl,
                currentAudioSourceUrl := audio.audioSourceUrl, currentAudioChapters := audio.chapters,
                events := v.events + [AudioContextAssigned(audio.coverUrl, audio.audioSourceUrl),
                                      UrlRevoked(oldCoverUrl), UrlRevoked(oldSourceUrl)]);
    if file.None? then w.(activeSubtitle := ActiveSubtitle("", "", false)) else w
  }

  /** Setting a context twice with the same file and result leaves the same
      stores as setting it once, apart from the extra revocations: the
      store values do not depend on what was there before. */
  lemma ContextOverwrites(v: StoreValues, file: Option<FileRef>, audio: AudioResult,
                          c1: string, s1: string, c2: string, s2: string)
    ensures var once := ContextValues(v, file, audio, c2, s2);
            var twice := ContextValues(ContextValues(v, file, audio, c1, s1), file, audio, c2, s2);
            twice.(events := once.events) == once
  {
  }

  /** `setAudioContext(oldCoverUrl, oldAudioSourceUrl, newAudioFile,
      audioResult)`: the file goes to the toolchain first; if that throws,
      no store changes. `data` is the file's contents, `listFailure` what
      listing the toolchain's directory throws and `writeFailure` what
      writing the file throws, if anything. */
  method SetAudioContext(st: AppState, tool: Ffmpeg.Toolchain, oldCoverUrl: string, oldSourceUrl: string,
                         file: Option<FileRef>, data: Ffmpeg.Bytes, audio: AudioResult,
                         listFailure: Option<string>, writeFailure: Option<string>)
    returns (r: Outcome)
    modifies st, tool
    ensures tool.loaded == old(tool.loaded) && tool.execLog == old(tool.execLog)
    ensures tool.files == Ffmpeg.PutFiles(old(tool.files), old(tool.loaded), file, data, listFailure, writeFailure)
    ensures r == Ffmpeg.PutResult(old(tool.loaded), file, listFailure, writeFailure)
    ensures r.Fail? ==> st.values == old(st.values)
    ensures r.Pass? ==> st.values == ContextValues(old(st.values), file, audio, oldCoverUrl, oldSourceUrl)
  {
    r := Ffmpeg.PutAudioFile(tool, file, data, listFailure, writeFailure);
    if r.Fail? {
      return;
    }
    st.values := st.values.(currentAudioLoaded := false, currentAudioFile := file, currentCoverUrl := audio.coverUrl,
                            currentAudioSourceUrl := audio.audioSourceUrl, currentAudioChapters := audio.chapters,
                            events := st.values.events + [AudioContextAssigned(audio.coverUrl, audio.audioSourceUrl)]);
    if file.None? {
      st.values := st.values.(activeSubtitle := ActiveSubtitle("", "", false));
    }
    st.values := st.values.(events := st.values.events + [UrlRevoked(oldCoverUrl), UrlRevoked(oldSourceUrl)]);
  }

  // ---------------------------------------------------------------------
  // updateAudio
  // ---------------------------------------------------------------------

  /** What the outside world answers while `updateAudio` runs: how the
      toolchain's resource requests settle and what its `load` throws, what
      the metadata analysis gives, the object URLs made for the cover blob
      and for the file, the file's bytes, and what listing the toolchain's
      directory and writing the bytes to it throw. */
  datatype AudioInputs = AudioInputs(
    resourceResults: seq<Result<string>>,
    loadFailure: Option<Ffmpeg.Thrown>,
    analysis: Result<Metadata>,
    coverBlobUrl: string,
    sourceUrl: string,
    data: Ffmpeg.Bytes,
    listFailure: Option<string>,
    writeFailure: Option<string>)

  /** The stores, the toolchain's loaded flag and the errors collected so far. */
  datatype AudioStep = AudioStep(values: StoreValues, loaded: bool, errors: seq<string>)

  /** The first step: unless only metadata is wanted, pause, and initialise
      the toolchain when it is the export processor; a failure is collected
      as `FFMEPG failure: <message>`. */
  function InitStep(v: StoreValues, loaded: bool, metadataOnly: bool, inp: AudioInputs): (r: AudioStep)
    ensures metadataOnly ==> r == AudioStep(v, loaded, [])
    ensures !metadataOnly ==> r.values.paused
    ensures |r.errors| <= 1
    ensures r.errors != [] <==>
              !metadataOnly && v.settings.exportAudioProcessor == AudioProcessor.Ffmpeg && !loaded &&
              Ffmpeg.InitFailure(inp.resourceResults, inp.loadFailure).Some?
    ensures r.errors != [] ==> r.values.settings.exportAudioProcessor == Recorder && !r.loaded
    ensures loaded ==> r.loaded
  {
    if metadataOnly then AudioStep(v, loaded, [])
    else
      var p := v.(paused := true);
      if p.settings.exportAudioProcessor != AudioProcessor.Ffmpeg || loaded then AudioStep(p, loaded, [])
      else
        var failure := Ffmpeg.InitFailure(inp.resourceResults, inp.loadFailure);
        var events := p.events + Ffmpeg.Revocations(Ffmpeg.Fulfilled(inp.resourceResults));
        if failure.None? then AudioStep(p.(events := events), true, [])
        else
          AudioStep(p.(settings := p.settings.(exportAudioProcessor := Recorder), events := events), false,
                    ["FFMEPG failure: " + ("Error loading FFMPEG - " + Ffmpeg.LoadErrorMessage(failure.value))])
  }

  /** The metadata step, run only when the cover or the chapters are
      enabled; nothing is read otherwise. */
  function MetadataStep(enableCover: bool, enableChapters: bool, inp: AudioInputs): (r: MetadataRead)
    ensures !enableCover && !enableChapters ==> r == MetadataRead(None, "", [])
  {
    if enableCover || enableChapters then ReadMetadata(inp.analysis, enableCover, enableChapters, inp.coverBlobUrl)
    else MetadataRead(None, "", [])
  }

  /** The errors once the metadata step has run: its failure is collected
      as `MediaInfo failure: <message>`. */
  function WithMetadataError(errors: seq<string>, read: MetadataRead): (r: seq<string>)
    ensures read.error.None? ==> r == errors
    ensures read.error.Some? ==> r == errors + ["MediaInfo failure: " + read.error.value]
  {
    errors + (if read.error.Some? then ["MediaInfo failure: " + read.error.value] else [])
  }

  /** The file's own name as the stores know it. */
  function AudioFile(fileName: string): FileRef {
    FileRef(fileName)
  }

  /** The last step: unless only metadata is wanted and when the context is
      to be updated, `setAudioContext` with what was read; when it throws,
      the new cover and source URLs are revoked and its message collected. */
  function ContextStep(step: AudioStep, fileName: string, updateContext: bool, metadataOnly: bool,
                       oldCoverUrl: string, oldSourceUrl: string, read: MetadataRead, inp: AudioInputs): (r: AudioStep)
    ensures r.loaded == step.loaded
    ensures metadataOnly || !updateContext ==> r == step
  {
    if metadataOnly || !updateContext then step
    else
      var put := Ffmpeg.PutResult(step.loaded, Some(AudioFile(fileName)), inp.listFailure, inp.writeFailure);
      if put.Fail? then
        AudioStep(step.values.(events := step.values.events + [UrlRevoked(read.coverUrl), UrlRevoked(inp.sourceUrl)]),
                  step.loaded, step.errors + [put.message])
      else
        AudioStep(ContextValues(step.values, Some(AudioFile(fileName)),
                                AudioResult(read.coverUrl, read.chapters, inp.sourceUrl), oldCoverUrl, oldSourceUrl),
                  step.loaded, step.errors)
  }

  /** The errors `updateAudio` throws with, joined by `; `, or what it
      returns: the cover URL and chapters read, and the file's object URL
      (`''` when only metadata is wanted). */
  function AudioOutcome(errors: seq<string>, read: MetadataRead, metadataOnly: bool, inp: AudioInputs)
    : (r: Result<AudioResult>)
    ensures r.Err? <==> errors != []
    ensures r.Err? ==> r.message == Join(errors, "; ")
  {
    if errors != [] then Err(Join(errors, "; "))
    else Ok(AudioResult(read.coverUrl, read.chapters, if metadataOnly then "" else inp.sourceUrl))
  }

  /** The stores, the loaded flag and the result of a whole `updateAudio`. */
  datatype AudioUpdate = AudioUpdate(values: StoreValues, loaded: bool, result: Result<AudioResult>)

  function UpdateAudioOf(v: StoreValues, loaded: bool, fileName: string, updateContext: bool, metadataOnly: bool,
                         oldCoverUrl: string, oldSourceUrl: string, inp: AudioInputs): (r: AudioUpdate)
    ensures metadataOnly ==> r.values == v && r.loaded == loaded
    ensures metadataOnly && r.result.Ok? ==> r.result.value.audioSourceUrl == ""
    ensures var read := MetadataStep(v.settings.playerEnableCover, v.settings.playerEnableChapters, inp);
            r.result.Ok? ==> r.result.value.coverUrl == read.coverUrl && r.result.value.chapters == read.chapters
  {
    var init := InitStep(v, loaded, metadataOnly, inp);
    var read := MetadataStep(v.settings.playerEnableCover, v.settings.playerEnableChapters, inp);
    var withRead := init.(errors := WithMetadataError(init.errors, read));
    var last := ContextStep(withRead, fileName, updateContext, metadataOnly, oldCoverUrl, oldSourceUrl, read, inp);
    AudioUpdate(last.values, last.loaded, AudioOutcome(last.errors, read, metadataOnly, inp))
  }

  /** Whether `updateAudio` puts the file in the toolchain. */
  predicate PutsFile(v: StoreValues, loaded: bool, updateContext: bool, metadataOnly: bool, inp: AudioInputs) {
    !metadataOnly && updateContext && InitStep(v, loaded, metadataOnly, inp).loaded
  }

  /** The first step of `updateAudio` on the stores and the toolchain. */
  method PauseAndInitialize(st: AppState, tool: Ffmpeg.Toolchain, metadataOnly: bool, inp: AudioInputs)
    returns (errors: seq<string>)
    modifies st, tool
    ensures AudioStep(st.values, tool.loaded, errors) == InitStep(old(st.values), old(tool.loaded), metadataOnly, inp)
    ensures tool.files == old(tool.files) && tool.execLog == old(tool.execLog)
  {
    errors := [];
    if !metadataOnly {
      st.values := st.values.(paused := true);
      if st.values.settings.exportAudioProcessor == AudioProcessor.Ffmpeg {
        var init := Ffmpeg.InitializeFfmpeg(tool, st, inp.resourceResults, inp.loadFailure);
        if init.Fail? {
          errors := errors + ["FFMEPG failure: " + init.message];
        }
      }
    }
  }

  /** The metadata step as `updateAudio` runs it. */
  method RunMetadataStep(errors: seq<string>, enableCover: bool, enableChapters: bool, inp: AudioInputs)
    returns (read: MetadataRead, errors': seq<string>)
    ensures read == MetadataStep(enableCover, enableChapters, inp)
    ensures errors' == WithMetadataError(errors, read)
  {
    read := MetadataRead(None, "", []);
    errors' := errors;
    if enableCover || enableChapters {
      read := ReadAudioMetadata(inp.analysis, enableCover, enableChapters, inp.coverBlobUrl);
      if read.error.Some? {
        errors' := errors' + ["MediaInfo failure: " + read.error.value];
      }
    }
  }

  /** The last step of `updateAudio` on the stores and the toolchain. */
  method RunContextStep(st: AppState, tool: Ffmpeg.Toolchain, errors: seq<string>, fileName: string,
                        updateContext: bool, metadataOnly: bool, oldCoverUrl: string, oldSourceUrl: string,
                        read: MetadataRead, inp: AudioInputs)
    returns (audioSourceUrl: string, errors': seq<string>)
    modifies st, tool
    ensures AudioStep(st.values, tool.loaded, errors') ==
              ContextStep(AudioStep(old(st.values), old(tool.loaded), errors), fileName, updateContext, metadataOnly,
                          oldCoverUrl, oldSourceUrl, read, inp)
    ensures audioSourceUrl == if metadataOnly then "" else inp.sourceUrl
    ensures tool.execLog == old(tool.execLog)
    ensures tool.files == if !metadataOnly && updateContext
                          then Ffmpeg.PutFiles(old(tool.files), old(tool.loaded), Some(AudioFile(fileName)), inp.data, inp.listFailure, inp.writeFailure)
                          else old(tool.files)
  {
    audioSourceUrl := "";
    errors' := errors;
    if !metadataOnly {
      audioSourceUrl := inp.sourceUrl;
      if updateContext {
        var put := SetAudioContext(st, tool, oldCoverUrl, oldSourceUrl, Some(AudioFile(fileName)), inp.data,
                                   AudioResult(read.coverUrl, read.chapters, audioSourceUrl),
                                   inp.listFailure, inp.writeFailure);
        if put.Fail? {
          st.values := st.values.(events := st.values.events + [UrlRevoked(read.coverUrl), UrlRevoked(audioSourceUrl)]);
          errors' := errors' + [put.message];
        }
      }
    }
  }

  /** `updateAudio(file, sandboxElement, updateContext, metadataOnly,
      oldCoverUrl, oldAudioSourceSource)`; the file is known by its name
      and everything it waits for is in `inp`. */
  method UpdateAudio(st: AppState, tool: Ffmpeg.Toolchain, fileName: string, updateContext: bool, metadataOnly: bool,
                     oldCoverUrl: string, oldSourceUrl: string, inp: AudioInputs)
    returns (r: Result<AudioResult>)
    modifies st, tool
    ensures var u := UpdateAudioOf(old(st.values), old(tool.loaded), fileName, updateContext, metadataOnly,
                                   oldCoverUrl, oldSourceUrl, inp);
            r == u.result && st.values == u.values && tool.loaded == u.loaded
    ensures tool.execLog == old(tool.execLog)
    ensures tool.files == if PutsFile(old(st.values), old(tool.loaded), updateContext, metadataOnly, inp)
                          then Ffmpeg.PutFiles(old(tool.files), true, Some(AudioFile(fileName)), inp.data, inp.listFailure, inp.writeFailure)
                          else old(tool.files)
  {
    var enableCover := st.values.settings.playerEnableCover;
    var enableChapters := st.values.settings.playerEnableChapters;
    var errors := PauseAndInitialize(st, tool, metadataOnly, inp);
    var read;
    read, errors := RunMetadataStep(errors, enableCover, enableChapters, inp);
    var audioSourceUrl;
    audioSourceUrl, errors := RunContextStep(st, tool, errors, fileName, updateContext, metadataOnly,
                                             oldCoverUrl, oldSourceUrl, read, inp);
    if errors != [] {
      return Err(Join(errors, "; "));
    }
    r := Ok(AudioResult(read.coverUrl, read.chapters, audioSourceUrl));
  }

  /** `updateAudio` throws exactly when a step failed: the toolchain did
      not initialise, the metadata could not be read, or the file could not
      be put in the toolchain; a failed initialisation leads the message. */
  lemma ThrowsWhenAStepFails(v: StoreValues, loaded: bool, fileName: string, updateContext: bool, metadataOnly: bool,
                             oldCoverUrl: string, oldSourceUrl: string, inp: AudioInputs)
    ensures var u := UpdateAudioOf(v, loaded, fileName, updateContext, metadataOnly, oldCoverUrl, oldSourceUrl, inp);
            var init := InitStep(v, loaded, metadataOnly, inp);
            var read := MetadataStep(v.settings.playerEnableCover, v.settings.playerEnableChapters, inp);
            (u.result.Err? <==>
               init.errors != [] || read.error.Some? ||
               (!metadataOnly && updateContext && init.loaded && (inp.listFailure.Some? || inp.writeFailure.Some?))) &&
            (init.errors != [] ==> u.result.Err? && StartsWith(u.result.message, init.errors[0]))
  {
    var u := UpdateAudioOf(v, loaded, fileName, updateContext, metadataOnly, oldCoverUrl, oldSourceUrl, inp);
    var init := InitStep(v, loaded, metadataOnly, inp);
    var read := MetadataStep(v.settings.playerEnableCover, v.settings.playerEnableChapters, inp);
    var withRead := init.(errors := WithMetadataError(init.errors, read));
    var last := ContextStep(withRead, fileName, updateContext, metadataOnly, oldCoverUrl, oldSourceUrl, read, inp);
    if init.errors != [] {
      assert last.errors[0] == init.errors[0];
      JoinFirst(last.errors, "; ");
    }
  }

  /** After a successful `updateAudio` that updates the context, the stores
      hold exactly what it returns, for the new file, and the old URLs are
      revoked after the new ones are in place. */
  lemma StoresMatchResult(v: StoreValues, loaded: bool, fileName: string,
                          oldCoverUrl: string, oldSourceUrl: string, inp: AudioInputs)
    ensures var u := UpdateAudioOf(v, loaded, fileName, true, false, oldCoverUrl, oldSourceUrl, inp);
            u.result.Ok? ==>
              u.values.currentCoverUrl == u.result.value.coverUrl &&
              u.values.currentAudioSourceUrl == u.result.value.audioSourceUrl &&
              u.values.currentAudioChapters == u.result.value.chapters &&
              u.values.currentAudioFile == Some(FileRef(fileName)) && !u.values.currentAudioLoaded &&
              u.values.paused &&
              u.values.events[|u.values.events| - 3..] ==
                [AudioContextAssigned(u.result.value.coverUrl, u.result.value.audioSourceUrl),
                 UrlRevoked(oldCoverUrl), UrlRevoked(oldSourceUrl)]
  {
  }

  /** The message a failed put carries: the listing's, else the write's. */
  function PutFailure(inp: AudioInputs): string
    requires inp.listFailure.Some? || inp.writeFailure.Some?
  {
    if inp.listFailure.Some? then inp.listFailure.value else inp.writeFailure.value
  }

  /** When the file cannot be put in the toolchain, `updateAudio` throws
      with that failure last, the audio stores keep their old values and
      the URLs just made for the cover and the source are revoked. */
  lemma FailedPutRevokesNewUrls(v: StoreValues, loaded: bool, fileName: string,
                                oldCoverUrl: string, oldSourceUrl: string, inp: AudioInputs)
    requires InitStep(v, loaded, false, inp).loaded && (inp.listFailure.Some? || inp.writeFailure.Some?)
    ensures var u := UpdateAudioOf(v, loaded, fileName, true, false, oldCoverUrl, oldSourceUrl, inp);
            var read := MetadataStep(v.settings.playerEnableCover, v.settings.playerEnableChapters, inp);
            u.result.Err? &&
            EndsWith(u.result.message, "Failed to update files in FFMPEG - " + PutFailure(inp)) &&
            u.values.currentAudioFile == v.currentAudioFile && u.values.currentCoverUrl == v.currentCoverUrl &&
            u.values.currentAudioSourceUrl == v.currentAudioSourceUrl &&
            u.values.currentAudioChapters == v.currentAudioChapters &&
            u.values.events[|u.values.events| - 2..] == [UrlRevoked(read.coverUrl), UrlRevoked(inp.sourceUrl)]
  {
    var init := InitStep(v, loaded, false, inp);
    var read := MetadataStep(v.settings.playerEnableCover, v.settings.playerEnableChapters, inp);
    var errors := WithMetadataError(init.errors, read) + ["Failed to update files in FFMPEG - " + PutFailure(inp)];
    JoinLast(errors, "; ");
  }
}
