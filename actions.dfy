/** The line actions of `src/lib/actions.ts`: toggling a line in a filter,
    restoring and aligning lines, grouping lines for export, persisting the
    subtitles and the routing of `executeAction`. The book's HTML, the edit
    dialog, IndexedDB and the clipboard are inputs or left out. */
module Actions {
  import opened Wrappers
  import opened JsText
  import opened Ordered
  import opened Util
  import opened General
  import opened Settings
  import opened Stores
  import Files
  import Ffmpeg
  import Anki

  // ---------------------------------------------------------------------
  // executeFilterAction: a Set of line ids toggled in place
  // ---------------------------------------------------------------------

  /** The two id sets a line can be toggled in. */
  datatype FilterStore = Bookmarks | ForMerge

  /** `set.delete(x)` on the set listed by `s`: every other id keeps its place. */
  function Without(s: seq<string>, x: string): (r: seq<string>)
    ensures |r| <= |s|
  {
    if s == [] then []
    else (if s[0] == x then [] else [s[0]]) + Without(s[1..], x)
  }

  /** `has(id) ? delete(id) : add(id)` on the set listed by `s`: whether
      `id` is a member flips, and every other id stays as it was. */
  function Toggled(s: seq<string>, id: string): (r: seq<string>)
    ensures id in r <==> id !in s
    ensures forall y :: y != id ==> (y in r <==> y in s)
  {
    if id in s then
      assert forall y :: y in Without(s, id) <==> y in s && y != id by {
        forall y {
          WithoutMembers(s, id, y);
        }
      }
      Without(s, id)
    else s + [id]
  }

  lemma {:induction false} WithoutMembers(s: seq<string>, x: string, y: string)
    ensures y in Without(s, x) <==> y in s && y != x
    decreases |s|
  {
    if s != [] {
      WithoutMembers(s[1..], x, y);
      assert s == [s[0]] + s[1..];
    }
  }

  lemma {:induction false} WithoutDistinct(s: seq<string>, x: string)
    requires NoDuplicates(s)
    ensures NoDuplicates(Without(s, x))
    decreases |s|
  {
    if s != [] {
      var rest := Without(s[1..], x);
      WithoutDistinct(s[1..], x);
      if s[0] != x {
        assert s[0] !in rest by {
          WithoutMembers(s[1..], x, s[0]);
          assert s[0] !in s[1..] by {
            forall k | 0 <= k < |s[1..]| ensures s[1..][k] != s[0] {
              assert s[1..][k] == s[k + 1];
            }
          }
        }
        var r := [s[0]] + rest;
        forall i, j | 0 <= i < j < |r| ensures r[i] != r[j] {
          if i == 0 {
            assert r[j] == rest[j - 1];
          } else {
            assert r[i] == rest[i - 1] && r[j] == rest[j - 1];
          }
        }
      }
    }
  }

  /** Removing an id that is not there changes nothing. */
  lemma {:induction false} WithoutAbsent(s: seq<string>, x: string)
    requires x !in s
    ensures Without(s, x) == s
    decreases |s|
  {
    if s != [] {
      assert x !in s[1..] by {
        forall k | 0 <= k < |s[1..]| ensures s[1..][k] != x {
          assert s[1..][k] == s[k + 1];
        }
      }
      WithoutAbsent(s[1..], x);
      assert s == [s[0]] + s[1..];
    }
  }

  /** Toggling flips whether `id` is in the set and leaves every other id
      as it was; the set stays free of duplicates. */
  lemma ToggledMembers(s: seq<string>, id: string)
    requires NoDuplicates(s)
    ensures NoDuplicates(Toggled(s, id))
    ensures id in Toggled(s, id) <==> id !in s
    ensures forall y :: y != id ==> (y in Toggled(s, id) <==> y in s)
  {
    if id in s {
      WithoutDistinct(s, id);
      forall y {
        WithoutMembers(s, id, y);
      }
    } else {
      var r := s + [id];
      forall i, j | 0 <= i < j < |r| ensures r[i] != r[j] {
        if j == |s| {
          assert r[i] == s[i];
        }
      }
    }
  }

  /** Toggling twice gives back the same set; when the id was absent, even
      the same order. */
  lemma ToggleTwice(s: seq<string>, id: string)
    requires NoDuplicates(s)
    ensures forall y :: y in Toggled(Toggled(s, id), id) <==> y in s
    ensures id !in s ==> Toggled(Toggled(s, id), id) == s
  {
    ToggledMembers(s, id);
    ToggledMembers(Toggled(s, id), id);
    if id !in s {
      assert id in s + [id];
      WithoutAppend(s, id);
    }
  }

  lemma WithoutAppend(s: seq<string>, id: string)
    requires id !in s
    ensures Without(s + [id], id) == s
  {
    WithoutSplit(s, [id], id);
    WithoutAbsent(s, id);
    assert Without([id], id) == [] + Without([], id);
    assert s + [] == s;
  }

  lemma {:induction false} WithoutSplit(a: seq<string>, b: seq<string>, x: string)
    ensures Without(a + b, x) == Without(a, x) + Without(b, x)
    decreases |a|
  {
    if a == [] {
      assert a + b == b;
    } else {
      assert (a + b)[0] == a[0];
      assert (a + b)[1..] == a[1..] + b;
      WithoutSplit(a[1..], b, x);
    }
  }

  /** `executeFilterAction(store, id)`: the id is toggled in the chosen set,
      and no other store changes. */
  method ExecuteFilterAction(st: AppState, store: FilterStore, id: string)
    modifies st
    ensures store == Bookmarks ==>
              st.values == old(st.values).(bookmarkedSubtitles := Toggled(old(st.values.bookmarkedSubtitles), id))
    ensures store == ForMerge ==>
              st.values == old(st.values).(subtitlesForMerge := Toggled(old(st.values.subtitlesForMerge), id))
  {
    var storeSet := if store == Bookmarks then st.values.bookmarkedSubtitles else st.values.subtitlesForMerge;
    if id in storeSet {
      storeSet := Without(storeSet, id);
    } else {
      storeSet := storeSet + [id];
    }
    if store == Bookmarks {
      st.values := st.values.(bookmarkedSubtitles := storeSet);
    } else {
      st.values := st.values.(subtitlesForMerge := storeSet);
    }
  }

  // ---------------------------------------------------------------------
  // persistSubtitles
  // ---------------------------------------------------------------------

  /** The message `persistSubtitles` throws when the database write fails. */
  function PersistFailure(message: string): string {
    "Failed to persist subtitles - " + message
  }

  /** The stores after `persistSubtitles(data)` whose database write ends
      with `failure` (None when it succeeds): on success the data becomes
      the extension data's subtitles and a sync is requested; either way the
      extension data store is set last. */
  function PersistedValues(v: StoreValues, data: SubtitleData, failure: Option<string>): StoreValues {
    if failure.None? then
      v.(persistedSubtitleData := Some(data), events := v.events + [SyncRequested, ExtensionDataSet])
    else
      v.(events := v.events + [ExtensionDataSet])
  }

  /** `persistSubtitles(subtitleData)`, with the database write's outcome
      given as `failure`. */
  method PersistSubtitles(st: AppState, data: SubtitleData, failure: Option<string>) returns (r: Outcome)
    modifies st
    ensures r == if failure.None? then Pass else Fail(PersistFailure(failure.value))
    ensures st.values == PersistedValues(old(st.values), data, failure)
  {
    if failure.Some? {
      r := Fail(PersistFailure(failure.value));
    } else {
      st.values := st.values.(persistedSubtitleData := Some(data));
      st.values := st.values.(events := st.values.events + [SyncRequested]);
      r := Pass;
    }
    st.values := st.values.(events := st.values.events + [ExtensionDataSet]);
  }

  /** Persisting stores the data exactly when the write succeeds, requests
      a sync only then, and always ends by setting the extension data. */
  lemma PersistedMeaning(v: StoreValues, data: SubtitleData, failure: Option<string>)
    ensures var w := PersistedValues(v, data, failure);
            (w.persistedSubtitleData == Some(data) || w.persistedSubtitleData == v.persistedSubtitleData) &&
            (failure.None? ==> w.persistedSubtitleData == Some(data)) &&
            (failure.Some? ==> w.persistedSubtitleData == v.persistedSubtitleData) &&
            |w.events| > |v.events| && w.events[|w.events| - 1] == ExtensionDataSet &&
            (SyncRequested in w.events[|v.events|..] <==> failure.None?) &&
            w.lastError == v.lastError && w.currentSubtitles == v.currentSubtitles
  {
    var w := PersistedValues(v, data, failure);
    if failure.None? {
      assert w.events[|v.events|..] == [SyncRequested, ExtensionDataSet];
    } else {
      assert w.events[|v.events|..] == [ExtensionDataSet];
    }
  }

  // ---------------------------------------------------------------------
  // getSubtitlesForExport
  // ---------------------------------------------------------------------

  /** The concatenation of groups. */
  function Flatten(groups: seq<seq<Subtitle>>): seq<Subtitle> {
    if groups == [] then [] else Flatten(groups[..|groups| - 1]) + groups[|groups| - 1]
  }

  /** `getSubtitlesForExport(subtitles, merge)`: one group holding every
      line when merging, else one group per line (the deep copy is a plain
      value copy). */
  method SubtitlesForExport(subtitles: seq<Subtitle>, merge: bool) returns (groups: seq<seq<Subtitle>>)
    ensures merge ==> groups == [subtitles]
    ensures !merge ==> |groups| == |subtitles| && forall i :: 0 <= i < |groups| ==> groups[i] == [subtitles[i]]
    ensures Flatten(groups) == subtitles
  {
    if merge {
      assert Flatten([subtitles]) == Flatten([]) + subtitles;
      return [subtitles];
    }
    groups := [];
    var index := 0;
    while index < |subtitles|
      invariant 0 <= index <= |subtitles|
      invariant |groups| == index && forall i :: 0 <= i < index ==> groups[i] == [subtitles[i]]
      invariant Flatten(groups) == subtitles[..index]
    {
      assert (groups + [[subtitles[index]]])[..index] == groups;
      assert subtitles[..index + 1] == subtitles[..index] + [subtitles[index]];
      groups := groups + [[subtitles[index]]];
      index := index + 1;
    }
    assert subtitles[..index] == subtitles;
  }

  // ---------------------------------------------------------------------
  // executeRestoreSubtitle
  // ---------------------------------------------------------------------

  /** The start a restore gives a line: the original start plus the global
      start padding, kept from going negative, as when the file is loaded. */
  function RestoredStartMs(sub: Subtitle, s: Settings): int {
    Files.PaddedStart(sub.originalStartMs, s.subtitlesGlobalStartPaddingMs)
  }

  /** The end a restore gives a line, as when the file is loaded. */
  function RestoredEndMs(sub: Subtitle, s: Settings, durationMs: int): int {
    Files.PaddedEnd(sub.originalEndMs, s.subtitlesGlobalEndPaddingMs, durationMs)
  }

  /** A finite adjusted time differs from the recomputed one. */
  predicate HasTimeDiff(sub: Subtitle, s: Settings, durationMs: int) {
    || (sub.adjustedStartMs.Some? && sub.adjustedStartMs.value != RestoredStartMs(sub, s))
    || (sub.adjustedEndMs.Some? && sub.adjustedEndMs.value != RestoredEndMs(sub, s, durationMs))
  }

  /** The line's text was edited or aligned away from the parsed one. */
  predicate HasTextDiff(sub: Subtitle) {
    sub.text != sub.originalText
  }

  /** The line after `delete adjustedStartSeconds; delete adjustedEndSeconds`. */
  function Cleared(sub: Subtitle): Subtitle {
    sub.(adjustedStartMs := None, adjustedEndMs := None)
  }

  /** The restored copy of a changed line: recomputed times and their time
      stamps, the original text, no adjusted times. */
  function Restored(sub: Subtitle, s: Settings, durationMs: int): (r: Subtitle)
  {
    var start := RestoredStartMs(sub, s);
    var end := RestoredEndMs(sub, s, durationMs);
    Cleared(sub).(startMs := start, startTime := ToTimeStamp(start), endMs := end, endTime := ToTimeStamp(end),
                  text := sub.originalText)
  }

  /** What the restore loop has built so far: the collection (changed in
      place), the time-changed lines in order, and whether any line changed. */
  datatype RestoreAcc = RestoreAcc(lines: OrderedMap<string, Subtitle>, timeChanged: seq<Subtitle>, hadChange: bool)

  /** One turn of the restore loop. A changed line is replaced by its
      restored copy; the adjusted times of an unchanged line are cleared on
      the collection's own object. */
  function RestoreStep(acc: RestoreAcc, sub: Subtitle, s: Settings, durationMs: int): (r: RestoreAcc)
    requires acc.lines.Valid()
    ensures r.lines.Valid()
  {
    var timeDiff := HasTimeDiff(sub, s, durationMs);
    if HasTextDiff(sub) || timeDiff then
      var restored := Restored(sub, s, durationMs);
      RestoreAcc(acc.lines.Set(sub.id, restored), acc.timeChanged + (if timeDiff then [restored] else []), true)
    else if sub.id in acc.lines.entries then
      acc.(lines := acc.lines.Set(sub.id, Cleared(acc.lines.entries[sub.id])))
    else acc
  }

  /** The restore loop over `subs`, from `acc`. */
  function RestoreAll(acc: RestoreAcc, subs: seq<Subtitle>, s: Settings, durationMs: int): (r: RestoreAcc)
    requires acc.lines.Valid()
    ensures r.lines.Valid()
  {
    if subs == [] then acc
    else RestoreStep(RestoreAll(acc, subs[..|subs| - 1], s, durationMs), subs[|subs| - 1], s, durationMs)
  }

  /** The message of the `TypeError` a missing current subtitle file raises
      where its name is read. */
  const MissingFileName: string := "Cannot read properties of undefined (reading 'name')"

  /** The stores and the outcome once the restore loop has produced
      `acc`, from stores `v`: with no change only the collection (changed
      in place) differs; otherwise the collection store is set, the change
      event is emitted and, when the persist setting is on, the subtitles
      are persisted, a failure landing in `lastError`. */
  function RestoreFinish(v: StoreValues, acc: RestoreAcc, failure: Option<string>): (StoreValues, Outcome)
    requires acc.lines.Valid()
  {
    var w := v.(currentSubtitles := acc.lines);
    if !acc.hadChange then (w, Pass)
    else
      var w1 := w.(events := w.events + [SubtitlesStoreSet],
                   subtitleChanges := w.subtitleChanges + [SubtitleChange(acc.timeChanged, false)]);
      if !v.settings.subtitlesEnablePersist then (w1, Pass)
      else PersistOrError(w1.(lastError := ""), acc.lines.Values(), failure, "")
  }

  /** `persistSubtitles({ name: currentSubtitleFile!.name, subtitles })`
      with its failure message, prefixed with `prefix`, caught into
      `lastError`; a missing file throws before the write. */
  function PersistOrError(v: StoreValues, subtitles: seq<Subtitle>, failure: Option<string>, prefix: string)
    : (StoreValues, Outcome)
  {
    if v.currentSubtitleFile.None? then (v, Fail(MissingFileName))
    else
      var w := PersistedValues(v, SubtitleData(v.currentSubtitleFile.value.name, subtitles), failure);
      if failure.Some? then (w.(lastError := prefix + PersistFailure(failure.value)), Pass) else (w, Pass)
  }

  /** The stores and the outcome of `executeRestoreSubtitle(subs)` whose
      database write ends with `failure`. */
  function RestoreEffect(v: StoreValues, subs: seq<Subtitle>, failure: Option<string>): (r: (StoreValues, Outcome))
    requires v.currentSubtitles.Valid()
    ensures r.0.currentSubtitles.Valid()
    ensures r.1.Fail? ==> r.1 == Fail(MissingFileName)
    ensures !v.settings.subtitlesEnablePersist ==> r.0.persistedSubtitleData == v.persistedSubtitleData && r.1 == Pass
  {
    var acc := RestoreAll(RestoreAcc(v.currentSubtitles, [], false), subs, v.settings, v.durationMs);
    RestoreFinishFacts(v, acc, failure);
    RestoreFinish(v, acc, failure)
  }

  /** One turn of the restore loop on the local collection. */
  method RestoreTurn(currentSubtitles: OrderedMap<string, Subtitle>, changedSubtitles: seq<Subtitle>, hadChange: bool,
                     subtitle: Subtitle, s: Settings, duration: int)
    returns (currentSubtitles': OrderedMap<string, Subtitle>, changedSubtitles': seq<Subtitle>, hadChange': bool)
    requires currentSubtitles.Valid()
    ensures var step := RestoreStep(RestoreAcc(currentSubtitles, changedSubtitles, hadChange), subtitle, s, duration);
            currentSubtitles' == step.lines && changedSubtitles' == step.timeChanged && hadChange' == step.hadChange
  {
    ghost var acc := RestoreAcc(currentSubtitles, changedSubtitles, hadChange);
    currentSubtitles', changedSubtitles', hadChange' := currentSubtitles, changedSubtitles, hadChange;
    var startMs := Files.PaddedStart(subtitle.originalStartMs, s.subtitlesGlobalStartPaddingMs);
    var endMs := Files.PaddedEnd(subtitle.originalEndMs, s.subtitlesGlobalEndPaddingMs, duration);
    var hasTextDiff := subtitle.text != subtitle.originalText;
    var hasTimeDiff := (subtitle.adjustedStartMs.Some? && subtitle.adjustedStartMs.value != startMs)
                       || (subtitle.adjustedEndMs.Some? && subtitle.adjustedEndMs.value != endMs);
    assert startMs == RestoredStartMs(subtitle, s) && endMs == RestoredEndMs(subtitle, s, duration);
    assert hasTimeDiff == HasTimeDiff(subtitle, s, duration);
    if hasTextDiff || hasTimeDiff {
      var changedSubtitle := subtitle.(adjustedStartMs := None, adjustedEndMs := None, startMs := startMs,
                                       startTime := ToTimeStamp(startMs), endMs := endMs,
                                       endTime := ToTimeStamp(endMs), text := subtitle.originalText);
      assert changedSubtitle == Restored(subtitle, s, duration);
      RestoreStepChanged(acc, subtitle, s, duration);
      currentSubtitles' := currentSubtitles.Set(subtitle.id, changedSubtitle);
      hadChange' := true;
      if hasTimeDiff {
        changedSubtitles' := changedSubtitles + [changedSubtitle];
      }
    } else {
      RestoreStepUnchanged(acc, subtitle, s, duration);
      if subtitle.id in currentSubtitles.entries {
        currentSubtitles' := currentSubtitles.Set(subtitle.id, Cleared(currentSubtitles.entries[subtitle.id]));
      }
    }
  }

  /** A turn on a changed line stores its restored copy, and lists it when
      its times differ. */
  lemma RestoreStepChanged(acc: RestoreAcc, sub: Subtitle, s: Settings, durationMs: int)
    requires acc.lines.Valid()
    requires HasTextDiff(sub) || HasTimeDiff(sub, s, durationMs)
    ensures RestoreStep(acc, sub, s, durationMs).lines == acc.lines.Set(sub.id, Restored(sub, s, durationMs))
    ensures RestoreStep(acc, sub, s, durationMs).hadChange
    ensures RestoreStep(acc, sub, s, durationMs).timeChanged ==
              if HasTimeDiff(sub, s, durationMs) then acc.timeChanged + [Restored(sub, s, durationMs)] else acc.timeChanged
  {
    RestoreStepOfChanged(acc, sub, s, durationMs);
    assert acc.timeChanged + [] == acc.timeChanged;
  }

  lemma RestoreStepOfChanged(acc: RestoreAcc, sub: Subtitle, s: Settings, durationMs: int)
    requires acc.lines.Valid()
    requires HasTextDiff(sub) || HasTimeDiff(sub, s, durationMs)
    ensures RestoreStep(acc, sub, s, durationMs) ==
              RestoreAcc(acc.lines.Set(sub.id, Restored(sub, s, durationMs)),
                         acc.timeChanged + (if HasTimeDiff(sub, s, durationMs) then [Restored(sub, s, durationMs)] else []),
                         true)
  {
  }

  /** A turn on an unchanged line only clears its adjusted times in the
      collection. */
  lemma RestoreStepUnchanged(acc: RestoreAcc, sub: Subtitle, s: Settings, durationMs: int)
    requires acc.lines.Valid()
    requires !HasTextDiff(sub) && !HasTimeDiff(sub, s, durationMs)
    ensures var r := RestoreStep(acc, sub, s, durationMs);
            && r.timeChanged == acc.timeChanged && r.hadChange == acc.hadChange
            && r.lines == if sub.id in acc.lines.entries
                          then acc.lines.Set(sub.id, Cleared(acc.lines.entries[sub.id])) else acc.lines
  {
  }

  /** `executeRestoreSubtitle(subtitles)`, the database write ending with
      `failure`; a missing subtitle file rejects the call. */
  method ExecuteRestoreSubtitle(st: AppState, subtitles: seq<Subtitle>, failure: Option<string>) returns (r: Outcome)
    requires st.values.currentSubtitles.Valid()
    modifies st
    ensures (st.values, r) == RestoreEffect(old(st.values), subtitles, failure)
  {
    var currentSubtitles := st.values.currentSubtitles;
    var duration := st.values.durationMs;
    var s := st.values.settings;
    var changedSubtitles: seq<Subtitle> := [];
    var hadChange := false;
    var index := 0;
    while index < |subtitles|
      invariant 0 <= index <= |subtitles|
      invariant currentSubtitles.Valid() && st.values == old(st.values)
      invariant RestoreAcc(currentSubtitles, changedSubtitles, hadChange)
                == RestoreAll(RestoreAcc(old(st.values.currentSubtitles), [], false), subtitles[..index], s, duration)
    {
      currentSubtitles, changedSubtitles, hadChange :=
        RestoreTurn(currentSubtitles, changedSubtitles, hadChange, subtitles[index], s, duration);
      assert subtitles[..index + 1][..index] == subtitles[..index];
      index := index + 1;
    }
    assert subtitles[..index] == subtitles;
    ghost var acc := RestoreAcc(currentSubtitles, changedSubtitles, hadChange);
    assert acc == RestoreAll(RestoreAcc(st.values.currentSubtitles, [], false), subtitles, st.values.settings, st.values.durationMs);
    r := FinishRestore(st, currentSubtitles, changedSubtitles, hadChange, failure);
  }

  /** What follows the restore loop. */
  method FinishRestore(st: AppState, currentSubtitles: OrderedMap<string, Subtitle>, changedSubtitles: seq<Subtitle>,
                       hadChange: bool, failure: Option<string>) returns (r: Outcome)
    requires currentSubtitles.Valid()
    modifies st
    ensures (st.values, r) == RestoreFinish(old(st.values), RestoreAcc(currentSubtitles, changedSubtitles, hadChange), failure)
  {
    st.values := st.values.(currentSubtitles := currentSubtitles);
    if !hadChange {
      return Pass;
    }
    st.values := st.values.(events := st.values.events + [SubtitlesStoreSet],
                            subtitleChanges := st.values.subtitleChanges + [SubtitleChange(changedSubtitles, false)]);
    if !st.values.settings.subtitlesEnablePersist {
      return Pass;
    }
    st.values := st.values.(lastError := "");
    r := PersistCaught(st, currentSubtitles.Values(), failure, "");
  }

  /** `persistSubtitles(...)` of the whole collection under the current
      file's name, its failure caught into `lastError` behind `prefix`. */
  method PersistCaught(st: AppState, subtitles: seq<Subtitle>, failure: Option<string>, prefix: string)
    returns (r: Outcome)
    modifies st
    ensures (st.values, r) == PersistOrError(old(st.values), subtitles, failure, prefix)
  {
    if st.values.currentSubtitleFile.None? {
      return Fail(MissingFileName);
    }
    var persisted := PersistSubtitles(st, SubtitleData(st.values.currentSubtitleFile.value.name, subtitles), failure);
    if persisted.Fail? {
      st.values := st.values.(lastError := prefix + persisted.message);
    }
    r := Pass;
  }

  /** A restored line has the times loading its original times gives. */
  lemma RestoredLine(sub: Subtitle, s: Settings, durationMs: int, format: Files.SubtitleFormat, p: Files.ParsedLine, index: nat)
    requires p.startMs == sub.originalStartMs && p.endMs == sub.originalEndMs
    ensures var r := Restored(sub, s, durationMs);
            var loaded := Files.LoadedLine(format, p, index, s, durationMs);
            && r.startMs == loaded.startMs && r.startTime == loaded.startTime
            && r.endMs == loaded.endMs && r.endTime == loaded.endTime
  {
  }

  /** A restored line keeps its identity and original text, shows that
      text, and has no adjusted time and no difference left to restore. */
  lemma RestoredClean(sub: Subtitle, s: Settings, durationMs: int)
    ensures var r := Restored(sub, s, durationMs);
            && r.text == sub.originalText && r.adjustedStartMs.None? && r.adjustedEndMs.None?
            && r.id == sub.id && r.originalText == sub.originalText && r.subIndex == sub.subIndex
            && !HasTextDiff(r) && !HasTimeDiff(r, s, durationMs)
  {
    var start, end := RestoredStartMs(sub, s), RestoredEndMs(sub, s, durationMs);
    ClearedWithOriginalText(sub, start, ToTimeStamp(start), end, ToTimeStamp(end), s, durationMs);
  }

  /** Any line cleared of its adjusted times and showing its original text
      has no difference left, whatever times it is given. */
  lemma ClearedWithOriginalText(sub: Subtitle, start: int, startTime: string, end: int, endTime: string,
                                s: Settings, durationMs: int)
    ensures var r := Cleared(sub).(startMs := start, startTime := startTime, endMs := end, endTime := endTime,
                                   text := sub.originalText);
            && r.text == sub.originalText && r.adjustedStartMs.None? && r.adjustedEndMs.None?
            && r.id == sub.id && r.originalText == sub.originalText && r.subIndex == sub.subIndex
            && !HasTextDiff(r) && !HasTimeDiff(r, s, durationMs)
  {
  }

  /** Time-changed lines, restored, in order: what the restore's change
      event lists. */
  function TimeChangedLines(subs: seq<Subtitle>, s: Settings, durationMs: int): seq<Subtitle> {
    if subs == [] then []
    else TimeChangedLines(subs[..|subs| - 1], s, durationMs)
         + (if HasTimeDiff(subs[|subs| - 1], s, durationMs) then [Restored(subs[|subs| - 1], s, durationMs)] else [])
  }

  /** Some line of `subs` has a text or time difference. */
  predicate AnyChanged(subs: seq<Subtitle>, s: Settings, durationMs: int) {
    exists j :: 0 <= j < |subs| && (HasTextDiff(subs[j]) || HasTimeDiff(subs[j], s, durationMs))
  }

  /** The restore loop reports a change exactly when some targeted line
      differs. */
  lemma {:induction false} RestoreAllChanged(acc: RestoreAcc, subs: seq<Subtitle>, s: Settings, durationMs: int)
    requires acc.lines.Valid()
    ensures RestoreAll(acc, subs, s, durationMs).hadChange <==> acc.hadChange || AnyChanged(subs, s, durationMs)
    decreases |subs|
  {
    if subs != [] {
      var init := subs[..|subs| - 1];
      var last := subs[|subs| - 1];
      RestoreAllChanged(acc, init, s, durationMs);
      assert AnyChanged(subs, s, durationMs) <==>
             AnyChanged(init, s, durationMs) || HasTextDiff(last) || HasTimeDiff(last, s, durationMs) by {
        if AnyChanged(init, s, durationMs) {
          var j :| 0 <= j < |init| && (HasTextDiff(init[j]) || HasTimeDiff(init[j], s, durationMs));
          assert subs[j] == init[j];
        }
        if AnyChanged(subs, s, durationMs) {
          var j :| 0 <= j < |subs| && (HasTextDiff(subs[j]) || HasTimeDiff(subs[j], s, durationMs));
          if j < |init| {
            assert subs[j] == init[j];
          }
        }
      }
    }
  }

  /** The restore loop lists exactly the time-changed lines, restored, in
      order. */
  lemma {:induction false} RestoreAllTimeChanged(acc: RestoreAcc, subs: seq<Subtitle>, s: Settings, durationMs: int)
    requires acc.lines.Valid()
    ensures RestoreAll(acc, subs, s, durationMs).timeChanged == acc.timeChanged + TimeChangedLines(subs, s, durationMs)
    decreases |subs|
  {
    if subs != [] {
      var init, last := subs[..|subs| - 1], subs[|subs| - 1];
      RestoreAllTimeChanged(acc, init, s, durationMs);
      var mid := RestoreAll(acc, init, s, durationMs);
      RestoreStepLists(mid, last, s, durationMs);
      var tail := if HasTimeDiff(last, s, durationMs) then [Restored(last, s, durationMs)] else [];
      assert TimeChangedLines(subs, s, durationMs) == TimeChangedLines(init, s, durationMs) + tail;
      AppendAssoc(acc.timeChanged, TimeChangedLines(init, s, durationMs), tail);
    }
  }

  /** One turn lists the line, restored, exactly when its times differ. */
  lemma RestoreStepLists(acc: RestoreAcc, sub: Subtitle, s: Settings, durationMs: int)
    requires acc.lines.Valid()
    ensures RestoreStep(acc, sub, s, durationMs).timeChanged
            == acc.timeChanged + (if HasTimeDiff(sub, s, durationMs) then [Restored(sub, s, durationMs)] else [])
  {
  }

  /** Id `k` is the id of one of `subs`. */
  predicate Targets(subs: seq<Subtitle>, k: string) {
    exists j :: 0 <= j < |subs| && subs[j].id == k
  }

  lemma TargetsSnoc(subs: seq<Subtitle>, k: string)
    requires subs != []
    ensures Targets(subs, k) <==> Targets(subs[..|subs| - 1], k) || subs[|subs| - 1].id == k
  {
    var init := subs[..|subs| - 1];
    if Targets(init, k) {
      var j :| 0 <= j < |init| && init[j].id == k;
      assert subs[j] == init[j];
    }
    if Targets(subs, k) {
      var j :| 0 <= j < |subs| && subs[j].id == k;
      if j < |init| {
        assert subs[j] == init[j];
      }
    }
  }

  /** The restore loop adds no line it was not given and leaves every line
      it was not given as it was. */
  lemma {:induction false} RestoreAllUntargeted(acc: RestoreAcc, subs: seq<Subtitle>, s: Settings, durationMs: int, k: string)
    requires acc.lines.Valid()
    ensures var r := RestoreAll(acc, subs, s, durationMs);
            && (k in r.lines.entries && k !in acc.lines.entries ==> Targets(subs, k))
            && (k in acc.lines.entries && !Targets(subs, k) ==>
                  k in r.lines.entries && r.lines.entries[k] == acc.lines.entries[k])
    decreases |subs|
  {
    if subs != [] {
      RestoreAllUntargeted(acc, subs[..|subs| - 1], s, durationMs, k);
      TargetsSnoc(subs, k);
    }
  }

  lemma PrefixOfAppend<T>(a: seq<T>, b: seq<T>)
    ensures (a + b)[..|a|] == a
  {
  }

  /** Persisting touches neither the collection nor the change events, and
      only appends to the event log. */
  lemma PersistOrErrorKeeps(v: StoreValues, subtitles: seq<Subtitle>, failure: Option<string>, prefix: string)
    ensures var w := PersistOrError(v, subtitles, failure, prefix).0;
            && w.currentSubtitles == v.currentSubtitles && w.subtitleChanges == v.subtitleChanges
            && |w.events| >= |v.events| && w.events[..|v.events|] == v.events
  {
    PersistOrErrorLines(v, subtitles, failure, prefix);
    PersistOrErrorEvents(v, subtitles, failure, prefix);
  }

  lemma PersistOrErrorLines(v: StoreValues, subtitles: seq<Subtitle>, failure: Option<string>, prefix: string)
    ensures var w := PersistOrError(v, subtitles, failure, prefix).0;
            w.currentSubtitles == v.currentSubtitles && w.subtitleChanges == v.subtitleChanges
  {
    match failure
    case None =>
    case Some(m) =>
  }

  lemma PersistOrErrorEvents(v: StoreValues, subtitles: seq<Subtitle>, failure: Option<string>, prefix: string)
    ensures var w := PersistOrError(v, subtitles, failure, prefix).0;
            |w.events| >= |v.events| && w.events[..|v.events|] == v.events
  {
    PrefixOfAppend(v.events, [SyncRequested, ExtensionDataSet]);
    PrefixOfAppend(v.events, [ExtensionDataSet]);
    match failure
    case None =>
    case Some(m) =>
  }

  /** What follows the restore loop: the collection is the loop's; without
      a change nothing else differs; with one, a store update and one
      change event listing the loop's time-changed lines come first, and
      the database is written only when the persist setting is on. */
  lemma RestoreFinishFacts(v: StoreValues, acc: RestoreAcc, failure: Option<string>)
    requires acc.lines.Valid()
    ensures var (w, r) := RestoreFinish(v, acc, failure);
            && w.currentSubtitles == acc.lines
            && (!acc.hadChange ==> w == v.(currentSubtitles := acc.lines) && r == Pass)
            && (acc.hadChange ==>
                  && w.subtitleChanges == v.subtitleChanges + [SubtitleChange(acc.timeChanged, false)]
                  && |w.events| > |v.events| && w.events[..|v.events| + 1] == v.events + [SubtitlesStoreSet])
            && (!v.settings.subtitlesEnablePersist ==> w.persistedSubtitleData == v.persistedSubtitleData)
  {
    if acc.hadChange && v.settings.subtitlesEnablePersist {
      var w := v.(currentSubtitles := acc.lines);
      var w1 := w.(events := w.events + [SubtitlesStoreSet],
                   subtitleChanges := w.subtitleChanges + [SubtitleChange(acc.timeChanged, false)]);
      PersistOrErrorKeeps(w1.(lastError := ""), acc.lines.Values(), failure, "");
      var w2 := RestoreFinish(v, acc, failure).0;
      assert w2.events[..|v.events| + 1] == w1.events[..|v.events| + 1];
    }
  }

  /** A restore with no changed line updates no store, emits no change
      event and persists nothing; it only clears the collection's adjusted
      times in place. */
  lemma RestoreWithoutChange(v: StoreValues, subs: seq<Subtitle>, failure: Option<string>)
    requires v.currentSubtitles.Valid()
    requires !AnyChanged(subs, v.settings, v.durationMs)
    ensures RestoreEffect(v, subs, failure).1 == Pass
    ensures RestoreEffect(v, subs, failure).0 == v.(currentSubtitles := RestoreEffect(v, subs, failure).0.currentSubtitles)
  {
    var acc := RestoreAll(RestoreAcc(v.currentSubtitles, [], false), subs, v.settings, v.durationMs);
    RestoreAllChanged(RestoreAcc(v.currentSubtitles, [], false), subs, v.settings, v.durationMs);
    RestoreFinishFacts(v, acc, failure);
  }

  /** A restore with a change first sets the collection store and emits
      one change event listing exactly the time-changed lines; it persists
      only when the persist setting is on. */
  lemma RestoreWithChange(v: StoreValues, subs: seq<Subtitle>, failure: Option<string>)
    requires v.currentSubtitles.Valid()
    requires AnyChanged(subs, v.settings, v.durationMs)
    ensures var w := RestoreEffect(v, subs, failure).0;
            && |w.events| > |v.events| && w.events[..|v.events| + 1] == v.events + [SubtitlesStoreSet]
            && w.subtitleChanges == v.subtitleChanges + [SubtitleChange(TimeChangedLines(subs, v.settings, v.durationMs), false)]
            && (!v.settings.subtitlesEnablePersist ==> w.persistedSubtitleData == v.persistedSubtitleData)
  {
    var acc0 := RestoreAcc(v.currentSubtitles, [], false);
    var acc := RestoreAll(acc0, subs, v.settings, v.durationMs);
    RestoreAllChanged(acc0, subs, v.settings, v.durationMs);
    RestoreAllTimeChanged(acc0, subs, v.settings, v.durationMs);
    assert acc.timeChanged == TimeChangedLines(subs, v.settings, v.durationMs);
    RestoreFinishFacts(v, acc, failure);
  }

  /** A line the restore was not given keeps its value. */
  lemma RestoreKeepsOthers(v: StoreValues, subs: seq<Subtitle>, failure: Option<string>, k: string)
    requires v.currentSubtitles.Valid()
    requires k in v.currentSubtitles.entries && !Targets(subs, k)
    ensures k in RestoreEffect(v, subs, failure).0.currentSubtitles.entries
    ensures RestoreEffect(v, subs, failure).0.currentSubtitles.entries[k] == v.currentSubtitles.entries[k]
  {
    var acc := RestoreAll(RestoreAcc(v.currentSubtitles, [], false), subs, v.settings, v.durationMs);
    RestoreAllUntargeted(RestoreAcc(v.currentSubtitles, [], false), subs, v.settings, v.durationMs, k);
    RestoreFinishFacts(v, acc, failure);
  }

  // ---------------------------------------------------------------------
  // executeAlignSubtitle
  // ---------------------------------------------------------------------

  /** A `span` of the book's HTML that marks part of a line: the id its
      line class names, the tag name of its parent (lower-cased) and its
      `innerText`. */
  datatype Span = Span(lineId: string, parentTag: string, innerText: string)

  /** `allIgnoredElements`: the ruby annotation tags whose text is not part
      of the line. */
  predicate IsIgnored(parentTag: string) {
    parentTag == "rp" || parentTag == "rt"
  }

  /** `book.querySelectorAll(getLineCSSSelectorForId(id))`: the line's
      spans in document order. */
  function LineSpans(book: seq<Span>, id: string): (r: seq<Span>)
    ensures forall k :: 0 <= k < |r| ==> r[k].lineId == id && r[k] in book
  {
    if book == [] then []
    else LineSpans(book[..|book| - 1], id) + (if book[|book| - 1].lineId == id then [book[|book| - 1]] else [])
  }

  /** The text of a line: the trimmed text of each of its spans outside a
      ruby annotation, concatenated. */
  function LineText(elements: seq<Span>): (r: string)
    ensures (forall k :: 0 <= k < |elements| ==> IsIgnored(elements[k].parentTag)) ==> r == ""
  {
    if elements == [] then ""
    else LineText(elements[..|elements| - 1])
         + (if IsIgnored(elements[|elements| - 1].parentTag) then "" else Trim(elements[|elements| - 1].innerText))
  }

  /** The inner loop of `executeAlignSubtitle`. */
  method ExtractLineText(elements: seq<Span>) returns (text: string)
    ensures text == LineText(elements)
  {
    text := "";
    var index2 := 0;
    while index2 < |elements|
      invariant 0 <= index2 <= |elements|
      invariant text == LineText(elements[..index2])
    {
      var element := elements[index2];
      if !IsIgnored(element.parentTag) {
        text := text + Trim(element.innerText);
      }
      assert elements[..index2 + 1][..index2] == elements[..index2];
      index2 := index2 + 1;
    }
    assert elements[..index2] == elements;
  }

  /** The text of consecutive runs of spans is the concatenation of their
      texts. */
  lemma {:induction false} LineTextAppend(a: seq<Span>, b: seq<Span>)
    ensures LineText(a + b) == LineText(a) + LineText(b)
    decreases |b|
  {
    if b == [] {
      assert a + b == a;
    } else {
      var init := b[..|b| - 1];
      assert (a + b)[..|a + b| - 1] == a + init;
      assert (a + b)[|a + b| - 1] == b[|b| - 1];
      LineTextAppend(a, init);
      AppendAssoc(LineText(a), LineText(init),
                  if IsIgnored(b[|b| - 1].parentTag) then "" else Trim(b[|b| - 1].innerText));
    }
  }

  /** A span inside `rp` or `rt` adds nothing to the line's text; any other
      span adds its trimmed text in its place. */
  lemma LineTextSpan(a: seq<Span>, span: Span, b: seq<Span>)
    ensures IsIgnored(span.parentTag) ==> LineText(a + [span] + b) == LineText(a + b)
    ensures !IsIgnored(span.parentTag) ==> LineText(a + [span] + b) == LineText(a) + Trim(span.innerText) + LineText(b)
  {
    LineTextAppend(a + [span], b);
    LineTextAppend(a, [span]);
    LineTextAppend(a, b);
    var piece := if IsIgnored(span.parentTag) then "" else Trim(span.innerText);
    assert LineText([span]) == LineText([]) + piece by {
      assert [span][..0] == [];
    }
    AppendEmptyLeft(piece);
    if IsIgnored(span.parentTag) {
      AppendEmptyRight(LineText(a));
    }
  }

  lemma AppendEmptyLeft<T>(a: seq<T>)
    ensures [] + a == a
  {
  }

  lemma AppendEmptyRight<T>(a: seq<T>)
    ensures a + [] == a
  {
  }

  /** The message of the `TypeError` a line missing from the collection
      raises where its id is read. */
  const MissingLineId: string := "Cannot read properties of undefined (reading 'id')"

  /** What the align loop has built so far: the collection (changed in
      place), whether any line changed, and whether a line was missing,
      which throws out of the loop. */
  datatype AlignAcc = AlignAcc(lines: OrderedMap<string, Subtitle>, hadChange: bool, missing: bool)

  /** One turn of the align loop: the stored line's text becomes the book's
      text for it when that differs from the line's original text. */
  function AlignStep(acc: AlignAcc, sub: Subtitle, book: seq<Span>): (r: AlignAcc)
    requires acc.lines.Valid()
    ensures r.lines.Valid()
  {
    if sub.id !in acc.lines.entries then acc.(missing := true)
    else
      var subtitle := acc.lines.entries[sub.id];
      var text := LineText(LineSpans(book, subtitle.id));
      if text != subtitle.originalText then
        acc.(lines := acc.lines.Set(sub.id, subtitle.(text := text)), hadChange := true)
      else acc
  }

  /** The align loop over `subs`, from `acc`, stopping at a missing line. */
  function AlignAll(acc: AlignAcc, subs: seq<Subtitle>, book: seq<Span>): (r: AlignAcc)
    requires acc.lines.Valid()
    ensures r.lines.Valid()
  {
    if subs == [] then acc
    else
      var mid := AlignAll(acc, subs[..|subs| - 1], book);
      if mid.missing then mid else AlignStep(mid, subs[|subs| - 1], book)
  }

  /** The prefix of every message `executeAlignSubtitle` catches. */
  const AlignFailurePrefix: string := "Failed to align: "

  /** The stores after `executeAlignSubtitle(subs, persistAlignment)` over
      the book's spans `book`, the database write ending with `failure`.
      Every error is caught into `lastError`. */
  function AlignEffect(v: StoreValues, subs: seq<Subtitle>, persistAlignment: bool, book: seq<Span>,
                       failure: Option<string>): (r: StoreValues)
    requires v.currentSubtitles.Valid()
    ensures r.currentSubtitles.Valid()
    ensures r.persistedSubtitleData != v.persistedSubtitleData ==> persistAlignment && v.settings.subtitlesEnablePersist
  {
    var acc := AlignAll(AlignAcc(v.currentSubtitles, false, false), subs, book);
    AlignFinishFacts(v.(lastError := ""), acc, persistAlignment, failure);
    AlignFinish(v.(lastError := ""), acc, persistAlignment, failure)
  }

  /** What follows the align loop. */
  function AlignFinish(v: StoreValues, acc: AlignAcc, persistAlignment: bool, failure: Option<string>): StoreValues
    requires acc.lines.Valid()
  {
    var w := v.(currentSubtitles := acc.lines);
    if acc.missing then w.(lastError := AlignFailurePrefix + MissingLineId)
    else if !acc.hadChange then w
    else
      var w1 := w.(events := w.events + [SubtitlesStoreSet]);
      if !persistAlignment || !v.settings.subtitlesEnablePersist then w1
      else
        var (w2, r) := PersistOrError(w1.(lastError := ""), acc.lines.Values(), failure, AlignFailurePrefix);
        if r.Fail? then w2.(lastError := AlignFailurePrefix + r.message) else w2
  }

  /** One turn of the align loop on the local collection. */
  method AlignTurn(currentSubtitles: OrderedMap<string, Subtitle>, hadChange: bool, sub: Subtitle, book: seq<Span>)
    returns (currentSubtitles': OrderedMap<string, Subtitle>, hadChange': bool, missing: bool)
    requires currentSubtitles.Valid()
    ensures var step := AlignStep(AlignAcc(currentSubtitles, hadChange, false), sub, book);
            currentSubtitles' == step.lines && hadChange' == step.hadChange && missing == step.missing
  {
    currentSubtitles', hadChange', missing := currentSubtitles, hadChange, false;
    if sub.id !in currentSubtitles.entries {
      missing := true;
      return;
    }
    var subtitle := currentSubtitles.entries[sub.id];
    var text := ExtractLineText(LineSpans(book, subtitle.id));
    if text != subtitle.originalText {
      currentSubtitles' := currentSubtitles.Set(sub.id, subtitle.(text := text));
      hadChange' := true;
    }
  }

  /** `executeAlignSubtitle(subtitles, persistAlignment)`: the book's spans
      are `book` and the database write ends with `failure`. */
  method ExecuteAlignSubtitle(st: AppState, subtitles: seq<Subtitle>, persistAlignment: bool, book: seq<Span>,
                        failure: Option<string>)
    requires st.values.currentSubtitles.Valid()
    modifies st
    ensures st.values == AlignEffect(old(st.values), subtitles, persistAlignment, book, failure)
  {
    st.values := st.values.(lastError := "");
    var currentSubtitles := st.values.currentSubtitles;
    var hadChange := false;
    var missing := false;
    var index := 0;
    while index < |subtitles| && !missing
      invariant 0 <= index <= |subtitles|
      invariant currentSubtitles.Valid() && st.values == old(st.values).(lastError := "")
      invariant AlignAcc(currentSubtitles, hadChange, missing)
                == AlignAll(AlignAcc(old(st.values.currentSubtitles), false, false), subtitles[..index], book)
    {
      currentSubtitles, hadChange, missing := AlignTurn(currentSubtitles, hadChange, subtitles[index], book);
      assert subtitles[..index + 1][..index] == subtitles[..index];
      index := index + 1;
    }
    AlignStopped(AlignAcc(old(st.values.currentSubtitles), false, false), subtitles, index, book);
    AlignFinishing(st, AlignAcc(currentSubtitles, hadChange, missing), persistAlignment, failure);
  }

  /** Once the loop has met a missing line, the later lines change nothing. */
  lemma {:induction false} AlignStopped(acc: AlignAcc, subs: seq<Subtitle>, index: nat, book: seq<Span>)
    requires acc.lines.Valid() && index <= |subs|
    requires index == |subs| || AlignAll(acc, subs[..index], book).missing
    ensures AlignAll(acc, subs, book) == AlignAll(acc, subs[..index], book)
    decreases |subs| - index
  {
    if index < |subs| {
      assert subs[..|subs| - 1][..index] == subs[..index];
      AlignStopped(acc, subs[..|subs| - 1], index, book);
    } else {
      assert subs[..index] == subs;
    }
  }

  /** What follows the align loop, on the stores. */
  method AlignFinishing(st: AppState, acc: AlignAcc, persistAlignment: bool, failure: Option<string>)
    requires acc.lines.Valid()
    modifies st
    ensures st.values == AlignFinish(old(st.values), acc, persistAlignment, failure)
  {
    st.values := st.values.(currentSubtitles := acc.lines);
    if acc.missing {
      st.values := st.values.(lastError := AlignFailurePrefix + MissingLineId);
      return;
    }
    if !acc.hadChange {
      return;
    }
    st.values := st.values.(events := st.values.events + [SubtitlesStoreSet]);
    if !persistAlignment || !st.values.settings.subtitlesEnablePersist {
      return;
    }
    st.values := st.values.(lastError := "");
    var r := PersistCaught(st, acc.lines.Values(), failure, AlignFailurePrefix);
    if r.Fail? {
      st.values := st.values.(lastError := AlignFailurePrefix + r.message);
    }
  }

  /** `after` is `before` aligned against `book`: only its text may
      differ; a new text is the book's text for the line and differs from
      the original text; a line whose book text is its original text is
      left as it was, even with an edited text. */
  predicate AlignedFrom(before: Subtitle, after: Subtitle, book: seq<Span>) {
    && after == before.(text := after.text)
    && (after.text != before.text ==>
          after.text == LineText(LineSpans(book, before.id)) && after.text != before.originalText)
    && (LineText(LineSpans(book, before.id)) == before.originalText ==> after == before)
  }

  lemma AlignedTransitive(a: Subtitle, b: Subtitle, c: Subtitle, book: seq<Span>)
    requires AlignedFrom(a, b, book) && AlignedFrom(b, c, book)
    ensures AlignedFrom(a, c, book)
  {
  }

  /** One turn of the align loop keeps the keys and aligns each line. */
  lemma AlignStepLines(acc: AlignAcc, sub: Subtitle, book: seq<Span>, k: string)
    requires acc.lines.Valid()
    ensures var r := AlignStep(acc, sub, book);
            && r.lines.keys == acc.lines.keys
            && (k in acc.lines.entries ==> k in r.lines.entries && AlignedFrom(acc.lines.entries[k], r.lines.entries[k], book))
            && (!r.hadChange ==> r.lines == acc.lines)
  {
  }

  /** The align loop keeps every key in its place and aligns every line:
      only `text` ever changes. */
  lemma {:induction false} AlignAllLines(acc: AlignAcc, subs: seq<Subtitle>, book: seq<Span>, k: string)
    requires acc.lines.Valid()
    ensures var r := AlignAll(acc, subs, book);
            && r.lines.keys == acc.lines.keys
            && (k in acc.lines.entries ==> k in r.lines.entries && AlignedFrom(acc.lines.entries[k], r.lines.entries[k], book))
            && (!r.hadChange ==> r.lines == acc.lines)
    decreases |subs|
  {
    if subs != [] {
      AlignAllLines(acc, subs[..|subs| - 1], book, k);
      var mid := AlignAll(acc, subs[..|subs| - 1], book);
      if !mid.missing {
        AlignStepLines(mid, subs[|subs| - 1], book, k);
        if k in acc.lines.entries {
          AlignedTransitive(acc.lines.entries[k], mid.lines.entries[k],
                            AlignStep(mid, subs[|subs| - 1], book).lines.entries[k], book);
        }
      }
    }
  }

  /** What follows the align loop: without a missing line and without a
      change nothing but the collection differs; the database is written
      only after a change and when both `persistAlignment` and the persist
      setting are on; the collection is the loop's. */
  lemma AlignFinishFacts(v: StoreValues, acc: AlignAcc, persistAlignment: bool, failure: Option<string>)
    requires acc.lines.Valid()
    ensures var w := AlignFinish(v, acc, persistAlignment, failure);
            && w.currentSubtitles == acc.lines
            && (!acc.missing && !acc.hadChange ==> w == v.(currentSubtitles := acc.lines))
            && (w.persistedSubtitleData != v.persistedSubtitleData ==>
                  !acc.missing && acc.hadChange && persistAlignment && v.settings.subtitlesEnablePersist)
  {
    if !acc.missing && acc.hadChange && persistAlignment && v.settings.subtitlesEnablePersist {
      var w1 := v.(currentSubtitles := acc.lines).(events := v.events + [SubtitlesStoreSet]);
      PersistOrErrorKeeps(w1.(lastError := ""), acc.lines.Values(), failure, AlignFailurePrefix);
    }
  }

  /** Aligning with no missing and no changed line only clears `lastError`:
      no store is set and nothing is persisted. */
  lemma AlignWithoutChange(v: StoreValues, subs: seq<Subtitle>, persistAlignment: bool, book: seq<Span>,
                           failure: Option<string>)
    requires v.currentSubtitles.Valid()
    requires var acc := AlignAll(AlignAcc(v.currentSubtitles, false, false), subs, book); !acc.missing && !acc.hadChange
    ensures AlignEffect(v, subs, persistAlignment, book, failure) == v.(lastError := "")
  {
    var acc0 := AlignAcc(v.currentSubtitles, false, false);
    AlignAllLines(acc0, subs, book, "");
    AlignFinishFacts(v.(lastError := ""), AlignAll(acc0, subs, book), persistAlignment, failure);
  }

  /** Aligning persists only after a change and only when `persistAlignment`
      and the persist setting are both on. */
  lemma AlignPersistsOnlyWhenAsked(v: StoreValues, subs: seq<Subtitle>, persistAlignment: bool, book: seq<Span>,
                                   failure: Option<string>)
    requires v.currentSubtitles.Valid()
    ensures AlignEffect(v, subs, persistAlignment, book, failure).persistedSubtitleData != v.persistedSubtitleData ==>
              AlignAll(AlignAcc(v.currentSubtitles, false, false), subs, book).hadChange &&
              persistAlignment && v.settings.subtitlesEnablePersist
  {
    var acc0 := AlignAcc(v.currentSubtitles, false, false);
    AlignFinishFacts(v.(lastError := ""), AlignAll(acc0, subs, book), persistAlignment, failure);
  }

  /** Aligning keeps the collection's keys and every field of every line
      but `text`. */
  lemma AlignOnlyText(v: StoreValues, subs: seq<Subtitle>, persistAlignment: bool, book: seq<Span>,
                      failure: Option<string>, k: string)
    requires v.currentSubtitles.Valid()
    ensures var w := AlignEffect(v, subs, persistAlignment, book, failure);
            && w.currentSubtitles.keys == v.currentSubtitles.keys
            && (k in v.currentSubtitles.entries ==>
                  k in w.currentSubtitles.entries &&
                  w.currentSubtitles.entries[k] == v.currentSubtitles.entries[k].(text := w.currentSubtitles.entries[k].text))
  {
    var acc0 := AlignAcc(v.currentSubtitles, false, false);
    AlignAllLines(acc0, subs, book, k);
    AlignFinishFacts(v.(lastError := ""), AlignAll(acc0, subs, book), persistAlignment, failure);
  }

  // ---------------------------------------------------------------------
  // executeEditSubtitle
  // ---------------------------------------------------------------------

  /** What the edit dialog resolves with (`EditSubtitleResult`); an empty
      `error` is none. */
  datatype EditDialogResult = EditDialogResult(error: string, wasCanceled: bool, subtitle: Option<Subtitle>)

  /** `subtitles[index] = line` on a JavaScript array: in range it replaces,
      at the end it appends. */
  function Replaced(subtitles: seq<Subtitle>, index: int, line: Subtitle): (r: seq<Subtitle>)
    ensures 0 <= index < |subtitles| ==>
              |r| == |subtitles| && r[index] == line && (forall k :: 0 <= k < |r| && k != index ==> r[k] == subtitles[k])
    ensures index == |subtitles| ==> r == subtitles + [line]
  {
    if 0 <= index < |subtitles| then subtitles[index := line]
    else if index == |subtitles| then subtitles + [line]
    else subtitles
  }

  /** The stores and the outcome of `executeEditSubtitle(active)` whose
      dialog resolves with `result` and whose database write ends with
      `failure`. */
  function EditEffect(v: StoreValues, active: Subtitle, result: EditDialogResult, failure: Option<string>)
    : (r: (StoreValues, Outcome))
    requires v.currentSubtitles.Valid()
    ensures r.0.paused && r.0.currentSubtitles.Valid()
    ensures r.1.Fail? ==> r.1 == Fail(MissingFileName)
    ensures !v.settings.subtitlesEnablePersist ==> r.0.persistedSubtitleData == v.persistedSubtitleData && r.1 == Pass
  {
    var v0 := v.(paused := true);
    if result.error != "" then (v0.(lastError := result.error), Pass)
    else if result.wasCanceled || result.subtitle.None? then (v0, Pass)
    else
      var line := result.subtitle.value;
      var w := v0.(currentSubtitles := v.currentSubtitles.Set(active.id, line),
                   events := v.events + [SubtitlesStoreSet],
                   subtitleChanges := v.subtitleChanges + [SubtitleChange([line], false)]);
      if !v.settings.subtitlesEnablePersist then (w, Pass)
      else
        var lines := Replaced(v.currentSubtitles.Values(), line.subIndex, line);
        PersistOrErrorLines(w.(lastError := ""), lines, failure, "");
        PersistOrError(w.(lastError := ""), lines, failure, "")
  }

  /** `executeEditSubtitle(activeSubtitle)`: the dialog resolves with
      `result`; the database write ends with `failure`. */
  method ExecuteEditSubtitle(st: AppState, activeSubtitle: Subtitle, result: EditDialogResult, failure: Option<string>)
    returns (r: Outcome)
    requires st.values.currentSubtitles.Valid()
    modifies st
    ensures (st.values, r) == EditEffect(old(st.values), activeSubtitle, result, failure)
  {
    st.values := st.values.(paused := true);
    var currentSubtitles := st.values.currentSubtitles;
    var subtitles := currentSubtitles.Values();
    if result.error != "" {
      st.values := st.values.(lastError := result.error);
      return Pass;
    }
    if result.wasCanceled || result.subtitle.None? {
      return Pass;
    }
    var line := result.subtitle.value;
    st.values := st.values.(currentSubtitles := currentSubtitles.Set(activeSubtitle.id, line),
                            events := st.values.events + [SubtitlesStoreSet],
                            subtitleChanges := st.values.subtitleChanges + [SubtitleChange([line], false)]);
    if !st.values.settings.subtitlesEnablePersist {
      return Pass;
    }
    st.values := st.values.(lastError := "");
    if 0 <= line.subIndex < |subtitles| {
      subtitles := subtitles[line.subIndex := line];
    } else if line.subIndex == |subtitles| {
      subtitles := subtitles + [line];
    }
    r := PersistCaught(st, subtitles, failure, "");
  }

  /** An error or a cancelled dialog only pauses playback, and reports the
      error. */
  lemma EditRejected(v: StoreValues, active: Subtitle, result: EditDialogResult, failure: Option<string>)
    requires v.currentSubtitles.Valid()
    requires result.error != "" || result.wasCanceled || result.subtitle.None?
    ensures EditEffect(v, active, result, failure).1 == Pass
    ensures EditEffect(v, active, result, failure).0
            == if result.error != "" then v.(paused := true, lastError := result.error) else v.(paused := true)
  {
  }

  /** A saved edit pauses playback, stores the line under the edited line's
      id, leaves every other line as it was and emits one change event
      holding the new line. */
  lemma EditSaved(v: StoreValues, active: Subtitle, result: EditDialogResult, failure: Option<string>, k: string)
    requires v.currentSubtitles.Valid()
    requires result.error == "" && !result.wasCanceled && result.subtitle.Some?
    ensures var w := EditEffect(v, active, result, failure).0;
            && w.paused
            && active.id in w.currentSubtitles.entries
            && w.currentSubtitles.entries[active.id] == result.subtitle.value
            && (k != active.id ==> (k in w.currentSubtitles.entries <==> k in v.currentSubtitles.entries))
            && (k != active.id && k in v.currentSubtitles.entries ==>
                  w.currentSubtitles.entries[k] == v.currentSubtitles.entries[k])
            && w.subtitleChanges == v.subtitleChanges + [SubtitleChange([result.subtitle.value], false)]
  {
    if v.settings.subtitlesEnablePersist {
      EditPersistStep(v, active, result, failure);
    }
  }

  lemma EditPersistStep(v: StoreValues, active: Subtitle, result: EditDialogResult, failure: Option<string>)
    requires v.currentSubtitles.Valid()
    requires result.error == "" && !result.wasCanceled && result.subtitle.Some? && v.settings.subtitlesEnablePersist
    ensures var w := EditEffect(v, active, result, failure).0;
            && w.paused
            && w.currentSubtitles == v.currentSubtitles.Set(active.id, result.subtitle.value)
            && w.subtitleChanges == v.subtitleChanges + [SubtitleChange([result.subtitle.value], false)]
  {
    var line := result.subtitle.value;
    var w := v.(paused := true).(currentSubtitles := v.currentSubtitles.Set(active.id, line),
                 events := v.events + [SubtitlesStoreSet],
                 subtitleChanges := v.subtitleChanges + [SubtitleChange([line], false)]);
    PersistOrErrorKeeps(w.(lastError := ""), Replaced(v.currentSubtitles.Values(), line.subIndex, line), failure, "");
  }

  /** An edit writes the database only for a saved line with the persist
      setting on, and then writes the lines with the new one at its own
      position. */
  lemma EditPersists(v: StoreValues, active: Subtitle, result: EditDialogResult, failure: Option<string>)
    requires v.currentSubtitles.Valid()
    ensures var w := EditEffect(v, active, result, failure).0;
            w.persistedSubtitleData != v.persistedSubtitleData ==>
              && result.error == "" && !result.wasCanceled && result.subtitle.Some?
              && v.settings.subtitlesEnablePersist && v.currentSubtitleFile.Some? && failure.None?
              && w.persistedSubtitleData
                 == Some(SubtitleData(v.currentSubtitleFile.value.name,
                                      Replaced(v.currentSubtitles.Values(), result.subtitle.value.subIndex,
                                               result.subtitle.value)))
  {
  }

  // ---------------------------------------------------------------------
  // executeAction
  // ---------------------------------------------------------------------

  /** The line argument of `executeAction`: absent, one line or a list. */
  datatype ActionTarget = Undefined | One(line: Subtitle) | Many(lines: seq<Subtitle>)

  /** `Array.isArray(subtitle) ? subtitle : [subtitle]` */
  function TargetLines(target: ActionTarget): seq<Subtitle> {
    match target
    case Undefined => []
    case One(line) => [line]
    case Many(lines) => lines
  }

  /** `ActionSettings`; an absent flag is false. */
  datatype ActionSettings = ActionSettings(mergeSubtitles: bool, skipUpdates: bool, keepPauseState: bool,
                                           persistAlignment: bool, ignoreSkipKeyListener: bool)

  /** The settings `executeAction` uses when none are given. */
  const DefaultActionSettings: ActionSettings := ActionSettings(false, false, false, true, false)

  /** The branch of `executeAction` an action takes, with what it acts on. */
  datatype Route =
    | Ignored                                   // returns before anything
    | FlipPaused                                // paused$.set(!paused)
    | Play(request: PlayLineData)               // playLine$.set(...)
    | ToggleIn(store: FilterStore, id: string)  // executeFilterAction
    | FlipShow(store: FilterStore)              // show...Only$.set(!...)
    | Edit(line: Subtitle)                      // executeEditSubtitle
    | Align(lines: seq<Subtitle>, persist: bool) // executeAlignSubtitle
    | Restore(lines: seq<Subtitle>)             // executeRestoreSubtitle
    | Copy(text: string)                        // navigator.clipboard.writeText
    | Navigate(request: PlayLineData)           // playLine$.set(...) of the neighbour
    | Export(lines: seq<Subtitle>, merge: bool, isUpdate: bool)
    | OpenGui                                   // openGUIForNote(ankiUrl)
    | Cancel                                    // exportCancelController.abort(...)
    | Unmatched                                 // no branch applies

  /** The position `PREVIOUS_SUBTITLE` and `NEXT_SUBTITLE` go to: one back,
      not before the first line, or one on, not past the last. */
  function NavigationIndex(action: Action, subIndex: int, count: int): int {
    if action.PreviousSubtitle? then (if subIndex - 1 > 0 then subIndex - 1 else 0)
    else (if subIndex + 1 < count - 1 then subIndex + 1 else count - 1)
  }

  /** The playback request of a navigation: restart the neighbour, keeping
      the pause state. A position outside the collection names no line. */
  function NavigationRequest(action: Action, line: Subtitle, values: seq<Subtitle>, skipUpdates: bool): PlayLineData {
    var index := NavigationIndex(action, line.subIndex, |values|);
    PlayLineData(RestartPlayback, if 0 <= index < |values| then [values[index]] else [], skipUpdates, true)
  }

  /** The if-chain of `executeAction`, from the stores `v`; `exportAborted`
      is whether the export controller's signal is aborted. */
  function RouteOf(action: Action, target: ActionTarget, cfg: ActionSettings, v: StoreValues, exportAborted: bool): (r: Route)
    requires v.currentSubtitles.Valid()
    ensures !r.Ignored? ==> TargetLines(target) != []
    ensures r.Edit? ==> r.line == TargetLines(target)[0]
    ensures r.ToggleIn? ==> r.id == TargetLines(target)[0].id
    ensures (r.Align? || r.Restore? || r.Export?) ==> r.lines == TargetLines(target)
    ensures v.isRecording ==> !r.FlipPaused? && !r.Play? && !r.Navigate?
  {
    var lines := TargetLines(target);
    var inFlight := v.exportCancelController != null;
    if action.NoAction? || target.Undefined? || (!cfg.ignoreSkipKeyListener && v.skipKeyListener) then Ignored
    else if lines == [] then Ignored
    else if !v.isRecording && action.TogglePlayback? then FlipPaused
    else if !v.isRecording && (action.RestartPlayback? || action.TogglePlayPause? || action.TogglePlaybackLoop?) then
      Play(PlayLineData(action, lines, cfg.skipUpdates, cfg.keepPauseState))
    else if action.ToggleBookmark? then ToggleIn(Bookmarks, lines[0].id)
    else if action.ToggleShowBookmarked? then FlipShow(Bookmarks)
    else if action.ToggleMerge? then ToggleIn(ForMerge, lines[0].id)
    else if action.ToggleShowForMerge? then FlipShow(ForMerge)
    else if !inFlight && action.EditSubtitle? then Edit(lines[0])
    else if !inFlight && action.AlignSubtitle? && v.bookMatchedBy != "" then Align(lines, cfg.persistAlignment)
    else if !inFlight && action.RestoreSubtitle? then Restore(lines)
    else if action.CopySubtitle? then Copy(lines[0].text)
    else if !v.isRecording && (action.PreviousSubtitle? || action.NextSubtitle?) then
      Navigate(NavigationRequest(action, lines[0], v.currentSubtitles.Values(), cfg.skipUpdates))
    else if !inFlight && (action.ExportNew? || action.ExportUpdate?) && v.canExportToAnki then
      Export(lines, cfg.mergeSubtitles, action.ExportUpdate?)
    else if !inFlight then OpenGui
    else if !exportAborted && action.CancelExport? then Cancel
    else Unmatched
  }

  /** What the environment answers while an action runs: the edit dialog's
      result, the book's spans, the outcome of a database write, and the
      inputs of an export. */
  datatype ActionInputs = ActionInputs(
    edit: EditDialogResult,
    book: seq<Span>,
    persistFailure: Option<string>,
    isMobile: bool,
    replies: Anki.ExportReplies,
    answers: seq<Anki.GroupAnswers>,
    cancelledEarly: bool,
    cancelAt: Option<nat>)

  /** The number of groups an export of `lines` sends. */
  function ExportGroupCount(lines: seq<Subtitle>, merge: bool): nat {
    if merge then 1 else |lines|
  }

  /** The route an action takes from the stores in `st`. */
  function RouteIn(st: AppState, action: Action, target: ActionTarget, cfg: ActionSettings): Route
    reads st, st.values.exportCancelController
    requires st.values.currentSubtitles.Valid()
  {
    var controller := st.values.exportCancelController;
    RouteOf(action, target, cfg, st.values, controller != null && controller.aborted)
  }

  /** What taking `route` does to the stores `v`, giving `w` and the
      outcome `r`. */
  predicate RouteEffect(v: StoreValues, w: StoreValues, route: Route, inputs: ActionInputs, r: Outcome)
    requires v.currentSubtitles.Valid()
  {
    match route
    case Ignored => w == v && r == Pass
    case FlipPaused => w == v.(paused := !v.paused) && r == Pass
    case Play(request) => w == v.(playLine := Some(request)) && r == Pass
    case ToggleIn(store, id) =>
      r == Pass &&
      if store == Bookmarks then w == v.(bookmarkedSubtitles := Toggled(v.bookmarkedSubtitles, id))
      else w == v.(subtitlesForMerge := Toggled(v.subtitlesForMerge, id))
    case FlipShow(store) =>
      r == Pass &&
      if store == Bookmarks then w == v.(showBookmarkedSubtitlesOnly := !v.showBookmarkedSubtitlesOnly)
      else w == v.(showSubtitlesForMergeOnly := !v.showSubtitlesForMergeOnly)
    case Edit(line) => (w, r) == EditEffect(v, line, inputs.edit, inputs.persistFailure)
    case Align(lines, persist) => w == AlignEffect(v, lines, persist, inputs.book, inputs.persistFailure) && r == Pass
    case Restore(lines) => (w, r) == RestoreEffect(v, lines, inputs.persistFailure)
    case Copy(_) => w == v && r == Pass
    case Navigate(request) => w == v.(playLine := Some(request)) && r == Pass
    case Export(_, _, _) => w.exportProgress == 0 && w.exportCancelController == null
    case OpenGui => w == v && r == Pass
    case Cancel => w == v && r == Pass
    case Unmatched => w == v && r == Pass
  }

  /** The branch of `executeAction` that `route` names. */
  method ExecuteRoute(st: AppState, client: Anki.AnkiClient, tool: Ffmpeg.Toolchain, route: Route, inputs: ActionInputs)
    returns (r: Outcome)
    requires st.values.currentSubtitles.Valid()
    requires route.Export? ==> |inputs.answers| == ExportGroupCount(route.lines, route.merge)
    requires route.Cancel? ==> st.values.exportCancelController != null
    modifies st, client, tool, st.values.exportCancelController
    ensures RouteEffect(old(st.values), st.values, route, inputs, r)
    ensures route.Cancel? ==> old(st.values.exportCancelController).aborted
  {
    r := Pass;
    match route {
      case Ignored =>
      case FlipPaused =>
        st.values := st.values.(paused := !st.values.paused);
      case Play(request) =>
        st.values := st.values.(playLine := Some(request));
      case ToggleIn(store, id) =>
        ExecuteFilterAction(st, store, id);
      case FlipShow(store) =>
        if store == Bookmarks {
          st.values := st.values.(showBookmarkedSubtitlesOnly := !st.values.showBookmarkedSubtitlesOnly);
        } else {
          st.values := st.values.(showSubtitlesForMergeOnly := !st.values.showSubtitlesForMergeOnly);
        }
      case Edit(line) =>
        r := ExecuteEditSubtitle(st, line, inputs.edit, inputs.persistFailure);
      case Align(lines, persist) =>
        ExecuteAlignSubtitle(st, lines, persist, inputs.book, inputs.persistFailure);
      case Restore(lines) =>
        r := ExecuteRestoreSubtitle(st, lines, inputs.persistFailure);
      case Copy(_) =>
      case Navigate(request) =>
        st.values := st.values.(playLine := Some(request));
      case Export(lines, merge, isUpdate) =>
        r := ExportAction(st, client, tool, lines, merge, isUpdate, inputs);
      case OpenGui =>
      case Cancel =>
        st.values.exportCancelController.Abort();
      case Unmatched =>
    }
  }

  /** The export branch: the lines are grouped, exported, and whatever the
      export's outcome, the progress is reset and the controller dropped. */
  method ExportAction(st: AppState, client: Anki.AnkiClient, tool: Ffmpeg.Toolchain, lines: seq<Subtitle>, merge: bool,
                      isUpdate: bool, inputs: ActionInputs)
    returns (r: Outcome)
    requires |inputs.answers| == ExportGroupCount(lines, merge)
    modifies st, client, tool
    ensures st.values.exportProgress == 0 && st.values.exportCancelController == null
  {
    var groups := SubtitlesForExport(lines, merge);
    r := Anki.ExportToAnki(st, client, tool, groups, isUpdate, inputs.isMobile, inputs.replies, inputs.answers,
                           inputs.cancelledEarly, inputs.cancelAt);
    st.values := st.values.(exportProgress := 0, exportCancelController := null);
  }

  /** `executeAction(action, subtitle, settings)`: takes the branch
      `RouteOf` picks and does what that branch does. */
  method ExecuteAction(st: AppState, client: Anki.AnkiClient, tool: Ffmpeg.Toolchain, action: Action,
                       target: ActionTarget, cfg: ActionSettings, inputs: ActionInputs)
    returns (r: Outcome)
    requires st.values.currentSubtitles.Valid()
    requires var route := RouteIn(st, action, target, cfg);
             route.Export? ==> |inputs.answers| == ExportGroupCount(route.lines, route.merge)
    modifies st, client, tool, st.values.exportCancelController
    ensures RouteEffect(old(st.values), st.values, old(RouteIn(st, action, target, cfg)), inputs, r)
    ensures old(RouteIn(st, action, target, cfg)).Cancel? ==>
              old(st.values.exportCancelController) != null && old(st.values.exportCancelController).aborted
  {
    var route := RouteIn(st, action, target, cfg);
    CancelNeedsController(action, target, cfg, st.values,
                          st.values.exportCancelController != null && st.values.exportCancelController.aborted);
    r := ExecuteRoute(st, client, tool, route, inputs);
  }

  /** Only an existing controller is cancelled. */
  lemma CancelNeedsController(action: Action, target: ActionTarget, cfg: ActionSettings, v: StoreValues,
                              exportAborted: bool)
    requires v.currentSubtitles.Valid()
    ensures RouteOf(action, target, cfg, v, exportAborted).Cancel? ==> v.exportCancelController != null && !exportAborted
  {
  }

  /** `executeAction` does nothing for `NONE`, an absent or empty target,
      or while the skip-key flag is up and not ignored, and in no other
      case returns before its branches. */
  lemma IgnoredExactly(action: Action, target: ActionTarget, cfg: ActionSettings, v: StoreValues, exportAborted: bool)
    requires v.currentSubtitles.Valid()
    ensures RouteOf(action, target, cfg, v, exportAborted) == Ignored <==>
              action == NoAction || TargetLines(target) == [] || (!cfg.ignoreSkipKeyListener && v.skipKeyListener)
  {
  }

  /** While an export controller exists, editing, aligning, restoring,
      exporting and opening Anki are refused. */
  lemma ExportInFlightRefuses(action: Action, target: ActionTarget, cfg: ActionSettings, v: StoreValues,
                              exportAborted: bool)
    requires v.currentSubtitles.Valid()
    requires v.exportCancelController != null
    ensures var route := RouteOf(action, target, cfg, v, exportAborted);
            !route.Edit? && !route.Align? && !route.Restore? && !route.Export? && !route.OpenGui?
  {
  }

  /** `CANCEL_EXPORT` aborts exactly an existing controller whose signal is
      not yet aborted. */
  lemma CancelExactly(action: Action, target: ActionTarget, cfg: ActionSettings, v: StoreValues, exportAborted: bool)
    requires v.currentSubtitles.Valid()
    requires action != NoAction && TargetLines(target) != [] && (cfg.ignoreSkipKeyListener || !v.skipKeyListener)
    ensures RouteOf(action, target, cfg, v, exportAborted) == Cancel <==>
              action == CancelExport && v.exportCancelController != null && !exportAborted
  {
  }

  /** The previous line is never before the first and the next never past
      the last; from a line inside the collection both stay inside it and
      move by one unless at an end. */
  lemma NavigationClamped(action: Action, subIndex: int, count: int)
    requires action == PreviousSubtitle || action == NextSubtitle
    ensures var index := NavigationIndex(action, subIndex, count);
            && (action == PreviousSubtitle ==> index >= 0 && (subIndex > 0 ==> index == subIndex - 1))
            && (action == NextSubtitle ==> index <= count - 1 && (subIndex < count - 1 ==> index == subIndex + 1))
            && (0 <= subIndex < count ==> 0 <= index < count)
  {
  }

  /** A navigation from a line of the collection restarts exactly its
      neighbour and keeps the pause state. */
  lemma NavigationTarget(action: Action, target: ActionTarget, cfg: ActionSettings, v: StoreValues, exportAborted: bool)
    requires v.currentSubtitles.Valid()
    requires action == PreviousSubtitle || action == NextSubtitle
    requires TargetLines(target) != [] && (cfg.ignoreSkipKeyListener || !v.skipKeyListener) && !v.isRecording
    requires 0 <= TargetLines(target)[0].subIndex < |v.currentSubtitles.keys|
    ensures var route := RouteOf(action, target, cfg, v, exportAborted);
            var values := v.currentSubtitles.Values();
            var index := NavigationIndex(action, TargetLines(target)[0].subIndex, |values|);
            && route.Navigate? && 0 <= index < |values|
            && route.request == PlayLineData(RestartPlayback, [values[index]], cfg.skipUpdates, true)
  {
    NavigationClamped(action, TargetLines(target)[0].subIndex, |v.currentSubtitles.keys|);
  }

  /** With no export running, the seek actions, opening the last card and
      cancelling are claimed by no branch and open Anki. */
  lemma UnclaimedOpensAnki(action: Action, target: ActionTarget, cfg: ActionSettings, v: StoreValues, exportAborted: bool)
    requires v.currentSubtitles.Valid()
    requires action != NoAction && TargetLines(target) != [] && (cfg.ignoreSkipKeyListener || !v.skipKeyListener)
    requires v.exportCancelController == null
    requires action.Rewind? || action.RewindAlt? || action.FastForward? || action.FastForwardAlt? ||
             action.OpenLastExportedCard? || action.CancelExport?
    ensures RouteOf(action, target, cfg, v, exportAborted) == OpenGui
  {
  }

  /** While recording, the playback and navigation actions fall through
      and, with no export running, open Anki. */
  lemma RecordingOpensAnki(action: Action, target: ActionTarget, cfg: ActionSettings, v: StoreValues, exportAborted: bool)
    requires v.currentSubtitles.Valid()
    requires TargetLines(target) != [] && (cfg.ignoreSkipKeyListener || !v.skipKeyListener)
    requires v.exportCancelController == null && v.isRecording
    requires action.TogglePlayback? || action.RestartPlayback? || action.TogglePlayPause? ||
             action.TogglePlaybackLoop? || action.PreviousSubtitle? || action.NextSubtitle?
    ensures RouteOf(action, target, cfg, v, exportAborted) == OpenGui
  {
  }

  /** Aligning before the book is matched, and exporting when Anki cannot
      be exported to, open Anki when no export is running. */
  lemma UnavailableOpensAnki(action: Action, target: ActionTarget, cfg: ActionSettings, v: StoreValues, exportAborted: bool)
    requires v.currentSubtitles.Valid()
    requires TargetLines(target) != [] && (cfg.ignoreSkipKeyListener || !v.skipKeyListener)
    requires v.exportCancelController == null
    requires (action == AlignSubtitle && v.bookMatchedBy == "") ||
             ((action == ExportNew || action == ExportUpdate) && !v.canExportToAnki)
    ensures RouteOf(action, target, cfg, v, exportAborted) == OpenGui
  {
  }
}
