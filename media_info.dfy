/** Cover sniffing and the cached MediaInfo instance (`src/lib/mediaInfo.ts`).
    The analysis library itself is opaque: an instance is a number, and the
    factory's answer is an input. */
module MediaInfo {
  import opened Wrappers
  import opened JsText

  /** The magic-prefix table, in the Map's insertion order. */
  const MagicKeys: seq<string> := ["/9j/", "iVBORw0KGgo", "UklGR", "R0lGODdh", "R0lGODlh"]
  const MagicTypes: seq<string> := ["image/jpg", "image/png", "image/webp", "image/gif", "image/gif"]

  /** `magicNumberKeys.find(k => base64.startsWith(k))`, searching from `i`. */
  function FindMagicKey(base64: string, i: nat): (r: Option<nat>)
    requires i <= |MagicKeys|
    ensures r.Some? ==> i <= r.value < |MagicKeys| && StartsWith(base64, MagicKeys[r.value])
    ensures r.Some? ==> forall j :: i <= j < r.value ==> !StartsWith(base64, MagicKeys[j])
    ensures r.None? <==> forall j :: i <= j < |MagicKeys| ==> !StartsWith(base64, MagicKeys[j])
    decreases |MagicKeys| - i
  {
    if i == |MagicKeys| then None
    else if StartsWith(base64, MagicKeys[i]) then Some(i)
    else FindMagicKey(base64, i + 1)
  }

  /** `getImageMimeType`: undefined for absent or empty data, else the type
      of the first matching key (a failed find looks up `''`, which is not
      a key, so it is undefined too). */
  function ImageMimeType(base64: Option<string>): (r: Option<string>)
    ensures (base64.None? || base64.value == "") ==> r.None?
    ensures r.Some? <==> (base64.Some? && base64.value != "" &&
                          exists j :: 0 <= j < |MagicKeys| && StartsWith(base64.value, MagicKeys[j]))
    ensures r.Some? ==> (exists j :: 0 <= j < |MagicKeys| &&
                           StartsWith(base64.value, MagicKeys[j]) && r.value == MagicTypes[j])
  {
    if base64.None? || base64.value == "" then None
    else match FindMagicKey(base64.value, 0)
      case None => None
      case Some(j) => Some(MagicTypes[j])
  }

  /** No magic key is a prefix of another, so at most one key matches any
      input and the find's order does not matter. */
  lemma MagicKeysPrefixFree(i: nat, j: nat)
    requires i < |MagicKeys| && j < |MagicKeys| && i != j
    ensures !StartsWith(MagicKeys[j], MagicKeys[i])
  {
    var a, b := MagicKeys[i], MagicKeys[j];
    if a[0] == b[0] {
      // only the two GIF keys share a first character; they differ at index 6
      assert (i == 3 && j == 4) || (i == 4 && j == 3);
      assert MagicKeys[3][6] == 'd' && MagicKeys[4][6] == 'l';
      assert |a| == |b| && a[6] != b[6];
    }
  }

  lemma AtMostOneMagicKey(base64: string, i: nat, j: nat)
    requires i < |MagicKeys| && j < |MagicKeys|
    requires StartsWith(base64, MagicKeys[i]) && StartsWith(base64, MagicKeys[j])
    ensures i == j
  {
    if i != j {
      var a, b := MagicKeys[i], MagicKeys[j];
      if |a| <= |b| {
        assert b[..|a|] == base64[..|b|][..|a|] == base64[..|a|] == a;
        MagicKeysPrefixFree(i, j);
      } else {
        assert a[..|b|] == base64[..|a|][..|b|] == base64[..|b|] == b;
        MagicKeysPrefixFree(j, i);
      }
    }
  }

  /** Data that starts with the key of an entry has that entry's type,
      whatever follows. */
  lemma MagicTypeOf(j: nat, rest: string)
    requires j < |MagicKeys|
    ensures ImageMimeType(Some(MagicKeys[j] + rest)) == Some(MagicTypes[j])
  {
    var s := MagicKeys[j] + rest;
    assert StartsWith(s, MagicKeys[j]) by { assert s[..|MagicKeys[j]|] == MagicKeys[j]; }
    var k := FindMagicKey(s, 0);
    AtMostOneMagicKey(s, k.value, j);
  }

  /** The five recognised formats. */
  lemma KnownCovers(rest: string)
    ensures ImageMimeType(Some("/9j/" + rest)) == Some("image/jpg")
    ensures ImageMimeType(Some("iVBORw0KGgo" + rest)) == Some("image/png")
    ensures ImageMimeType(Some("UklGR" + rest)) == Some("image/webp")
    ensures ImageMimeType(Some("R0lGODdh" + rest)) == Some("image/gif")
    ensures ImageMimeType(Some("R0lGODlh" + rest)) == Some("image/gif")
  {
    MagicTypeOf(0, rest);
    MagicTypeOf(1, rest);
    MagicTypeOf(2, rest);
    MagicTypeOf(3, rest);
    MagicTypeOf(4, rest);
  }

  /** What `getMediaInfoCover` returns: `''`, or an object URL for a blob of
      the decoded data with the sniffed type (the URL itself is opaque). */
  datatype Cover = NoCover | CoverBlob(mimeType: string, base64: string)

  function MediaInfoCover(coverData: Option<string>): (r: Cover)
    ensures r.NoCover? <==> ImageMimeType(coverData).None?
    ensures r.CoverBlob? ==> coverData == Some(r.base64) && Some(r.mimeType) == ImageMimeType(coverData)
  {
    if coverData.None? || coverData.value == "" then NoCover
    else match ImageMimeType(coverData)
      case None => NoCover
      case Some(t) => CoverBlob(t, coverData.value)
  }

  /** A cover whose data starts with none of the keys gives `''`. */
  lemma UnknownCoverIsEmpty(coverData: string)
    requires forall j :: 0 <= j < |MagicKeys| ==> !StartsWith(coverData, MagicKeys[j])
    ensures MediaInfoCover(Some(coverData)) == NoCover
  {
  }

  /** What happens to the cached instance, in order. */
  datatype InstanceEvent = Created(coverData: bool) | Closed(instance: nat) | Stored(instance: nat)

  /** The module-level `mediaInfoInstance` and what has happened to it. */
  class MediaInfoHolder {
    var instance: Option<nat>
    var events: seq<InstanceEvent>

    constructor ()
      ensures instance.None? && events == []
    {
      instance := None;
      events := [];
    }

    /** `setMediaInfoInstance`: an existing instance is kept unless a reset
        is asked for; otherwise the factory runs, and on success the old
        instance is closed before the new one is stored (a failing `close`
        is ignored). `created` is the factory's answer. */
    method SetInstance(coverData: bool, resetInstance: bool, created: Result<nat>) returns (r: Outcome)
      modifies this
      ensures old(instance).Some? && !resetInstance ==>
                r == Pass && instance == old(instance) && events == old(events)
      ensures (old(instance).None? || resetInstance) && created.Err? ==>
                r == Fail("Failed to create MediaInfo instance - " + created.message) &&
                instance == old(instance) && events == old(events) + [Created(coverData)]
      ensures (old(instance).None? || resetInstance) && created.Ok? ==>
                r == Pass && instance == Some(created.value) &&
                events == old(events) + [Created(coverData)] +
                  (if old(instance).Some? then [Closed(old(instance).value)] else []) +
                  [Stored(created.value)]
    {
      if instance.Some? && !resetInstance {
        return Pass;
      }
      events := events + [Created(coverData)];
      if created.Err? {
        return Fail("Failed to create MediaInfo instance - " + created.message);
      }
      if instance.Some? {
        events := events + [Closed(instance.value)];
      }
      instance := Some(created.value);
      events := events + [Stored(created.value)];
      r := Pass;
    }
  }
}
