/** Time and naming helpers of `src/lib/util.ts`. Times are integer
    milliseconds: where the source computes with a number of seconds `s`,
    the model computes with `ms = s * 1000`. */
module Util {
  import opened Wrappers
  import opened JsText

  // ---------------------------------------------------------------------
  // between, caluclatePercentage
  // ---------------------------------------------------------------------

  /** `between(min, max, value)` = `Math.min(max, Math.max(value, min))`. */
  function Between(min: int, max: int, value: int): (r: int)
    ensures min <= max ==> min <= r <= max
    ensures min <= value <= max ==> r == value
    ensures value < min && min <= max ==> r == min
    ensures max < value ==> r == max
    ensures max < min ==> r == max
  {
    if value < min then (if min < max then min else max)
    else if value < max then value
    else max
  }

  /** `Math.floor(a / b)` for b != 0 (Dafny's `/` is Euclidean). */
  function FloorDiv(a: int, b: int): (q: int)
    requires b != 0
    ensures b > 0 ==> q * b <= a < q * b + b
    ensures b < 0 ==> q * (-b) <= -a < q * (-b) + (-b)
  {
    if b > 0 then a / b else (-a) / (-b)
  }

  /** `caluclatePercentage(x, y)` with the default `roundDown = true`:
      0 when either argument is 0, else `Math.floor(x / y * 100)`. */
  function Percentage(x: int, y: int): (r: int)
    ensures x == 0 || y == 0 ==> r == 0
    ensures x != 0 && y > 0 ==> r * y <= x * 100 < r * y + y
    ensures 0 <= x <= y ==> 0 <= r <= 100
  {
    if x == 0 || y == 0 then 0 else FloorDiv(x * 100, y)
  }

  lemma PercentageThreeOfFour()
    ensures Percentage(3, 4) == 75
  {
  }

  /** `d * n` grows with `d`. */
  lemma MulStep(p: int, q: int, n: int)
    requires q < p && n > 0
    ensures q * n + n <= p * n
  {
    var d := p - q;
    assert p * n == q * n + d * n;
    assert d * n >= n by {
      assert d >= 1;
      assert (d - 1) * n >= 0;
    }
  }

  /** More work done never lowers the percentage. */
  lemma {:induction false} PercentageMonotone(a: nat, b: nat, n: nat)
    requires a <= b <= n
    ensures Percentage(a, n) <= Percentage(b, n)
  {
    if a != 0 && n != 0 {
      var pa, pb := Percentage(a, n), Percentage(b, n);
      assert pa * n <= a * 100;
      assert b * 100 < pb * n + n;
      assert a * 100 <= b * 100;
      if pb < pa {
        MulStep(pa, pb, n);
      }
    }
  }

  // ---------------------------------------------------------------------
  // getTimeParts, toTimeStamp, toTimeString, timeStringToSeconds
  // ---------------------------------------------------------------------

  datatype TimeParts = TimeParts(hours: int, minutes: nat, seconds: nat, millis: nat)

  /** `getTimeParts`: hours, minutes, seconds and milliseconds of a time. */
  function GetTimeParts(ms: int): (p: TimeParts)
    ensures p.minutes < 60 && p.seconds < 60 && p.millis < 1000
    ensures p.hours * 3600000 + p.minutes * 60000 + p.seconds * 1000 + p.millis == ms
    ensures ms >= 0 ==> p.hours >= 0
  {
    var hours := FloorDiv(ms, 3600000);
    var hoursDiff := ms - hours * 3600000;
    var minutes := hoursDiff / 60000;
    var minutesDiff := hoursDiff - minutes * 60000;
    var seconds := minutesDiff / 1000;
    TimeParts(hours, minutes, seconds, minutesDiff - seconds * 1000)
  }

  /** `${n}`.padStart(width, '0') */
  function Padded(n: int, width: nat): string {
    PadStart(IntToString(n), width, '0')
  }

  /** `HH:MM:SS` from the parts of a time. */
  function TimeStringOf(p: TimeParts): string {
    Padded(p.hours, 2) + ":" + Padded(p.minutes, 2) + ":" + Padded(p.seconds, 2)
  }

  /** `toTimeString`: `HH:MM:SS`, each part zero-padded to two digits.
      Reading it back gives the whole seconds of the time: nothing is
      truncated, however many hours it has. */
  function ToTimeString(ms: int): (r: string)
    ensures TimeStringToSeconds(r) == Some(FloorDiv(ms, 1000))
  {
    TimePartsSeconds(ms);
    TimeStringOfRoundTrip(GetTimeParts(ms), FloorDiv(ms, 1000));
    TimeStringOf(GetTimeParts(ms))
  }

  /** `toTimeStamp`: `HH:MM:SS,mmm`, zero-padded to 2/2/2/3 digits; it
      ends with `,` and the milliseconds of the time in three digits. */
  function ToTimeStamp(ms: int): (r: string)
    ensures |r| >= 12 && r[|r| - 4] == ','
    ensures r[|r| - 3..] == Padded(ms % 1000, 3)
  {
    var p := GetTimeParts(ms);
    var head, tail := TimeStringOf(p) + ",", Padded(p.millis, 3);
    TimeStringAtLeastEight(p);
    ShortPadded(p.millis, 3);
    MillisOfTime(ms);
    assert (head + tail)[|head + tail| - 4] == head[|head| - 1] == ',';
    assert (head + tail)[|head + tail| - 3..] == tail;
    head + tail
  }

  lemma MillisOfTime(ms: int)
    ensures GetTimeParts(ms).millis == ms % 1000
  {
    var p := GetTimeParts(ms);
    var whole := p.hours * 3600 + p.minutes * 60 + p.seconds;
    assert ms == whole * 1000 + p.millis;
  }

  lemma TimeStringAtLeastEight(p: TimeParts)
    ensures |TimeStringOf(p)| >= 8
  {
  }

  /** The time stamp is the time string followed by `,` and the milliseconds. */
  lemma TimeStampExtendsTimeString(ms: int)
    ensures ToTimeStamp(ms) == ToTimeString(ms) + "," + Padded(ms % 1000, 3)
  {
    var p := GetTimeParts(ms);
    assert p.millis == ms % 1000;
  }

  /** `Number.parseInt(parts[k], 10)`; a missing part reads as NaN. */
  function ParsePart(parts: seq<string>, k: nat): Option<int> {
    if k < |parts| then ParseInt(parts[k]) else None
  }

  /** `h * 3600 + m * 60 + s` from the first three parts; None is NaN. */
  function SecondsFromParts(parts: seq<string>): (r: Option<int>)
    ensures r.Some? <==> ParsePart(parts, 0).Some? && ParsePart(parts, 1).Some? && ParsePart(parts, 2).Some?
  {
    var h, m, s := ParsePart(parts, 0), ParsePart(parts, 1), ParsePart(parts, 2);
    if h.Some? && m.Some? && s.Some? then Some(h.value * 3600 + m.value * 60 + s.value) else None
  }

  /** `timeStringToSeconds`: the parts of `H:M:S` read as hours, minutes and
      seconds; None is NaN (a part that is missing or has no leading digits). */
  function TimeStringToSeconds(timeString: string): (r: Option<int>)
    ensures var parts := Split(timeString, ':');
            r.Some? <==> ParsePart(parts, 0).Some? && ParsePart(parts, 1).Some? && ParsePart(parts, 2).Some?
  {
    SecondsFromParts(Split(timeString, ':'))
  }

  /** A string without `:` has no minutes part, so it reads as NaN. */
  lemma NoColonIsNaN(timeString: string)
    requires ':' !in timeString
    ensures TimeStringToSeconds(timeString).None?
  {
    SplitNoSep(timeString, ':');
  }

  lemma PaddedHasNoColon(n: int, width: nat)
    ensures ':' !in Padded(n, width)
  {
    PadStartExcludes(IntToString(n), width, '0', ':');
  }

  /** A part padded to two digits reads back as itself. */
  lemma ParsePadded2(n: int)
    ensures ParseInt(Padded(n, 2)) == Some(n)
  {
    if n < 0 {
      assert IntToString(n) == "-" + NatToString(-n);
    }
    ParsePaddedInt(n, 2);
  }

  lemma {:induction false} SecondsFromThree(a: string, b: string, c: string, h: int, m: int, sec: int, whole: int)
    requires ParseInt(a) == Some(h) && ParseInt(b) == Some(m) && ParseInt(c) == Some(sec)
    requires whole == h * 3600 + m * 60 + sec
    ensures SecondsFromParts([a, b, c]) == Some(whole)
  {
    assert ParsePart([a, b, c], 0) == Some(h);
    assert ParsePart([a, b, c], 1) == Some(m);
    assert ParsePart([a, b, c], 2) == Some(sec);
  }

  /** Three colon-free parts joined by `:` read as the sum of their values. */
  lemma {:induction false} ThreePartsSeconds(a: string, b: string, c: string, h: int, m: int, sec: int, whole: int)
    requires ':' !in a && ':' !in b && ':' !in c
    requires ParseInt(a) == Some(h) && ParseInt(b) == Some(m) && ParseInt(c) == Some(sec)
    requires whole == h * 3600 + m * 60 + sec
    ensures TimeStringToSeconds(a + ":" + b + ":" + c) == Some(whole)
  {
    SplitThree(a, b, c, ':');
    assert a + [':'] + b + [':'] + c == a + ":" + b + ":" + c;
    SecondsFromThree(a, b, c, h, m, sec, whole);
  }

  /** Every part of a time string reads back as the part it was written
      from, negative hours included. */
  lemma {:induction false} TimeStringOfRoundTrip(p: TimeParts, whole: int)
    requires whole == p.hours * 3600 + p.minutes * 60 + p.seconds
    ensures TimeStringToSeconds(TimeStringOf(p)) == Some(whole)
  {
    var h, m, s := p.hours, p.minutes, p.seconds;
    PaddedHasNoColon(h, 2);
    PaddedHasNoColon(m, 2);
    PaddedHasNoColon(s, 2);
    ParsePadded2(h);
    ParsePadded2(m);
    ParsePadded2(s);
    ThreePartsSeconds(Padded(h, 2), Padded(m, 2), Padded(s, 2), h, m, s, whole);
  }

  /** The hours, minutes and seconds of a time make up its whole seconds. */
  lemma TimePartsSeconds(ms: int)
    ensures var p := GetTimeParts(ms);
            p.hours * 3600 + p.minutes * 60 + p.seconds == FloorDiv(ms, 1000)
  {
    var p := GetTimeParts(ms);
    var whole := p.hours * 3600 + p.minutes * 60 + p.seconds;
    assert ms == whole * 1000 + p.millis;
  }

  /** For whole seconds n: `timeStringToSeconds(toTimeString(n)) == n`. */
  lemma WholeSecondsRoundTrip(n: int)
    ensures TimeStringToSeconds(ToTimeString(n * 1000)) == Some(n)
  {
    FloorDivWhole(n);
  }

  lemma FloorDivWhole(n: int)
    ensures FloorDiv(n * 1000, 1000) == n
  {
    var d := FloorDiv(n * 1000, 1000) - n;
    assert d * 1000 <= 0 < d * 1000 + 1000;
  }

  lemma ShortNat(n: nat)
    requires n < 1000
    ensures n < 10 ==> |NatToString(n)| == 1
    ensures 10 <= n < 100 ==> |NatToString(n)| == 2
    ensures 100 <= n ==> |NatToString(n)| == 3
  {
    if n >= 10 {
      ShortNat(n / 10);
    }
  }

  lemma ShortPadded(n: nat, width: nat)
    requires 1 <= width <= 3
    requires n < 10 || (width >= 2 && n < 100) || (width == 3 && n < 1000)
    ensures |Padded(n, width)| == width
  {
    ShortNat(n);
  }

  lemma {:induction false} StampWidthOfParts(p: TimeParts)
    requires 0 <= p.hours < 100 && p.minutes < 60 && p.seconds < 60 && p.millis < 1000
    ensures |TimeStringOf(p)| == 8
    ensures |TimeStringOf(p) + "," + Padded(p.millis, 3)| == 12
  {
    ShortPadded(p.hours, 2);
    ShortPadded(p.minutes, 2);
    ShortPadded(p.seconds, 2);
    ShortPadded(p.millis, 3);
  }

  /** Below 100 hours the stamp is exactly `HH:MM:SS,mmm` (12 characters). */
  lemma {:induction false} TimeStampWidth(ms: int)
    requires 0 <= ms < 360000000
    ensures |ToTimeString(ms)| == 8
    ensures |ToTimeStamp(ms)| == 12
  {
    var p := GetTimeParts(ms);
    assert p.hours < 100;
    StampWidthOfParts(p);
    assert ToTimeStamp(ms) == TimeStringOf(p) + "," + Padded(p.millis, 3);
  }

  /** From 100 hours on the hours are printed in full, not cut to two digits. */
  lemma LongHoursInFull(ms: int)
    requires ms >= 360000000
    ensures var h := GetTimeParts(ms).hours;
            h >= 100 && ToTimeString(ms)[..|NatToString(h)|] == NatToString(h)
  {
    var h := GetTimeParts(ms).hours;
    assert h >= 100;
    ShortNat(99);
    NatLengthAtLeastThree(h);
  }

  lemma {:induction false} NatLengthAtLeastThree(n: nat)
    requires n >= 100
    ensures |NatToString(n)| >= 3
  {
    if n >= 1000 {
      NatLengthAtLeastThree(n / 10);
    } else {
      ShortNat(n);
    }
  }

  // ---------------------------------------------------------------------
  // Line CSS classes
  // ---------------------------------------------------------------------

  /** `baseLineCSSClass` */
  const BaseLineClass: string := "ttu-whispersync-line-highlight-"

  /** `getBaseLineCSSSelectorForId`: the class that marks the spans of a line. */
  function BaseLineClassForId(id: string): (r: string)
    ensures StartsWith(r, BaseLineClass) && r[|BaseLineClass|..] == id
  {
    BaseLineClass + id
  }

  /** `getLineCSSSelectorForId`: `span.` followed by the line's class. */
  function LineSelectorForId(id: string): (r: string)
    ensures r == "span." + BaseLineClassForId(id)
  {
    "span." + BaseLineClass + id
  }

  /** The first class of the list that starts with the base class. */
  function FirstLineClass(classes: seq<string>): (r: Option<string>)
    ensures r.Some? ==> r.value in classes && StartsWith(r.value, BaseLineClass)
    ensures r.None? ==> forall k :: 0 <= k < |classes| ==> !StartsWith(classes[k], BaseLineClass)
  {
    if classes == [] then None
    else if StartsWith(classes[0], BaseLineClass) then Some(classes[0])
    else FirstLineClass(classes[1..])
  }

  /** `getSubtitleIdFromElement`: the first line class without its base
      prefix, or `not existing` when there is none or nothing is left. */
  function SubtitleIdFromClasses(classes: seq<string>): (r: string)
    ensures r != []
    ensures (forall k :: 0 <= k < |classes| ==> !StartsWith(classes[k], BaseLineClass)) ==> r == "not existing"
  {
    match FirstLineClass(classes)
    case None => "not existing"
    case Some(c) =>
      var id := c[|BaseLineClass|..];
      if id == [] then "not existing" else id
  }

  /** The class of a non-empty id maps back to the id when no earlier
      class carries the base prefix. */
  lemma {:induction false} LineClassRoundTrip(before: seq<string>, id: string, after: seq<string>)
    requires id != []
    requires forall k :: 0 <= k < |before| ==> !StartsWith(before[k], BaseLineClass)
    ensures SubtitleIdFromClasses(before + [BaseLineClassForId(id)] + after) == id
  {
    var cs := before + [BaseLineClassForId(id)] + after;
    FirstAfterPlain(before, [BaseLineClassForId(id)] + after);
    assert cs == before + ([BaseLineClassForId(id)] + after);
  }

  lemma {:induction false} FirstAfterPlain(before: seq<string>, rest: seq<string>)
    requires forall k :: 0 <= k < |before| ==> !StartsWith(before[k], BaseLineClass)
    ensures FirstLineClass(before + rest) == FirstLineClass(rest)
  {
    if before != [] {
      assert (before + rest)[0] == before[0];
      assert (before + rest)[1..] == before[1..] + rest;
      FirstAfterPlain(before[1..], rest);
    } else {
      assert before + rest == rest;
    }
  }

  /** The bare base class names no line. */
  lemma BareBaseClassIsNoLine()
    ensures SubtitleIdFromClasses([BaseLineClass]) == "not existing"
  {
  }

  // ---------------------------------------------------------------------
  // throwIfAborted
  // ---------------------------------------------------------------------

  /** An `AbortController` with its signal's `aborted` flag. */
  class AbortController {
    var aborted: bool

    constructor ()
      ensures !aborted
    {
      aborted := false;
    }

    /** `controller.abort(reason)` */
    method Abort()
      modifies this
      ensures aborted
    {
      aborted := true;
    }
  }

  /** The reason the export controller is aborted with. */
  const UserAborted: string := "user aborted"

  /** `throwIfAborted(signal)`: passes when there is no signal or it is not
      aborted, and throws the abort otherwise. */
  method ThrowIfAborted(signal: AbortController?) returns (r: Outcome)
    ensures r.Pass? <==> signal == null || !signal.aborted
    ensures r.Fail? ==> r.message == UserAborted
  {
    if signal == null || !signal.aborted {
      return Pass;
    }
    return Fail(UserAborted);
  }

  // ---------------------------------------------------------------------
  // Settings field validation
  // ---------------------------------------------------------------------

  /** The value an edited number field keeps (`_onNumberFieldChange`):
      `parsed` is `parseFloat` of the input (None for NaN), `min`/`max` are
      the parsed attributes (None for NaN), present only when `hasMin` /
      `hasMax`. A NaN input or one outside a present bound gives the default. */
  function NumberFieldValue(parsed: Option<real>, hasMin: bool, min: Option<real>,
                            hasMax: bool, max: Option<real>, default: real): (r: real)
    ensures parsed.None? ==> r == default
    ensures parsed.Some? && hasMin && min.Some? && parsed.value < min.value ==> r == default
    ensures parsed.Some? && hasMax && max.Some? && parsed.value > max.value ==> r == default
    ensures (parsed.Some? && (!hasMin || min.None? || parsed.value >= min.value)
             && (!hasMax || max.None? || parsed.value <= max.value)) ==> r == parsed.value
  {
    match parsed
    case None => default
    case Some(v) =>
      if (hasMin && min.Some? && v < min.value) || (hasMax && max.Some? && v > max.value) then default
      else v
  }

  /** The value an edited text field keeps (`_onTextFieldChange`): an empty
      input gives the default. */
  function TextFieldValue(value: string, default: string): (r: string)
    ensures value == [] ==> r == default
    ensures value != [] ==> r == value
  {
    if value == [] then default else value
  }
}
