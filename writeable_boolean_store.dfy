/** The boolean settings store (`src/lib/writeables/writeable-boolean-store.ts`):
    `true` is stored as `'1'`, `false` as `'0'`, and a stored string is read
    back as `!!+x`, the truthiness of its JavaScript numeric value. */
module WriteableBooleanStore {
  import opened JsText
  import opened WriteableStore

  /** How `Number(s)` classifies as far as `!!` can tell. */
  datatype NumberClass = NaN | Zero | NonZero

  predicate IsRadixDigit(c: char, radix: nat) {
    if radix == 16 then IsDigit(c) || ('a' <= c <= 'f') || ('A' <= c <= 'F')
    else '0' as int <= c as int < '0' as int + radix
  }

  predicate AllZeros(s: string) {
    forall i :: 0 <= i < |s| ==> s[i] == '0'
  }

  /** Digits of a `0x`/`0o`/`0b` literal (after the prefix). */
  function RadixClass(digits: string, radix: nat): (r: NumberClass)
    requires radix == 2 || radix == 8 || radix == 16
    ensures r != NaN <==> digits != [] && forall i :: 0 <= i < |digits| ==> IsRadixDigit(digits[i], radix)
    ensures r == Zero ==> AllZeros(digits)
  {
    if digits == [] || exists i :: 0 <= i < |digits| && !IsRadixDigit(digits[i], radix) then NaN
    else if AllZeros(digits) then Zero
    else NonZero
  }

  /** An optional `e`/`E` exponent with an optional sign and at least one digit. */
  predicate ValidExponent(e: string) {
    e == [] ||
    (e[0] in "eE" &&
     var d := if |e| > 1 && e[1] in "+-" then e[2..] else e[1..];
     d != [] && AllDigits(d))
  }

  /** An unsigned decimal literal: `Infinity`, or digits with an optional
      fraction and exponent, with at least one digit before the exponent. */
  function DecimalClass(u: string): (r: NumberClass)
  {
    if u == "Infinity" then NonZero
    else
      var whole := DigitPrefix(u);
      var rest := u[|whole|..];
      var hasDot := rest != [] && rest[0] == '.';
      var fraction := if hasDot then DigitPrefix(rest[1..]) else [];
      var exponent := if hasDot then rest[1 + |fraction|..] else rest;
      if whole == [] && fraction == [] then NaN
      else if !ValidExponent(exponent) then NaN
      else if AllZeros(whole + fraction) then Zero
      else NonZero
  }

  /** `Number(s)`: surrounding whitespace is ignored. */
  function NumberClassOf(s: string): NumberClass {
    TrimmedClass(Trim(s))
  }

  /** `Number` of a trimmed string: the empty string is 0, `0x`/`0o`/`0b`
      literals take no sign, decimal literals take one. */
  function TrimmedClass(t: string): NumberClass {
    if t == [] then Zero
    else if |t| >= 2 && t[0] == '0' && t[1] in "xX" then RadixClass(t[2..], 16)
    else if |t| >= 2 && t[0] == '0' && t[1] in "oO" then RadixClass(t[2..], 8)
    else if |t| >= 2 && t[0] == '0' && t[1] in "bB" then RadixClass(t[2..], 2)
    else if t[0] in "+-" then DecimalClass(t[1..])
    else DecimalClass(t)
  }

  /** `(x) => x ? '1' : '0'`. */
  function BoolToString(b: bool): (r: string)
    ensures r == "1" || r == "0"
    ensures r != ""
  {
    if b then "1" else "0"
  }

  /** `(x) => !!+x`: false exactly for 0 and NaN. */
  function BoolFromString(s: string): (r: bool)
    ensures r <==> NumberClassOf(s) == NonZero
  {
    NumberClassOf(s) == NonZero
  }

  /** Every boolean survives being stored and read back. */
  lemma BoolRoundTrip(b: bool)
    ensures BoolFromString(BoolToString(b)) == b
  {
    TrimNoWhitespace(BoolToString(b));
  }

  /** A plain digit string reads as true exactly when some digit is not 0. */
  lemma DigitStringTruth(d: string)
    requires d != [] && AllDigits(d)
    ensures BoolFromString(d) <==> exists i :: 0 <= i < |d| && d[i] != '0'
  {
    TrimNoWhitespace(d);
    assert TrimmedClass(d) == DecimalClass(d) by {
      assert !(|d| >= 2 && d[0] == '0' && d[1] in "xXoObB") by {
        if |d| >= 2 { assert IsDigit(d[1]); }
      }
      assert d[0] !in "+-" by { assert IsDigit(d[0]); }
    }
    DigitsDecimalClass(d);
  }

  lemma DigitsDecimalClass(d: string)
    requires d != [] && AllDigits(d)
    ensures DecimalClass(d) == if AllZeros(d) then Zero else NonZero
  {
    assert d != "Infinity" by { assert IsDigit(d[0]); }
    DigitPrefixOfDigits(d, []);
    assert d + [] == d;
    assert d[|d|..] == [];
  }

  /** A string that starts with something other than a digit, a sign or a
      point, and is not `Infinity`, is NaN, so false (`'abc'`, `'true'`). */
  lemma NonNumericReadsFalse(s: string)
    requires Trim(s) != [] && Trim(s) != "Infinity"
    requires !IsDigit(Trim(s)[0]) && Trim(s)[0] !in "+-."
    ensures !BoolFromString(s)
  {
    var t := Trim(s);
    assert DigitPrefix(t) == [];
    assert t[|DigitPrefix(t)|..] == t;
  }

  /** A blank string is the number 0, so false. */
  lemma BlankReadsFalse(s: string)
    requires forall i :: 0 <= i < |s| ==> IsWhitespace(s[i])
    ensures !BoolFromString(s)
  {
  }

  /** A sign in front of a digit string does not change its truth (`'-0'`
      is false, `'+7'` true). */
  lemma SignedDigitsTruth(sign: char, d: string)
    requires sign == '-' || sign == '+'
    requires d != [] && AllDigits(d)
    ensures BoolFromString([sign] + d) <==> BoolFromString(d)
  {
    var t := [sign] + d;
    assert !IsWhitespace(t[0]) && t[|t| - 1] == d[|d| - 1];
    TrimNoWhitespace(t);
    assert t[1..] == d;
    assert TrimmedClass(t) == DecimalClass(d);
    DigitsDecimalClass(d);
    DigitStringTruth(d);
  }

  /** `'1'` reads as true and `'0'` as false, whatever the store's default. */
  lemma OneAndZero()
    ensures BoolFromString("1") && !BoolFromString("0")
  {
    BoolRoundTrip(true);
    BoolRoundTrip(false);
  }

  /** A stored `'0'` is a non-empty string, so a boolean store reads it as
      false rather than falling back to its default, even a `true` one. */
  lemma StoredZeroReadsFalse(items: map<string, string>, key: string, defaultVal: bool)
    requires key in items && items[key] == "0"
    ensures StoredOrDefault(items, key, defaultVal, BoolFromString) == false
  {
    BoolRoundTrip(false);
  }

  /** What a boolean store writes, a new store over the same storage reads back. */
  lemma BoolStoreReload(items: map<string, string>, key: string, v: bool, defaultVal: bool)
    ensures StoredOrDefault(items[key := BoolToString(v)], key, defaultVal, BoolFromString) == v
  {
    BoolRoundTrip(v);
    ReloadAfterSet(items, key, v, defaultVal, BoolFromString, BoolToString);
  }
}
