/**
 * The JavaScript and Node.js behaviour the proxy leans on: truthiness, how a
 * value is written into a template literal, hex digests, and the runtime
 * functions (`parseFloat`, `Date.prototype.toISOString`, HMAC-SHA256) that the
 * model keeps abstract.
 */
module Js {
  import opened Wrappers

  newtype byte = x: int | 0 <= x < 256

  /** A scalar JSON value of a request body (numbers are integers here). */
  datatype JsValue = Undefined | Null | Bool(b: bool) | Num(n: int) | Str(s: string)

  /** JavaScript truthiness of a scalar. */
  predicate Truthy(v: JsValue) {
    match v
    case Undefined => false
    case Null => false
    case Bool(b) => b
    case Num(n) => n != 0
    case Str(s) => s != ""
  }

  /** Truthiness of a field that is either a string or absent. */
  predicate Present(v: Option<string>) {
    v.Some? && v.value != ""
  }

  /** `v || null` for a field that is either a string or absent. */
  function OrNull(v: Option<string>): Option<string> {
    if Present(v) then v else None
  }

  /** `v || fallback` for a field that is either a string or absent. */
  function OrElse(v: Option<string>, fallback: string): string {
    if Present(v) then v.value else fallback
  }

  // ---------------------------------------------------------------- decimals

  predicate IsDigit(c: char) {
    '0' <= c <= '9'
  }

  predicate AllDigits(s: string) {
    forall i :: 0 <= i < |s| ==> IsDigit(s[i])
  }

  function DigitChar(d: nat): char
    requires d < 10
  {
    ('0' as int + d) as char
  }

  /**
   * The text JavaScript writes for a non-negative integer in a template
   * literal: decimal digits, no leading zero.
   */
  function Decimal(n: nat): (s: string)
    ensures |s| >= 1 && AllDigits(s)
    ensures s[0] == '0' ==> n == 0 && s == "0"
  {
    if n < 10 then [DigitChar(n)] else Decimal(n / 10) + [DigitChar(n % 10)]
  }

  /** The value of a string of decimal digits. */
  function DigitsValue(s: string): nat
    requires AllDigits(s)
  {
    if s == [] then 0 else DigitsValue(s[..|s| - 1]) * 10 + (s[|s| - 1] as int - '0' as int)
  }

  /** Reading back the decimal text gives the number that was written. */
  lemma {:induction false} DecimalRoundTrip(n: nat)
    ensures DigitsValue(Decimal(n)) == n
  {
    if n >= 10 {
      DecimalRoundTrip(n / 10);
      var s := Decimal(n);
      assert s[..|s| - 1] == Decimal(n / 10);
    }
  }

  /** The text of a scalar in a template literal (`${v}`). */
  function Render(v: JsValue): string {
    match v
    case Undefined => "undefined"
    case Null => "null"
    case Bool(b) => if b then "true" else "false"
    case Num(n) => if n < 0 then "-" + Decimal(-n) else Decimal(n)
    case Str(s) => s
  }

  // ------------------------------------------------------------- hex digests

  predicate IsLowerHex(c: char) {
    IsDigit(c) || 'a' <= c <= 'f'
  }

  function HexChar(d: nat): (c: char)
    requires d < 16
  {
    if d < 10 then DigitChar(d) else ('a' as int + d - 10) as char
  }

  function HexCharValue(c: char): nat
    requires IsLowerHex(c)
  {
    if IsDigit(c) then c as int - '0' as int else c as int - 'a' as int + 10
  }

  /** `digest("hex")`: two lower-case hex digits per byte, high nibble first. */
  function Hex(bytes: seq<byte>): (s: string)
    ensures |s| == 2 * |bytes|
    ensures forall i :: 0 <= i < |s| ==> IsLowerHex(s[i])
  {
    if bytes == [] then []
    else [HexChar(bytes[0] as int / 16), HexChar(bytes[0] as int % 16)] + Hex(bytes[1..])
  }

  /** Decodes a string of lower-case hex digit pairs. */
  function Unhex(s: string): seq<byte>
    requires |s| % 2 == 0
    requires forall i :: 0 <= i < |s| ==> IsLowerHex(s[i])
  {
    if s == [] then []
    else [(HexCharValue(s[0]) * 16 + HexCharValue(s[1])) as byte] + Unhex(s[2..])
  }

  /** The hex text determines the digest bytes. */
  lemma {:induction false} HexRoundTrip(bytes: seq<byte>)
    ensures Unhex(Hex(bytes)) == bytes
  {
    if bytes != [] {
      HexRoundTrip(bytes[1..]);
      assert Hex(bytes)[2..] == Hex(bytes[1..]);
    }
  }

  // ------------------------------------------------------ abstract runtime

  /**
   * A JavaScript number as `parseFloat` yields it. NaN and the infinities
   * are lumped together: all three are written as `null` in JSON and none
   * of them equals 0.
   */
  datatype Float = Finite(value: real) | NotFinite

  /**
   * Functions of the runtime the model does not interpret: `parseFloat`,
   * `new Date(ms).toISOString()` and Node's HMAC-SHA256 (key, message) as raw
   * digest bytes.
   */
  datatype Runtime = Runtime(
    parseFloat: string -> Float,
    isoString: int -> string,
    hmacSha256: (string, string) -> seq<byte>)
}
