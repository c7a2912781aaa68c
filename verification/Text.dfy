/** The text bounds that the trusted components place on the strings they accept. */
module Text {

  /** Number of bytes of the UTF-8 encoding, which is what the source's `len()` counts. */
  function Utf8Length(s: string): nat {
    if s == "" then 0
    else
      var c := s[0] as int;
      (if c < 0x80 then 1 else if c < 0x800 then 2 else if c < 0x1_0000 then 3 else 4) + Utf8Length(s[1..])
  }

  /** The UTF-8 encoding of a character (section 3 of RFC 3629). */
  function EncodedChar(c: char): seq<int> {
    var n := c as nat;
    if n < 0x80 then [n]
    else if n < 0x800 then [0xC0 + n / 64, 0x80 + n % 64]
    else if n < 0x1_0000 then [0xE0 + n / 4096, 0x80 + n / 64 % 64, 0x80 + n % 64]
    else [0xF0 + n / 262144, 0x80 + n / 4096 % 64, 0x80 + n / 64 % 64, 0x80 + n % 64]
  }

  function Encoded(s: string): seq<int> {
    if s == "" then [] else EncodedChar(s[0]) + Encoded(s[1..])
  }

  /** The code point that starts an encoding, and how many bytes it takes. */
  function FirstPoint(b: seq<int>): (int, nat)
    requires b != []
  {
    if b[0] < 0xC0 || |b| < 2 then (b[0], 1)
    else if b[0] < 0xE0 || |b| < 3 then ((b[0] - 0xC0) * 64 + b[1] - 0x80, 2)
    else if b[0] < 0xF0 || |b| < 4 then ((b[0] - 0xE0) * 4096 + (b[1] - 0x80) * 64 + b[2] - 0x80, 3)
    else ((b[0] - 0xF0) * 262144 + (b[1] - 0x80) * 4096 + (b[2] - 0x80) * 64 + b[3] - 0x80, 4)
  }

  function Decoded(b: seq<int>): seq<int> {
    if b == [] then []
    else
      var (point, n) := FirstPoint(b);
      if n > |b| then [] else [point] + Decoded(b[n..])
  }

  function Points(s: string): seq<int> {
    seq(|s|, i requires 0 <= i < |s| => s[i] as int)
  }

  lemma CharDecodes(c: char, rest: seq<int>)
    ensures FirstPoint(EncodedChar(c) + rest) == (c as int, |EncodedChar(c)|)
  {
    var n, b := c as nat, EncodedChar(c) + rest;
    Digits(n);
    if n < 0x80 { assert b[0] == n; }
    else if n < 0x800 { assert b[0] == 0xC0 + n / 64 && b[1] == 0x80 + n % 64; }
    else if n < 0x1_0000 {
      assert b[0] == 0xE0 + n / 4096 && b[1] == 0x80 + n / 64 % 64 && b[2] == 0x80 + n % 64;
    } else {
      assert b[0] == 0xF0 + n / 262144 && b[1] == 0x80 + n / 4096 % 64;
      assert b[2] == 0x80 + n / 64 % 64 && b[3] == 0x80 + n % 64;
    }
  }

  /** A code point in digits of six bits. */
  lemma Digits(n: nat)
    ensures n == n / 64 * 64 + n % 64
    ensures n / 64 == n / 4096 * 64 + n / 64 % 64
    ensures n / 4096 == n / 262144 * 64 + n / 4096 % 64
  {
  }

  /** The length that is bounded is that of an encoding from which the characters can be read back. */
  lemma {:induction false} LengthIsEncoded(s: string)
    ensures Utf8Length(s) == |Encoded(s)|
    ensures Decoded(Encoded(s)) == Points(s)
  {
    if s != "" {
      LengthIsEncoded(s[1..]);
      CharDecodes(s[0], Encoded(s[1..]));
      var b := Encoded(s);
      assert |EncodedChar(s[0])| > 0 && b[|EncodedChar(s[0])|..] == Encoded(s[1..]);
      hide FirstPoint;
      assert Points(s) == [s[0] as int] + Points(s[1..]);
    }
  }

  /** Unicode White_Space, the set removed by `trim`. */
  predicate IsWhitespace(c: char) {
    var n := c as int;
    || 0x9 <= n <= 0xD || n == 0x20 || n == 0x85 || n == 0xA0 || n == 0x1680
    || 0x2000 <= n <= 0x200A || n == 0x2028 || n == 0x2029 || n == 0x202F || n == 0x205F || n == 0x3000
  }

  /** Unicode general category Cc. */
  predicate IsControl(c: char) {
    var n := c as int;
    n <= 0x1F || 0x7F <= n <= 0x9F
  }

  /** `value.trim().is_empty()` */
  predicate IsBlank(s: string) {
    forall i :: 0 <= i < |s| ==> IsWhitespace(s[i])
  }

  /** Bound used for protocol and checkpoint identifiers: not blank and at most `maximum` bytes. */
  predicate IsBounded(s: string, maximum: nat) {
    !IsBlank(s) && Utf8Length(s) <= maximum
  }

  /** Bound used for capability fields: nonempty, short, no control character, already trimmed. */
  predicate IsTrimmedField(s: string, maximum: nat) {
    && s != ""
    && Utf8Length(s) <= maximum
    && (forall i :: 0 <= i < |s| ==> !IsControl(s[i]))
    && !IsWhitespace(s[0]) && !IsWhitespace(s[|s| - 1])
  }
}
