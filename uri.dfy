/** `Uri.EscapeDataString`: the RFC 3986 unreserved characters are kept, every other character is
    written as the percent-encoded bytes of its UTF-8 form, with upper-case hex digits. */
module UriEscape {
  import opened Text

  predicate IsAlphaNumeric(c: char) {
    ('A' <= c <= 'Z') || ('a' <= c <= 'z') || ('0' <= c <= '9')
  }

  /** The unreserved characters of section 2.3 of RFC 3986. */
  predicate IsUnreserved(c: char) {
    IsAlphaNumeric(c) || c == '-' || c == '.' || c == '_' || c == '~'
  }

  predicate IsUpperHex(c: char) {
    ('0' <= c <= '9') || ('A' <= c <= 'F')
  }

  function HexDigit(d: nat): (c: char)
    requires d < 16
    ensures IsUpperHex(c)
  {
    "0123456789ABCDEF"[d]
  }

  /** The UTF-8 encoding of one scalar value (section 3 of RFC 3629). */
  function Utf8(c: char): (bytes: seq<nat>)
    ensures 1 <= |bytes| <= 4
    ensures forall i :: 0 <= i < |bytes| ==> bytes[i] < 256
  {
    var n := c as int;
    if n < 0x80 then [n]
    else if n < 0x800 then [0xC0 + n / 64, 0x80 + n % 64]
    else if n < 0x10000 then [0xE0 + n / 4096, 0x80 + (n / 64) % 64, 0x80 + n % 64]
    else [0xF0 + n / 262144, 0x80 + (n / 4096) % 64, 0x80 + (n / 64) % 64, 0x80 + n % 64]
  }

  function PercentEncode(bytes: seq<nat>): (r: string)
    requires forall i :: 0 <= i < |bytes| ==> bytes[i] < 256
    ensures |r| == 3 * |bytes|
    ensures forall i :: 0 <= i < |r| ==> r[i] == '%' || IsUpperHex(r[i])
    decreases |bytes|
  {
    if |bytes| == 0 then ""
    else ['%', HexDigit(bytes[0] / 16), HexDigit(bytes[0] % 16)] + PercentEncode(bytes[1..])
  }

  function EscapeChar(c: char): string {
    if IsUnreserved(c) then [c] else PercentEncode(Utf8(c))
  }

  /** Every character of an escaped string is unreserved, a '%' or an upper-case hex digit:
      in particular none of the delimiters '&', '=', '?', '#', '/' survives escaping. */
  predicate IsEscaped(s: string) {
    forall i :: 0 <= i < |s| ==> IsUnreserved(s[i]) || s[i] == '%'
  }

  function EscapeDataString(s: string): (r: string)
    ensures IsEscaped(r)
    ensures |r| >= |s|
    decreases |s|
  {
    if |s| == 0 then ""
    else
      var r := EscapeChar(s[0]) + EscapeDataString(s[1..]);
      assert forall i :: 0 <= i < |EscapeChar(s[0])| ==> IsUnreserved(EscapeChar(s[0])[i]) || EscapeChar(s[0])[i] == '%';
      r
  }

  /** A string made only of unreserved characters is left as it is. */
  lemma {:induction false} EscapeUnreserved(s: string)
    requires forall i :: 0 <= i < |s| ==> IsUnreserved(s[i])
    ensures EscapeDataString(s) == s
    decreases |s|
  {
    if |s| > 0 {
      EscapeUnreserved(s[1..]);
      assert s == [s[0]] + s[1..];
    }
  }

  /** An escaped string contains no character outside the unreserved set and '%'. */
  lemma EscapedHasNo(s: string, c: char)
    requires !IsUnreserved(c) && c != '%'
    ensures c !in EscapeDataString(s)
  {
  }

  /** Escaping works character by character. */
  lemma {:induction false} EscapeConcat(a: string, b: string)
    ensures EscapeDataString(a + b) == EscapeDataString(a) + EscapeDataString(b)
    decreases |a|
  {
    if |a| == 0 {
      assert a + b == b;
    } else {
      assert (a + b)[0] == a[0] && (a + b)[1..] == a[1..] + b;
      EscapeConcat(a[1..], b);
    }
  }
}
