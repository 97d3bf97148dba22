/** Octets as the tunnel handles them, and the ASCII literals it compares against. */
module Bytes {

  /** One octet of a byte stream or of a `char` buffer. */
  newtype byte = x: int | 0 <= x < 256

  /** The octets of a C string literal (each character taken modulo 256; the
      literals of the tunnel are plain ASCII). */
  function Ascii(s: string): (r: seq<byte>)
    ensures |r| == |s|
    ensures forall i :: 0 <= i < |s| ==> r[i] as int == s[i] as int % 256
  {
    seq(|s|, i requires 0 <= i < |s| => (s[i] as int % 256) as byte)
  }

  /** A lower-case ASCII letter. */
  predicate IsLowerAscii(b: byte) {
    'a' as int <= b as int <= 'z' as int
  }
}
