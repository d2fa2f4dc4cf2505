/** The bytes of a string, as the engines count and hash them. */
module Utf8 {

  type Byte = b: int | 0 <= b < 256

  function EncodeChar(c: char): (bytes: seq<Byte>)
    ensures 1 <= |bytes| <= 4
    ensures |bytes| == 1 <==> c as int < 0x80
  {
    var n := c as int;
    if n < 0x80 then [n]
    else if n < 0x800 then [0xC0 + n / 0x40, 0x80 + n % 0x40]
    else if n < 0x1_0000 then [0xE0 + n / 0x1000, 0x80 + n / 0x40 % 0x40, 0x80 + n % 0x40]
    else [0xF0 + n / 0x4_0000, 0x80 + n / 0x1000 % 0x40, 0x80 + n / 0x40 % 0x40, 0x80 + n % 0x40]
  }

  function Encode(s: string): (bytes: seq<Byte>)
    ensures |s| <= |bytes| <= 4 * |s|
  {
    if s == "" then [] else Encode(s[..|s| - 1]) + EncodeChar(s[|s| - 1])
  }

  predicate Ascii(s: string) {
    forall i :: 0 <= i < |s| ==> s[i] as int < 0x80
  }

  /** Characters and bytes are equally many only in plain ASCII. */
  lemma {:induction false} OneByteEachIff(s: string)
    ensures |Encode(s)| == |s| <==> Ascii(s)
  {
    if s != "" {
      var n := |s| - 1;
      OneByteEachIff(s[..n]);
      assert Ascii(s) <==> Ascii(s[..n]) && s[n] as int < 0x80 by { AsciiLast(s); }
    }
  }

  lemma AsciiLast(s: string)
    requires s != ""
    ensures Ascii(s) <==> Ascii(s[..|s| - 1]) && s[|s| - 1] as int < 0x80
  {
    var n := |s| - 1;
    if Ascii(s[..n]) && s[n] as int < 0x80 {
      forall i | 0 <= i < |s| ensures s[i] as int < 0x80 {
        if i < n { assert s[..n][i] == s[i]; }
      }
    }
  }
}
