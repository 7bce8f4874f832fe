/** UTF-8 encoding of strings, as `str.encode("utf-8")` performs it, and its injectivity. */
module Utf8 {
  import opened Basics

  /** The length of the byte sequence that a lead byte announces. */
  function LeadLength(b: byte): nat {
    if b < 0x80 then 1 else if b < 0xE0 then 2 else if b < 0xF0 then 3 else 4
  }

  /** The UTF-8 bytes of one Unicode scalar value. */
  function EncodeScalar(v: int): (r: seq<byte>)
    requires 0 <= v < 0x11_0000
    ensures 1 <= |r| <= 4 && |r| == LeadLength(r[0])
  {
    if v < 0x80 then [v]
    else if v < 0x800 then [0xC0 + v / 64, 0x80 + v % 64]
    else if v < 0x1_0000 then [0xE0 + v / 4096, 0x80 + (v / 64) % 64, 0x80 + v % 64]
    else [0xF0 + v / 262144, 0x80 + (v / 4096) % 64, 0x80 + (v / 64) % 64, 0x80 + v % 64]
  }

  /** Reads back the scalar value from its 1 to 4 bytes. */
  function DecodeScalar(r: seq<byte>): int
    requires 1 <= |r| <= 4
  {
    var b := seq(|r|, i requires 0 <= i < |r| => r[i] as int);
    if |r| == 1 then b[0]
    else if |r| == 2 then (b[0] - 0xC0) * 64 + (b[1] - 0x80)
    else if |r| == 3 then (b[0] - 0xE0) * 4096 + (b[1] - 0x80) * 64 + (b[2] - 0x80)
    else (b[0] - 0xF0) * 262144 + (b[1] - 0x80) * 4096 + (b[2] - 0x80) * 64 + (b[3] - 0x80)
  }

  lemma DecodeEncodeScalar(v: int)
    requires 0 <= v < 0x11_0000
    ensures DecodeScalar(EncodeScalar(v)) == v
  {
    if v < 0x80 {
    } else if v < 0x800 {
      assert v == (v / 64) * 64 + v % 64;
    } else if v < 0x1_0000 {
      assert v / 64 == (v / 4096) * 64 + (v / 64) % 64;
      assert v == (v / 64) * 64 + v % 64;
    } else {
      assert v / 4096 == (v / 262144) * 64 + (v / 4096) % 64;
      assert v / 64 == (v / 4096) * 64 + (v / 64) % 64;
      assert v == (v / 64) * 64 + v % 64;
    }
  }

  /** `s.encode("utf-8")`. */
  function Encode(s: string): (r: seq<byte>)
    ensures s != [] ==> r != []
  {
    if s == [] then [] else EncodeScalar(s[0] as int) + Encode(s[1..])
  }

  /** Distinct strings have distinct encodings. */
  lemma {:induction false} EncodeInjective(s: string, t: string)
    requires Encode(s) == Encode(t)
    ensures s == t
  {
    if s != [] && t != [] {
      var a, b := EncodeScalar(s[0] as int), EncodeScalar(t[0] as int);
      assert Encode(s) == a + Encode(s[1..]);
      assert Encode(t) == b + Encode(t[1..]);
      assert a[0] == Encode(s)[0] == b[0];
      assert |a| == |b|;
      assert a == Encode(s)[..|a|] == b;
      DecodeEncodeScalar(s[0] as int);
      DecodeEncodeScalar(t[0] as int);
      assert s[0] == t[0];
      assert Encode(s[1..]) == Encode(s)[|a|..] == Encode(t[1..]);
      EncodeInjective(s[1..], t[1..]);
      assert s == [s[0]] + s[1..];
      assert t == [t[0]] + t[1..];
    }
  }
}
