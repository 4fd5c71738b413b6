/** UTF-8 (section 3 of RFC 3629) over Unicode scalar values, as `TextEncoder` and Rust strings use it. */
module Utf8 {

  type Byte = x: int | 0 <= x < 256

  function EncodeChar(c: char): seq<Byte> {
    var n := c as int;
    if n < 0x80 then [n]
    else if n < 0x800 then [0xC0 + n / 64, 0x80 + n % 64]
    else if n < 0x10000 then [0xE0 + n / 4096, 0x80 + n / 64 % 64, 0x80 + n % 64]
    else [0xF0 + n / 262144, 0x80 + n / 4096 % 64, 0x80 + n / 64 % 64, 0x80 + n % 64]
  }

  function Encode(s: string): seq<Byte> {
    if s == "" then [] else EncodeChar(s[0]) + Encode(s[1..])
  }

  /** How many bytes the character at the front takes, read off its first byte. */
  function HeadLength(bs: seq<int>): nat
    requires bs != []
  {
    if bs[0] < 0x80 then 1 else if bs[0] < 0xE0 then 2 else if bs[0] < 0xF0 then 3 else 4
  }

  function HeadValue(bs: seq<int>): int
    requires bs != [] && HeadLength(bs) <= |bs|
  {
    if bs[0] < 0x80 then bs[0]
    else if bs[0] < 0xE0 then (bs[0] - 0xC0) * 64 + (bs[1] - 0x80)
    else if bs[0] < 0xF0 then (bs[0] - 0xE0) * 4096 + (bs[1] - 0x80) * 64 + (bs[2] - 0x80)
    else (bs[0] - 0xF0) * 262144 + (bs[1] - 0x80) * 4096 + (bs[2] - 0x80) * 64 + (bs[3] - 0x80)
  }

  lemma HeadOfEncoded(c: char, rest: seq<Byte>)
    ensures var bs := EncodeChar(c) + rest;
            && bs != [] && HeadLength(bs) == |EncodeChar(c)| && HeadValue(bs) == c as int
  {
    var n := c as int;
    assert n / 4096 == n / 64 / 64 && n / 262144 == n / 64 / 64 / 64;
  }

  /** Different texts have different bytes. */
  lemma {:induction false} EncodeInjective(s: string, t: string)
    requires Encode(s) == Encode(t)
    ensures s == t
  {
    if s == "" || t == "" {
      if s != "" { HeadOfEncoded(s[0], Encode(s[1..])); }
      if t != "" { HeadOfEncoded(t[0], Encode(t[1..])); }
    } else {
      var a, b := EncodeChar(s[0]), EncodeChar(t[0]);
      HeadOfEncoded(s[0], Encode(s[1..]));
      HeadOfEncoded(t[0], Encode(t[1..]));
      assert |a| == |b|;
      assert Encode(s[1..]) == Encode(s)[|a|..] == Encode(t)[|a|..] == Encode(t[1..]);
      EncodeInjective(s[1..], t[1..]);
      assert s == [s[0]] + s[1..] && t == [t[0]] + t[1..];
    }
  }
}
