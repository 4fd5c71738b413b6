/** The client's inline hex helpers. */
module Hex {
  import opened Common
  import opened JsonText
  import opened Utf8

  function HexText(bs: seq<Byte>): string {
    seq(2 * |bs|, i requires 0 <= i < 2 * |bs| =>
      if i % 2 == 0 then HexDigit(bs[i / 2] / 16) else HexDigit(bs[i / 2] % 16))
  }

  method BytesToHex(bytes: seq<Byte>) returns (out: string)
    ensures out == HexText(bytes)
  {
    out := "";
    for i := 0 to |bytes|
      invariant |out| == 2 * i && out == HexText(bytes)[..2 * i]
    {
      var b := bytes[i];
      var digits := if b < 16 then "0" + [HexDigit(b)] else [HexDigit(b / 16), HexDigit(b % 16)];
      var full := HexText(bytes);
      assert full[..2 * i + 2] == full[..2 * i] + [full[2 * i], full[2 * i + 1]];
      out := out + digits;
    }
  }

  predicate IsSpace(c: char) {
    c == ' ' || 9 as char <= c <= 13 as char || c == '\U{A0}' || c == '\U{1680}' || '\U{2000}' <= c <= '\U{200A}'
    || c == '\U{2028}' || c == '\U{2029}' || c == '\U{202F}' || c == '\U{205F}' || c == '\U{3000}' || c == '\U{FEFF}'
  }

  /** `parseInt(ab, 16)` stored in a byte: leading space and sign are taken, parsing stops at the first
      character that is no hex digit, and NaN is stored as 0. */
  function ParseByte(a: char, b: char): Byte {
    var low := if IsHex(b) then HexValue(b) else 0;
    if IsHex(a) then (if IsHex(b) then 16 * HexValue(a) + low else HexValue(a))
    else if a == '-' then (256 - low) % 256
    else if a == '+' || IsSpace(a) then low
    else 0
  }

  // ---------------------------------------------------------------- parseInt

  function TrimStart(s: string): string {
    if s != "" && IsSpace(s[0]) then TrimStart(s[1..]) else s
  }

  /** The digits at the front, and their value. */
  function HexRun(s: string): nat {
    if s != "" && IsHex(s[0]) then 1 + HexRun(s[1..]) else 0
  }

  function HexNumber(s: string): nat
    requires forall i :: 0 <= i < |s| ==> IsHex(s[i])
  {
    if s == "" then 0 else HexNumber(s[..|s| - 1]) * 16 + HexValue(s[|s| - 1])
  }

  lemma {:induction false} HexRunIsHex(s: string)
    ensures HexRun(s) <= |s| && forall i :: 0 <= i < HexRun(s) ==> IsHex(s[i])
  {
    if s != "" { HexRunIsHex(s[1..]); }
  }

  /** The number at the front, if there is a digit. */
  function Unsigned16(s: string): Option<int> {
    HexRunIsHex(s);
    if HexRun(s) == 0 then None else Some(HexNumber(s[..HexRun(s)]))
  }

  /** `parseInt(s, 16)` for any string: white space, a sign, an optional 0x, then as many digits as there are. */
  function ParseInt16(s: string): Option<int> {
    var t := TrimStart(s);
    var u := if t != "" && (t[0] == '-' || t[0] == '+') then t[1..] else t;
    var n := Unsigned16(if |u| >= 2 && u[0] == '0' && (u[1] == 'x' || u[1] == 'X') then u[2..] else u);
    if n.Some? && t[0] == '-' then Some(-n.value) else n
  }

  /** Storing a number in a `Uint8Array`; not a number is stored as 0. */
  function ToByte(n: Option<int>): Byte {
    if n.None? then 0 else n.value % 256
  }

  lemma OneDigitNumber(b: char)
    requires IsHex(b)
    ensures HexNumber([b]) == HexValue(b)
  {
    var s := [b];
    assert s[..|s| - 1] == "";
    assert HexNumber("") == 0;
  }

  lemma OneDigit(b: char)
    ensures Unsigned16([b]) == if IsHex(b) then Some(HexValue(b)) else None
    ensures Unsigned16("") == None
  {
    var s := [b];
    assert s[1..] == "" && HexRun("") == 0;
    if IsHex(b) {
      OneDigitNumber(b);
      assert HexRun(s) == 1 && s[..1] == s;
    }
  }

  lemma TwoDigits(a: char, b: char)
    ensures Unsigned16([a, b]) ==
      if !IsHex(a) then None else if !IsHex(b) then Some(HexValue(a)) else Some(16 * HexValue(a) + HexValue(b))
  {
    var s, t := [a, b], [b];
    assert s[1..] == t && t[1..] == "" && HexRun("") == 0;
    assert HexRun(t) == if IsHex(b) then 1 else 0;
    if IsHex(a) {
      OneDigitNumber(a);
      assert s[..1] == [a];
      if IsHex(b) {
        assert HexRun(s) == 2 && s[..2] == s;
        assert s[..|s| - 1] == [a];
      } else {
        assert HexRun(s) == 1;
      }
    }
  }

  /** One byte of `hexToBytes` is what `parseInt` makes of its two characters. */
  lemma PairIsParseInt(a: char, b: char)
    ensures ParseByte(a, b) == ToByte(ParseInt16([a, b]))
  {
    assert [a, b][1..] == [b] && [b][1..] == "" && [a, b][2..] == "";
    OneDigit(b);
    TwoDigits(a, b);
    if IsSpace(a) {
      assert TrimStart([a, b]) == TrimStart([b]) == if IsSpace(b) then "" else [b];
    } else {
      assert TrimStart([a, b]) == [a, b];
    }
  }

  const PREFIX: string := "ed25519:"

  function Clean(hex: string): string {
    if PREFIX <= hex then hex[|PREFIX|..] else hex
  }

  /** A string as JavaScript counts it: a character beyond U+FFFF is two code units, neither of which is a digit, a
      sign or a space; the replacement character stands for each. */
  function Units(s: string): string {
    if s == "" then ""
    else (if s[0] <= '\U{FFFF}' then [s[0]] else ['\U{FFFD}', '\U{FFFD}']) + Units(s[1..])
  }

  function HexBytes(s: string): seq<Byte> {
    seq(|s| / 2, i requires 0 <= i < |s| / 2 => ParseByte(s[2 * i], s[2 * i + 1]))
  }

  /** None stands for the thrown odd-length error. */
  method HexToBytes(hex: string) returns (r: Option<seq<Byte>>)
    ensures r == if |Units(Clean(hex))| % 2 == 0 then Some(HexBytes(Units(Clean(hex)))) else None
  {
    var clean := Units(Clean(hex));
    if |clean| % 2 != 0 { return None; }
    var out := new Byte[|clean| / 2];
    for i := 0 to out.Length
      invariant forall j :: 0 <= j < i ==> out[j] == HexBytes(clean)[j]
    {
      out[i] := ParseByte(clean[i * 2], clean[i * 2 + 1]);
    }
    assert out[..] == HexBytes(clean);
    return Some(out[..]);
  }

  predicate IsLowerHex(c: char) {
    '0' <= c <= '9' || 'a' <= c <= 'f'
  }

  lemma DigitRoundTrip(d: nat)
    requires d < 16
    ensures IsLowerHex(HexDigit(d)) && HexValue(HexDigit(d)) == d
  {
  }

  /** A character is two code units exactly when it is four bytes of UTF-8. */
  lemma {:induction false} UnitsOf(c: char, s: string)
    ensures |Units([c] + s)| == |Units(s)| + if |Utf8.EncodeChar(c)| == 4 then 2 else 1
  {
    assert ([c] + s)[1..] == s;
  }

  lemma {:induction false} PlainUnits(s: string)
    requires forall i :: 0 <= i < |s| ==> IsLowerHex(s[i])
    ensures Units(s) == s
  {
    if s != "" {
      assert IsLowerHex(s[0]);
      PlainUnits(s[1..]);
    }
  }

  lemma HexTextIsLowerHex(bs: seq<Byte>, i: nat)
    requires i < 2 * |bs|
    ensures IsLowerHex(HexText(bs)[i])
  {
    DigitRoundTrip(bs[i / 2] / 16);
    DigitRoundTrip(bs[i / 2] % 16);
  }

  lemma ByteRoundTrip(b: Byte)
    ensures ParseByte(HexDigit(b / 16), HexDigit(b % 16)) == b
  {
    DigitRoundTrip(b / 16);
    DigitRoundTrip(b % 16);
  }

  lemma NoPrefix(bs: seq<Byte>)
    ensures !(PREFIX <= HexText(bs))
  {
    if PREFIX <= HexText(bs) {
      assert HexText(bs)[7] == ':';
      HexTextIsLowerHex(bs, 7);
    }
  }

  /** Decoding what was encoded gives the bytes back, with or without the key prefix. */
  lemma HexRoundTrip(bs: seq<Byte>)
    ensures Units(Clean(HexText(bs))) == HexText(bs) == Units(Clean(PREFIX + HexText(bs)))
    ensures |HexText(bs)| % 2 == 0 && HexBytes(HexText(bs)) == bs
  {
    NoPrefix(bs);
    CleanDropsPrefix(HexText(bs));
    BytesRoundTrip(bs);
    forall i | 0 <= i < |HexText(bs)| ensures IsLowerHex(HexText(bs)[i]) { HexTextIsLowerHex(bs, i); }
    PlainUnits(HexText(bs));
  }

  lemma CleanDropsPrefix(s: string)
    ensures Clean(PREFIX + s) == s
  {
    assert (PREFIX + s)[|PREFIX|..] == s;
  }

  lemma BytesRoundTrip(bs: seq<Byte>)
    ensures |HexText(bs)| % 2 == 0 && HexBytes(HexText(bs)) == bs
  {
    var s := HexText(bs);
    forall i | 0 <= i < |bs|
      ensures HexBytes(s)[i] == bs[i]
    {
      ByteRoundTrip(bs[i]);
    }
  }

  lemma PairRoundTrip(a: char, b: char)
    requires IsLowerHex(a) && IsLowerHex(b)
    ensures HexDigit(ParseByte(a, b) / 16) == a && HexDigit(ParseByte(a, b) % 16) == b
  {
  }

  /** What decoding and encoding makes of the pair of characters `2 * k` and `2 * k + 1`. */
  lemma PairOfText(s: string, k: nat)
    requires |s| % 2 == 0 && 2 * k < |s|
    ensures
      var b, t := ParseByte(s[2 * k], s[2 * k + 1]), HexText(HexBytes(s));
      |t| == |s| && t[2 * k] == HexDigit(b / 16) && t[2 * k + 1] == HexDigit(b % 16)
  {
    assert HexBytes(s)[k] == ParseByte(s[2 * k], s[2 * k + 1]);
  }

  /** A text survives decoding and encoding exactly when it is lower-case hex, without the key prefix. */
  lemma TextRoundTripIff(s: string)
    requires |Units(Clean(s))| % 2 == 0
    ensures HexText(HexBytes(Units(Clean(s)))) == s <==> forall i :: 0 <= i < |s| ==> IsLowerHex(s[i])
  {
    var u := Units(Clean(s));
    var t := HexText(HexBytes(u));
    forall i | 0 <= i < |t| ensures IsLowerHex(t[i]) {
      HexTextIsLowerHex(HexBytes(u), i);
    }
    if forall i :: 0 <= i < |s| ==> IsLowerHex(s[i]) {
      LowerHexIsClean(s);
      PlainUnits(s);
      forall i | 0 <= i < |s| ensures t[i] == s[i] {
        var k := i / 2;
        PairOfText(s, k);
        PairRoundTrip(s[2 * k], s[2 * k + 1]);
        assert i == 2 * k || i == 2 * k + 1;
      }
    }
  }

  lemma LowerHexIsClean(s: string)
    requires forall i :: 0 <= i < |s| ==> IsLowerHex(s[i])
    ensures Clean(s) == s
  {
    assert PREFIX[7] == ':' && !IsLowerHex(PREFIX[7]);
    assert |s| > 7 ==> IsLowerHex(s[7]);
  }
}
