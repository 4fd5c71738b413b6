/** JSON text (sections 2 to 7 of RFC 8259) as `serde_json` and `JSON.stringify` print it: no white
    space, the short escapes, \u00xx for the other control characters, integers in decimal.
    Objects keep the order of their members; the parser inverts the printer. */
module JsonText {
  import opened Common

  datatype Json =
    | JNull
    | JBool(b: bool)
    | JInt(n: int)
    | JStr(s: string)
    | JArr(es: seq<Json>)
    | JObj(fs: seq<Field>)

  datatype Field = Field(key: string, value: Json)

  datatype Parsed<+T> = Fail | Got(value: T, rest: string)

  // ---------------------------------------------------------------- integers

  predicate IsDigit(c: char) { '0' <= c <= '9' }

  function Digits(n: nat): (r: string)
    ensures r != "" && forall i :: 0 <= i < |r| ==> IsDigit(r[i])
    ensures r[0] == '0' ==> n == 0
  {
    if n < 10 then ['0' + n as char] else Digits(n / 10) + ['0' + (n % 10) as char]
  }

  function PrintInt(n: int): string {
    if n < 0 then "-" + Digits(-n) else Digits(n)
  }

  function DigitRun(s: string): (k: nat)
    ensures k <= |s| && forall i :: 0 <= i < k ==> IsDigit(s[i])
  {
    if s != "" && IsDigit(s[0]) then 1 + DigitRun(s[1..]) else 0
  }

  function DigitValue(c: char): nat
    requires IsDigit(c)
  {
    c as nat - '0' as nat
  }

  function DigitsValue(ds: string): nat
    requires forall i :: 0 <= i < |ds| ==> IsDigit(ds[i])
  {
    if ds == "" then 0 else DigitsValue(ds[..|ds| - 1]) * 10 + DigitValue(ds[|ds| - 1])
  }

  function ParseNat(s: string): (r: Parsed<nat>)
    ensures r.Got? ==> |r.rest| < |s|
  {
    var k := DigitRun(s);
    if k == 0 || (k > 1 && s[0] == '0') then Fail else Got(DigitsValue(s[..k]), s[k..])
  }

  function ParseInt(s: string): (r: Parsed<int>)
    ensures r.Got? ==> |r.rest| < |s|
  {
    if StartsWith(s, '-') then
      match ParseNat(s[1..])
      case Got(n, rest) => if n == 0 then Fail else Got(0 - n as int, rest)
      case Fail => Fail
    else
      match ParseNat(s)
      case Got(n, rest) => Got(n, rest)
      case Fail => Fail
  }

  lemma {:induction false} DigitsValueOfDigits(n: nat)
    ensures DigitsValue(Digits(n)) == n
  {
    if n >= 10 {
      DigitsValueOfDigits(n / 10);
      var ds := Digits(n);
      assert ds[..|ds| - 1] == Digits(n / 10);
    } else {
      assert Digits(n)[..0] == "";
    }
  }

  lemma {:induction false} DigitRunOf(ds: string, rest: string)
    requires forall i :: 0 <= i < |ds| ==> IsDigit(ds[i])
    requires rest == "" || !IsDigit(rest[0])
    ensures DigitRun(ds + rest) == |ds|
  {
    if ds == "" {
      assert ds + rest == rest;
    } else {
      DigitRunOf(ds[1..], rest);
      assert (ds + rest)[1..] == ds[1..] + rest;
    }
  }

  lemma {:induction false} ParseDigits(n: nat, rest: string)
    requires rest == "" || !IsDigit(rest[0])
    ensures ParseNat(Digits(n) + rest) == Got(n, rest)
  {
    var ds := Digits(n);
    DigitRunOf(ds, rest);
    DigitsValueOfDigits(n);
    assert (ds + rest)[..|ds|] == ds && (ds + rest)[|ds|..] == rest;
  }

  lemma {:induction false} ParseNegative(ds: string, n: nat, rest: string)
    requires n > 0 && ParseNat(ds + rest) == Got(n, rest)
    ensures ParseInt("-" + ds + rest) == Got(-(n as int), rest)
  {
    var text := "-" + ds + rest;
    assert text[1..] == ds + rest;
    assert StartsWith(text, '-');
  }

  lemma {:induction false} ParsePositive(ds: string, n: nat, rest: string)
    requires ds != "" && ds[0] != '-' && ParseNat(ds + rest) == Got(n, rest)
    ensures ParseInt(ds + rest) == Got(n, rest)
  {
    assert !StartsWith(ds + rest, '-');
  }

  lemma {:induction false} ParsePrintedInt(n: int, rest: string)
    requires rest == "" || !IsDigit(rest[0])
    ensures ParseInt(PrintInt(n) + rest) == Got(n, rest)
  {
    if n < 0 {
      ParseDigits(-n, rest);
      ParseNegative(Digits(-n), -n, rest);
    } else {
      ParseDigits(n, rest);
      assert IsDigit(Digits(n)[0]);
      ParsePositive(Digits(n), n, rest);
    }
  }

  // ---------------------------------------------------------------- strings

  const BACKSPACE: char := 8 as char
  const FORM_FEED: char := 12 as char

  function HexDigit(d: nat): char
    requires d < 16
  {
    if d < 10 then '0' + d as char else 'a' + (d - 10) as char
  }

  predicate IsHex(c: char) {
    '0' <= c <= '9' || 'a' <= c <= 'f' || 'A' <= c <= 'F'
  }

  function HexValue(c: char): (d: nat)
    requires IsHex(c)
    ensures d < 16
  {
    if c <= '9' then (c - '0') as nat else if c <= 'F' then (c - 'A') as nat + 10 else (c - 'a') as nat + 10
  }

  function EscapeChar(c: char): (r: string)
    ensures r != ""
  {
    if c == '"' then "\\\""
    else if c == '\\' then "\\\\"
    else if c == BACKSPACE then "\\b"
    else if c == FORM_FEED then "\\f"
    else if c == '\n' then "\\n"
    else if c == '\r' then "\\r"
    else if c == '\t' then "\\t"
    else if c < ' ' then "\\u00" + [HexDigit(c as nat / 16), HexDigit(c as nat % 16)]
    else [c]
  }

  function Escape(s: string): string {
    if s == "" then "" else EscapeChar(s[0]) + Escape(s[1..])
  }

  function PrintString(s: string): string {
    "\"" + Escape(s) + "\""
  }

  /** The character named by the four hex digits of a \u escape; surrogates name none. */
  function UnicodeEscape(h: string): Parsed<char>
    requires |h| >= 4
  {
    if !(IsHex(h[0]) && IsHex(h[1]) && IsHex(h[2]) && IsHex(h[3])) then Fail
    else
      var v := HexValue(h[0]) * 4096 + HexValue(h[1]) * 256 + HexValue(h[2]) * 16 + HexValue(h[3]);
      if 0xD800 <= v < 0xE000 then Fail else Got(v as char, h[4..])
  }

  /** One character of a string body: an escape or the character itself. */
  function ParseChar(s: string): (r: Parsed<char>)
    ensures r.Got? ==> |r.rest| < |s|
  {
    if s == "" || s[0] < ' ' || s[0] == '"' then Fail
    else if s[0] != '\\' then Got(s[0], s[1..])
    else if |s| == 1 then Fail
    else if s[1] == 'u' then (if |s| < 6 then Fail else UnicodeEscape(s[2..]))
    else if s[1] == '"' || s[1] == '\\' || s[1] == '/' then Got(s[1], s[2..])
    else if s[1] == 'b' then Got(BACKSPACE, s[2..])
    else if s[1] == 'f' then Got(FORM_FEED, s[2..])
    else if s[1] == 'n' then Got('\n', s[2..])
    else if s[1] == 'r' then Got('\r', s[2..])
    else if s[1] == 't' then Got('\t', s[2..])
    else Fail
  }

  /** A string body up to and including its closing quote. */
  function ParseBody(s: string): (r: Parsed<string>)
    ensures r.Got? ==> |r.rest| < |s|
    decreases |s|
  {
    if StartsWith(s, '"') then Got("", s[1..])
    else
      match ParseChar(s)
      case Fail => Fail
      case Got(c, rest) =>
        match ParseBody(rest)
        case Fail => Fail
        case Got(cs, rest') => Got([c] + cs, rest')
  }

  function ParseString(s: string): (r: Parsed<string>)
    ensures r.Got? ==> |r.rest| < |s|
  {
    if StartsWith(s, '"') then ParseBody(s[1..]) else Fail
  }

  /** Escapes are as short as the grammar allows: none for an ordinary character, a letter for the seven that have one,
      and lower-case hex for the other controls. With ParseEscaped this leaves one escape for every character. */
  lemma EscapeIsShortest(c: char)
    ensures EscapeChar(c) == [c] <==> c >= ' ' && c != '"' && c != '\\'
    ensures |EscapeChar(c)| == 2 <==> c in {'"', '\\', BACKSPACE, FORM_FEED, '\n', '\r', '\t'}
    ensures |EscapeChar(c)| in {1, 2, 6}
    ensures |EscapeChar(c)| == 6 ==> forall i :: 0 <= i < 6 ==> !('A' <= EscapeChar(c)[i] <= 'Z')
  {
  }

  lemma {:induction false} ParseEscaped(c: char, rest: string)
    ensures ParseChar(EscapeChar(c) + rest) == Got(c, rest)
    ensures EscapeChar(c)[0] != '"'
  {
    var e := EscapeChar(c);
    assert |e| == 1 ==> (e + rest)[1..] == rest;
    assert |e| == 2 ==> (e + rest)[2..] == rest;
    assert |e| == 6 ==> (e + rest)[2..][4..] == rest;
  }

  lemma {:induction false} ParseEscapedBody(s: string, rest: string)
    ensures ParseBody(Escape(s) + "\"" + rest) == Got(s, rest)
  {
    var text := Escape(s) + "\"" + rest;
    if s == "" {
      assert text == "\"" + rest;
    } else {
      var tail := Escape(s[1..]) + "\"" + rest;
      assert text == EscapeChar(s[0]) + tail;
      ParseEscaped(s[0], tail);
      ParseEscapedBody(s[1..], rest);
      assert !StartsWith(text, '"') && s == [s[0]] + s[1..];
    }
  }

  lemma {:induction false} ParsePrintedString(s: string, rest: string)
    ensures ParseString(PrintString(s) + rest) == Got(s, rest)
  {
    assert (PrintString(s) + rest)[1..] == Escape(s) + "\"" + rest;
    ParseEscapedBody(s, rest);
  }

  // ---------------------------------------------------------------- values

  function Print(j: Json): string
    decreases j, 1
  {
    match j
    case JNull => "null"
    case JBool(b) => if b then "true" else "false"
    case JInt(n) => PrintInt(n)
    case JStr(s) => PrintString(s)
    case JArr(es) => "[" + (if es == [] then "]" else Print(es[0]) + PrintElements(es[1..]))
    case JObj(fs) => "{" + (if fs == [] then "}" else PrintField(fs[0]) + PrintFields(fs[1..]))
  }

  function PrintElements(es: seq<Json>): string
    decreases es, 0
  {
    if es == [] then "]" else "," + Print(es[0]) + PrintElements(es[1..])
  }

  function PrintField(f: Field): string
    decreases f, 2
  {
    PrintString(f.key) + ":" + Print(f.value)
  }

  function PrintFields(fs: seq<Field>): string
    decreases fs, 0
  {
    if fs == [] then "}" else "," + PrintField(fs[0]) + PrintFields(fs[1..])
  }

  function Literal(s: string, word: string, j: Json): (r: Parsed<Json>)
    requires word != ""
    ensures r.Got? ==> |r.rest| < |s|
  {
    if word <= s then Got(j, s[|word|..]) else Fail
  }

  function ParseValue(s: string): (r: Parsed<Json>)
    ensures r.Got? ==> |r.rest| < |s|
    decreases |s|, 0
  {
    if s == "" then Fail
    else if s[0] == '"' then
      match ParseString(s)
      case Fail => Fail
      case Got(str, rest) => Got(JStr(str), rest)
    else if s[0] == '[' then
      match ParseArray(s[1..])
      case Fail => Fail
      case Got(es, rest) => Got(JArr(es), rest)
    else if s[0] == '{' then
      match ParseObject(s[1..])
      case Fail => Fail
      case Got(fs, rest) => Got(JObj(fs), rest)
    else if s[0] == 'n' then Literal(s, "null", JNull)
    else if s[0] == 't' then Literal(s, "true", JBool(true))
    else if s[0] == 'f' then Literal(s, "false", JBool(false))
    else
      match ParseInt(s)
      case Fail => Fail
      case Got(n, rest) => Got(JInt(n), rest)
  }

  /** The elements after an opening bracket. */
  function ParseArray(s: string): (r: Parsed<seq<Json>>)
    ensures r.Got? ==> |r.rest| < |s|
    decreases |s|, 2
  {
    if StartsWith(s, ']') then Got([], s[1..])
    else
      match ParseValue(s)
      case Fail => Fail
      case Got(e, rest) =>
        match ParseElements(rest)
        case Fail => Fail
        case Got(es, rest') => Got([e] + es, rest')
  }

  /** The members after an opening brace. */
  function ParseObject(s: string): (r: Parsed<seq<Field>>)
    ensures r.Got? ==> |r.rest| < |s|
    decreases |s|, 2
  {
    if StartsWith(s, '}') then Got([], s[1..])
    else
      match ParseField(s)
      case Fail => Fail
      case Got(f, rest) =>
        match ParseFields(rest)
        case Fail => Fail
        case Got(fs, rest') => Got([f] + fs, rest')
  }

  function ParseElements(s: string): (r: Parsed<seq<Json>>)
    ensures r.Got? ==> |r.rest| < |s|
    decreases |s|, 0
  {
    if StartsWith(s, ']') then Got([], s[1..])
    else if !StartsWith(s, ',') then Fail
    else
      match ParseValue(s[1..])
      case Fail => Fail
      case Got(e, rest) =>
        match ParseElements(rest)
        case Fail => Fail
        case Got(es, rest') => Got([e] + es, rest')
  }

  function ParseField(s: string): (r: Parsed<Field>)
    ensures r.Got? ==> |r.rest| < |s|
    decreases |s|, 1
  {
    match ParseString(s)
    case Fail => Fail
    case Got(key, rest) =>
      if !StartsWith(rest, ':') then Fail
      else
        match ParseValue(rest[1..])
        case Fail => Fail
        case Got(v, rest') => Got(Field(key, v), rest')
  }

  function ParseFields(s: string): (r: Parsed<seq<Field>>)
    ensures r.Got? ==> |r.rest| < |s|
    decreases |s|, 0
  {
    if StartsWith(s, '}') then Got([], s[1..])
    else if !StartsWith(s, ',') then Fail
    else
      match ParseField(s[1..])
      case Fail => Fail
      case Got(f, rest) =>
        match ParseFields(rest)
        case Fail => Fail
        case Got(fs, rest') => Got([f] + fs, rest')
  }

  /** A whole text is one value and nothing after it. */
  function Parse(s: string): Option<Json> {
    match ParseValue(s)
    case Got(j, "") => Some(j)
    case _ => None
  }

  // ---------------------------------------------------------------- the parser inverts the printer

  /** What may follow a value: nothing, a separator or a closing bracket. */
  predicate Stop(rest: string) {
    rest == "" || rest[0] == ',' || rest[0] == ']' || rest[0] == '}'
  }

  lemma {:induction false} PrintStarts(j: Json)
    ensures Print(j) != "" && Print(j)[0] != ']'
    ensures j.JInt? ==> Print(j)[0] == '-' || IsDigit(Print(j)[0])
  {
  }

  lemma {:induction false} ParsePrinted(j: Json, rest: string)
    requires Stop(rest)
    ensures ParseValue(Print(j) + rest) == Got(j, rest)
    decreases j, 1
  {
    match j
    case JNull => ParseLiteral(j, rest);
    case JBool(_) => ParseLiteral(j, rest);
    case JInt(n) => ParseIntText(n, rest);
    case JStr(s) => ParsePrintedString(s, rest);
    case JArr(es) => ParsePrintedArray(es, rest);
    case JObj(fs) => ParsePrintedObject(fs, rest);
  }

  lemma {:induction false} ParsePrintedArray(es: seq<Json>, rest: string)
    ensures ParseValue(Print(JArr(es)) + rest) == Got(JArr(es), rest)
    decreases es, 1
  {
    if es == [] {
      ParseArrayText("", [], "]" + rest, rest);
      assert Print(JArr(es)) + rest == "[" + "" + ("]" + rest);
    } else {
      var head, tail := Print(es[0]), PrintElements(es[1..]) + rest;
      ParsePrinted(es[0], tail);
      ParsePrintedElements(es[1..], rest);
      PrintStarts(es[0]);
      assert ParseArray(head + tail) == Got(es, rest) by { assert es == [es[0]] + es[1..]; }
      ParseArrayText(head, es, tail, rest);
      assert Print(JArr(es)) + rest == "[" + head + tail;
    }
  }

  lemma {:induction false} ParsePrintedObject(fs: seq<Field>, rest: string)
    ensures ParseValue(Print(JObj(fs)) + rest) == Got(JObj(fs), rest)
    decreases fs, 1
  {
    if fs == [] {
      ParseObjectText("", [], "}" + rest, rest);
      assert Print(JObj(fs)) + rest == "{" + "" + ("}" + rest);
    } else {
      var head, tail := PrintField(fs[0]), PrintFields(fs[1..]) + rest;
      ParsePrintedField(fs[0], tail);
      ParsePrintedFields(fs[1..], rest);
      assert ParseObject(head + tail) == Got(fs, rest) by { assert fs == [fs[0]] + fs[1..]; }
      ParseObjectText(head, fs, tail, rest);
      assert Print(JObj(fs)) + rest == "{" + head + tail;
    }
  }

  lemma {:induction false} ParseLiteral(j: Json, rest: string)
    requires j.JNull? || j.JBool?
    ensures ParseValue(Print(j) + rest) == Got(j, rest)
  {
    var word := Print(j);
    assert (word + rest)[|word|..] == rest;
  }

  lemma {:induction false} ParseIntText(n: int, rest: string)
    requires Stop(rest)
    ensures ParseValue(Print(JInt(n)) + rest) == Got(JInt(n), rest)
  {
    PrintStarts(JInt(n));
    ParsePrintedInt(n, rest);
  }

  lemma {:induction false} ParseArrayText(head: string, es: seq<Json>, tail: string, rest: string)
    requires ParseArray(head + tail) == Got(es, rest)
    ensures ParseValue("[" + head + tail) == Got(JArr(es), rest)
  {
    var text := "[" + head + tail;
    assert text[1..] == head + tail;
  }

  lemma {:induction false} ParseObjectText(head: string, fs: seq<Field>, tail: string, rest: string)
    requires ParseObject(head + tail) == Got(fs, rest)
    ensures ParseValue("{" + head + tail) == Got(JObj(fs), rest)
  {
    var text := "{" + head + tail;
    assert text[1..] == head + tail;
  }

  lemma {:induction false} ParsePrintedElements(es: seq<Json>, rest: string)
    ensures ParseElements(PrintElements(es) + rest) == Got(es, rest)
    decreases es, 0
  {
    var text := PrintElements(es) + rest;
    if es == [] {
      assert text[1..] == rest;
    } else {
      var tail := PrintElements(es[1..]) + rest;
      assert text[1..] == Print(es[0]) + tail;
      ParsePrinted(es[0], tail);
      ParsePrintedElements(es[1..], rest);
      assert es == [es[0]] + es[1..];
    }
  }

  lemma {:induction false} ParsePrintedField(f: Field, rest: string)
    requires Stop(rest)
    ensures ParseField(PrintField(f) + rest) == Got(f, rest)
    decreases f, 2
  {
    var tail := ":" + Print(f.value) + rest;
    assert PrintField(f) + rest == PrintString(f.key) + tail;
    ParsePrintedString(f.key, tail);
    assert tail[1..] == Print(f.value) + rest;
    ParsePrinted(f.value, rest);
  }

  lemma {:induction false} ParsePrintedFields(fs: seq<Field>, rest: string)
    ensures ParseFields(PrintFields(fs) + rest) == Got(fs, rest)
    decreases fs, 0
  {
    var text := PrintFields(fs) + rest;
    if fs == [] {
      assert text[1..] == rest;
    } else {
      var tail := PrintFields(fs[1..]) + rest;
      assert text[1..] == PrintField(fs[0]) + tail;
      ParsePrintedField(fs[0], tail);
      ParsePrintedFields(fs[1..], rest);
      assert fs == [fs[0]] + fs[1..];
    }
  }

  /** Every JSON value is recovered from its text. */
  lemma {:induction false} ParsePrint(j: Json)
    ensures Parse(Print(j)) == Some(j)
  {
    ParsePrinted(j, "");
    assert Print(j) + "" == Print(j);
  }

  /** And nothing may follow an object. */
  lemma NothingFollows(fs: seq<Field>, more: string)
    ensures Parse(Print(JObj(fs)) + more) == if more == "" then Some(JObj(fs)) else None
  {
    var text := Print(JObj(fs)) + more;
    ParsePrintedObject(fs, more);
    assert text[0] == '{';
  }
}
