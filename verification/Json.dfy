/** The JSON of the wrapper's protocol: how texts are quoted, and what a line read back means.

    `ReadValue` and its companions say what the reader accepts, character by character and
    with no decoding. `JsonParser` holds the reader itself, which walks the bytes by index,
    slices them and decodes the slices; its contracts tie it to those functions. `JsonDoc` has a
    JSON text with every choice a writer has (white space, escapes, digit case), and says that
    reading what such a text prints gives back what it means. */
module Json {
  import opened Basics
  import opened Utf8

  datatype Json =
    | Null
    | Bool(b: bool)
    | Number(n: real)
    | Text(text: string)
    | List(items: seq<Json>)
    | Object(fields: map<string, Json>)
  {
    function Field(name: string): Option<Json> {
      if Object? && name in fields then Some(fields[name]) else None
    }

    function AsText(): Option<string> {
      if Text? then Some(text) else None
    }

    /** The number as an integer, for the fields that count or name something. */
    function Integer(): Option<int> {
      if Number? && n == n.Floor as real && -9.0e15 < n < 9.0e15 then Some(n.Floor) else None
    }
  }

  /** The integers are the whole numbers below 9.0e15 either way. */
  lemma IntegerExactly(v: Json, i: int)
    ensures v.Integer() == Some(i) <==> v == Number(i as real) && -9_000_000_000_000_000 < i < 9_000_000_000_000_000
  {
    assert (i as real).Floor == i;
  }

  /** Deep enough for any answer the protocol has. */
  const MOST_DEPTH := 16

  /** `str::parse::<f64>` kept where finite: code of Rust's own library, so a parameter. */
  type NumberReader = string -> Option<real>

  // ---------------------------------------------------------------- writing

  const HEX: string := "0123456789abcdef"

  /** One character inside a string literal. */
  function QuotedChar(c: char): string {
    if c == '"' then "\\\""
    else if c == '\\' then "\\\\"
    else if c == '\U{0008}' then "\\b"
    else if c == '\U{000C}' then "\\f"
    else if c == '\n' then "\\n"
    else if c == '\r' then "\\r"
    else if c == '\t' then "\\t"
    else if c as int < 0x20 then "\\u00" + [HEX[c as int / 16], HEX[c as int % 16]]
    else [c]
  }

  function QuotedChars(text: string): string {
    Spread(QuotedChar, text)
  }

  function Quoted(text: string): string {
    "\"" + QuotedChars(text) + "\""
  }

  method Quote(text: string, before: string) returns (out: string)
    ensures out == before + Quoted(text)
  {
    out := before + "\"";
    for i := 0 to |text|
      invariant out == before + "\"" + Spread(QuotedChar, text[..i])
    {
      SpreadStep(QuotedChar, before + "\"", text, i);
      out := out + QuotedChar(text[i]);
    }
    assert text[..|text|] == text;
    out := out + "\"";
  }

  // ---------------------------------------------------------------- what the reader accepts

  /** What a reader found and the text it left, or a refusal. */
  datatype Reading<+T> = Got(value: T, rest: string) | Refused

  predicate IsSpace(c: char) {
    c == ' ' || c == '\t' || c == '\n' || c == '\r'
  }

  function SkipSpace(s: string): (t: string)
    ensures |t| <= |s|
  {
    if s != "" && IsSpace(s[0]) then SkipSpace(s[1..]) else s
  }

  function ReadLiteral(s: string, word: string, value: Json): Reading<Json> {
    if word <= s then Got(value, s[|word|..]) else Refused
  }

  predicate IsNumberChar(c: char) {
    c == '-' || c == '+' || c == '.' || c == 'e' || c == 'E' || '0' <= c <= '9'
  }

  /** How many characters at the front could belong to a number. */
  function NumberRun(s: string): (k: nat)
    ensures k <= |s|
  {
    if s != "" && IsNumberChar(s[0]) then 1 + NumberRun(s[1..]) else 0
  }

  function ReadNumber(numberOf: NumberReader, s: string): (r: Reading<Json>)
    ensures r.Got? ==> |r.rest| < |s|
  {
    var k := NumberRun(s);
    if k == 0 then Refused
    else match numberOf(s[..k])
      case None => Refused
      case Some(n) => Got(Number(n), s[k..])
  }

  function HexDigit(c: char): Option<nat> {
    if '0' <= c <= '9' then Some(c as int - '0' as int)
    else if 'a' <= c <= 'f' then Some(c as int - 'a' as int + 10)
    else if 'A' <= c <= 'F' then Some(c as int - 'A' as int + 10)
    else None
  }

  function HexValue(s: string): (r: Option<nat>)
    ensures r.Some? ==> forall i | 0 <= i < |s| :: (s[i] as int) < 0x80
  {
    if s == "" then Some(0)
    else match (HexValue(s[..|s| - 1]), HexDigit(s[|s| - 1]))
      case (Some(high), Some(low)) => Some(high * 16 + low)
      case _ => None
  }

  /** `u32::from_str_radix(text, 16)` on at most four characters: a leading plus is taken. */
  function FromHex(s: string): Option<nat> {
    if s == "" then None
    else if s[0] == '+' then (if |s| == 1 then None else HexValue(s[1..]))
    else HexValue(s)
  }

  function ReadHex4(s: string): (r: Reading<nat>)
    ensures r.Got? ==> |r.rest| == |s| - 4
  {
    if |s| >= 4 && FromHex(s[..4]).Some? then Got(FromHex(s[..4]).value, s[4..]) else Refused
  }

  predicate IsScalar(n: int) {
    0 <= n < 0xD800 || 0xE000 <= n < 0x110000
  }

  function CharOf(n: nat, rest: string): Reading<char> {
    if IsScalar(n) then Got(n as char, rest) else Refused
  }

  /** The scalar that four hexadecimal digits stand for, or eight in two escapes for one past U+FFFF. */
  function ReadUnicode(s: string): (r: Reading<char>)
    ensures r.Got? ==> |r.rest| < |s|
  {
    match ReadHex4(s)
    case Refused => Refused
    case Got(first, rest) =>
      if 0xD800 <= first < 0xDC00 then
        if !("\\u" <= rest) then Refused
        else match ReadHex4(rest[2..])
          case Refused => Refused
          case Got(second, rest2) =>
            if 0xDC00 <= second < 0xE000
            then CharOf(0x10000 + (first - 0xD800) * 1024 + (second - 0xDC00), rest2)
            else Refused
      else CharOf(first, rest)
  }

  predicate EndsRun(c: char) {
    c == '"' || c == '\\'
  }

  /** How many characters come before the next quote or backslash, or None where a control
      character or the end of the text comes first. */
  function PlainRun(s: string): (k: Option<nat>)
    ensures k.Some? ==> k.value < |s| && EndsRun(s[k.value])
  {
    if s == "" then None
    else if EndsRun(s[0]) then Some(0)
    else if s[0] as int < 0x20 then None
    else match PlainRun(s[1..])
      case None => None
      case Some(k) => Some(k + 1)
  }

  function ShortEscape(c: char): Option<char> {
    if c == '"' || c == '\\' || c == '/' then Some(c)
    else if c == 'b' then Some('\U{0008}')
    else if c == 'f' then Some('\U{000C}')
    else if c == 'n' then Some('\n')
    else if c == 'r' then Some('\r')
    else if c == 't' then Some('\t')
    else None
  }

  /** The character an escape stands for, read from just after its backslash. */
  function ReadEscape(s: string): (r: Reading<char>)
    ensures r.Got? ==> |r.rest| < |s|
  {
    if s == "" then Refused
    else if s[0] == 'u' then ReadUnicode(s[1..])
    else match ShortEscape(s[0])
      case None => Refused
      case Some(c) => Got(c, s[1..])
  }

  /** The rest of a string after its opening quote, `out` being what was read of it already. */
  function ReadString(s: string, out: string): (r: Reading<string>)
    ensures r.Got? ==> |r.rest| < |s|
    decreases |s|
  {
    match PlainRun(s)
    case None => Refused
    case Some(k) =>
      if s[k] == '"' then Got(out + s[..k], s[k + 1..])
      else match ReadEscape(s[k + 1..])
        case Refused => Refused
        case Got(c, rest) => ReadString(rest, out + s[..k] + [c])
  }

  function ReadValue(numberOf: NumberReader, s: string, depth: nat): (r: Reading<Json>)
    ensures r.Got? ==> |r.rest| < |s|
    decreases |s|, 1
  {
    var t := SkipSpace(s);
    if t == "" then Refused
    else if t[0] == 'n' then ReadLiteral(t, "null", Null)
    else if t[0] == 't' then ReadLiteral(t, "true", Bool(true))
    else if t[0] == 'f' then ReadLiteral(t, "false", Bool(false))
    else if t[0] == '"' then
      match ReadString(t[1..], "")
      case Refused => Refused
      case Got(text, rest) => Got(Text(text), rest)
    else if t[0] == '[' then
      if depth >= MOST_DEPTH then Refused else ReadList(numberOf, t[1..], depth + 1)
    else if t[0] == '{' then
      if depth >= MOST_DEPTH then Refused else ReadObject(numberOf, t[1..], depth + 1)
    else ReadNumber(numberOf, t)
  }

  function ReadList(numberOf: NumberReader, s: string, depth: nat): (r: Reading<Json>)
    ensures r.Got? ==> |r.rest| < |s|
    decreases |s|, 4
  {
    var t := SkipSpace(s);
    if t == "" then Refused
    else if t[0] == ']' then Got(List([]), t[1..])
    else ReadItems(numberOf, t, depth, [])
  }

  function ReadItems(numberOf: NumberReader, s: string, depth: nat, items: seq<Json>): (r: Reading<Json>)
    ensures r.Got? ==> |r.rest| < |s|
    decreases |s|, 2
  {
    match ReadValue(numberOf, s, depth)
    case Refused => Refused
    case Got(value, rest) =>
      var t := SkipSpace(rest);
      if t == "" then Refused
      else if t[0] == ',' then ReadItems(numberOf, t[1..], depth, items + [value])
      else if t[0] == ']' then Got(List(items + [value]), t[1..])
      else Refused
  }

  function ReadObject(numberOf: NumberReader, s: string, depth: nat): (r: Reading<Json>)
    ensures r.Got? ==> |r.rest| < |s|
    decreases |s|, 4
  {
    var t := SkipSpace(s);
    if t == "" then Refused
    else if t[0] == '}' then Got(Object(map[]), t[1..])
    else ReadFields(numberOf, t, depth, map[])
  }

  /** The name of a member and the colon after it. */
  function ReadName(s: string): (r: Reading<string>)
    ensures r.Got? ==> |r.rest| < |s|
  {
    var t := SkipSpace(s);
    if t == "" || t[0] != '"' then Refused
    else match ReadString(t[1..], "")
      case Refused => Refused
      case Got(name, rest) =>
        var u := SkipSpace(rest);
        if u == "" || u[0] != ':' then Refused else Got(name, u[1..])
  }

  function ReadMember(numberOf: NumberReader, s: string, depth: nat): (r: Reading<(string, Json)>)
    ensures r.Got? ==> |r.rest| < |s|
    decreases |s|, 2
  {
    match ReadName(s)
    case Refused => Refused
    case Got(name, afterName) =>
      match ReadValue(numberOf, afterName, depth)
      case Refused => Refused
      case Got(value, rest) => Got((name, value), rest)
  }

  function ReadFields(numberOf: NumberReader, s: string, depth: nat, fields: map<string, Json>): (r: Reading<Json>)
    ensures r.Got? ==> |r.rest| < |s|
    decreases |s|, 3
  {
    match ReadMember(numberOf, s, depth)
    case Refused => Refused
    case Got((name, value), rest) =>
      var t := SkipSpace(rest);
      if t == "" then Refused
      else if t[0] == ',' then ReadFields(numberOf, t[1..], depth, fields[name := value])
      else if t[0] == '}' then Got(Object(fields[name := value]), t[1..])
      else Refused
  }

  /** The value of a whole text: one value, with nothing after it but white space. */
  function Parsed(numberOf: NumberReader, text: string): Option<Json> {
    match ReadValue(numberOf, text, 0)
    case Refused => None
    case Got(value, rest) => if SkipSpace(rest) == "" then Some(value) else None
  }
}
