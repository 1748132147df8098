/** JSON texts with every choice a writer has: the white space in each place it is allowed and
    the spelling of each character (section 2 to 7 of RFC 8259). What such a text prints, the
    reader of `Json` reads back as what the text means. */
module JsonDoc {
  import opened Basics
  import opened Json

  /** One character of a string and how it is spelled. */
  datatype Spelled =
    | Plain(c: char)
    | Short(c: char, mark: char)
    | Unit(c: char, digits: string)
    | Pair(c: char, high: string, low: string)

  predicate LegalSpelled(s: Spelled) {
    var n := s.c as int;
    match s
    case Plain(c) => n >= 0x20 && !EndsRun(c)
    case Short(c, mark) => ShortEscape(mark) == Some(c)
    case Unit(c, digits) => |digits| == 4 && HexValue(digits) == Some(n)
    case Pair(c, high, low) =>
      && n >= 0x10000 && |high| == 4 && |low| == 4
      && HexValue(high) == Some(0xD800 + (n - 0x10000) / 1024)
      && HexValue(low) == Some(0xDC00 + (n - 0x10000) % 1024)
  }

  /** What follows the backslash of an escape. */
  function EscapeBody(s: Spelled): string
    requires !s.Plain?
  {
    match s
    case Short(_, mark) => [mark]
    case Unit(_, digits) => "u" + digits
    case Pair(_, high, low) => "u" + (high + ("\\u" + low))
  }

  function PrintSpelled(s: Spelled): string {
    if s.Plain? then [s.c] else "\\" + EscapeBody(s)
  }

  predicate Legal(spelling: seq<Spelled>) {
    forall s | s in spelling :: LegalSpelled(s)
  }

  function Letters(spelling: seq<Spelled>): string {
    if spelling == [] then "" else [spelling[0].c] + Letters(spelling[1..])
  }

  predicate Blank(s: string) {
    forall c | c in s :: IsSpace(c)
  }

  datatype Doc =
    | NullDoc
    | BoolDoc(b: bool)
    | NumberDoc(n: int)
    | TextDoc(spelling: seq<Spelled>)
    | EmptyList(blank: string)
    | ListDoc(items: Items)
    | EmptyObject(blank: string)
    | ObjectDoc(members: Members)
  datatype Padded = Padded(before: string, doc: Doc, after: string)
  datatype Items = LastItem(item: Padded) | NextItem(item: Padded, more: Items)
  datatype Name = Name(before: string, spelling: seq<Spelled>, after: string)
  datatype Members =
    | LastMember(name: Name, item: Padded)
    | NextMember(name: Name, item: Padded, more: Members)

  function Digits(n: nat): string
    ensures |Digits(n)| > 0
    ensures forall c | c in Digits(n) :: '0' <= c <= '9'
  {
    if n < 10 then [HEX[n]] else Digits(n / 10) + [HEX[n % 10]]
  }

  function Decimal(n: int): string {
    if n < 0 then "-" + Digits(-n) else Digits(n)
  }

  /** What is asked of the number reader: a whole number written in decimal is read exactly. */
  ghost predicate WholeNumbers(numberOf: NumberReader) {
    forall n: int | -9_000_000_000_000_000 < n < 9_000_000_000_000_000 ::
      numberOf(Decimal(n)) == Some(n as real)
  }

  /** The number a decimal stands for. */
  function DecimalValue(s: string): int {
    if s != "" && s[0] == '-' then -DigitsValue(s[1..]) else DigitsValue(s)
  }

  function DigitsValue(s: string): int {
    if s == "" then 0 else DigitsValue(s[..|s| - 1]) * 10 + (s[|s| - 1] as int - '0' as int)
  }

  lemma {:induction false} DigitsExact(n: nat)
    ensures DigitsValue(Digits(n)) == n
  {
    if n < 10 {
      assert [HEX[n]][..0] == "" && HEX[n] as int == '0' as int + n;
    } else {
      DigitsExact(n / 10);
      assert HEX[n % 10] as int == '0' as int + n % 10;
      assert Digits(n)[..|Digits(n)| - 1] == Digits(n / 10);
    }
  }

  /** No two whole numbers are written alike in decimal. */
  lemma DecimalExact(n: int)
    ensures DecimalValue(Decimal(n)) == n
  {
    if n < 0 {
      DigitsExact(-n);
      assert Decimal(n)[1..] == Digits(-n);
    } else {
      DigitsExact(n);
      assert Decimal(n)[0] in Digits(n);
    }
  }

  /** There is such a reader. */
  lemma WholeNumbersMet() returns (numberOf: NumberReader)
    ensures WholeNumbers(numberOf)
  {
    numberOf := (text: string) => Some(DecimalValue(text) as real);
    forall n: int ensures numberOf(Decimal(n)) == Some(n as real) {
      DecimalExact(n);
    }
  }

  function Print(d: Doc): string {
    match d
    case NullDoc => "null"
    case BoolDoc(b) => if b then "true" else "false"
    case NumberDoc(n) => Decimal(n)
    case TextDoc(spelling) => "\"" + Spread(PrintSpelled, spelling) + "\""
    case EmptyList(blank) => "[" + blank + "]"
    case ListDoc(items) => "[" + PrintItems(items)
    case EmptyObject(blank) => "{" + blank + "}"
    case ObjectDoc(members) => "{" + PrintMembers(members)
  }

  function PrintPadded(p: Padded): string {
    p.before + (Print(p.doc) + p.after)
  }

  function PrintItems(items: Items): string {
    match items
    case LastItem(item) => PrintPadded(item) + "]"
    case NextItem(item, more) => PrintPadded(item) + ("," + PrintItems(more))
  }

  function PrintName(name: Name): string {
    name.before + ("\"" + (Spread(PrintSpelled, name.spelling) + ("\"" + (name.after + ":"))))
  }

  function PrintMembers(members: Members): string {
    match members
    case LastMember(name, item) => PrintName(name) + (PrintPadded(item) + "}")
    case NextMember(name, item, more) => PrintName(name) + (PrintPadded(item) + ("," + PrintMembers(more)))
  }

  function Meaning(d: Doc): Json {
    match d
    case NullDoc => Null
    case BoolDoc(b) => Bool(b)
    case NumberDoc(n) => Number(n as real)
    case TextDoc(spelling) => Text(Letters(spelling))
    case EmptyList(_) => List([])
    case ListDoc(items) => List(ItemsOf(items))
    case EmptyObject(_) => Object(map[])
    case ObjectDoc(members) => Object(FieldsOf(members, map[]))
  }

  function ItemsOf(items: Items): seq<Json> {
    match items
    case LastItem(item) => [Meaning(item.doc)]
    case NextItem(item, more) => [Meaning(item.doc)] + ItemsOf(more)
  }

  /** The last member of a name wins, as `insert` into a map has it. */
  function FieldsOf(members: Members, fields: map<string, Json>): map<string, Json> {
    match members
    case LastMember(name, item) => fields[Letters(name.spelling) := Meaning(item.doc)]
    case NextMember(name, item, more) => FieldsOf(more, fields[Letters(name.spelling) := Meaning(item.doc)])
  }

  function Max(a: nat, b: nat): nat {
    if a < b then b else a
  }

  function Height(d: Doc): nat {
    match d
    case ListDoc(items) => 1 + ItemsHeight(items)
    case ObjectDoc(members) => 1 + MembersHeight(members)
    case EmptyList(_) => 1
    case EmptyObject(_) => 1
    case _ => 0
  }

  function ItemsHeight(items: Items): nat {
    match items
    case LastItem(item) => Height(item.doc)
    case NextItem(item, more) => Max(Height(item.doc), ItemsHeight(more))
  }

  function MembersHeight(members: Members): nat {
    match members
    case LastMember(_, item) => Height(item.doc)
    case NextMember(_, item, more) => Max(Height(item.doc), MembersHeight(more))
  }

  predicate LegalDoc(d: Doc) {
    match d
    case NullDoc => true
    case BoolDoc(_) => true
    case NumberDoc(n) => -9_000_000_000_000_000 < n < 9_000_000_000_000_000
    case TextDoc(spelling) => Legal(spelling)
    case EmptyList(blank) => Blank(blank)
    case ListDoc(items) => LegalItems(items)
    case EmptyObject(blank) => Blank(blank)
    case ObjectDoc(members) => LegalMembers(members)
  }

  predicate LegalPadded(p: Padded) {
    Blank(p.before) && LegalDoc(p.doc) && Blank(p.after)
  }

  predicate LegalItems(items: Items) {
    LegalPadded(items.item) && (items.NextItem? ==> LegalItems(items.more))
  }

  predicate LegalName(name: Name) {
    Blank(name.before) && Legal(name.spelling) && Blank(name.after)
  }

  predicate LegalMembers(members: Members) {
    && LegalName(members.name)
    && LegalPadded(members.item)
    && (members.NextMember? ==> LegalMembers(members.more))
  }

  // ---------------------------------------------------------------- strings

  lemma ReadHexDigits(digits: string, t: string)
    requires |digits| == 4 && HexValue(digits).Some?
    ensures ReadHex4(digits + t) == Got(HexValue(digits).value, t)
  {
    assert (digits + t)[..4] == digits && (digits + t)[4..] == t;
    if digits[0] == '+' {
      NoPlus(digits, 0);
    }
  }

  lemma {:induction false} NoPlus(s: string, i: nat)
    requires i < |s| && HexValue(s).Some?
    ensures HexDigit(s[i]).Some?
  {
    if i < |s| - 1 {
      NoPlus(s[..|s| - 1], i);
    }
  }

  lemma ReadUnit(c: char, digits: string, t: string)
    requires |digits| == 4 && HexValue(digits) == Some(c as int)
    ensures ReadUnicode(digits + t) == Got(c, t)
  {
    ReadHexDigits(digits, t);
  }

  lemma ReadPair(c: char, high: string, low: string, t: string)
    requires LegalSpelled(Pair(c, high, low))
    ensures ReadUnicode(high + ("\\u" + (low + t))) == Got(c, t)
  {
    ReadHexDigits(high, "\\u" + (low + t));
    ReadHexDigits(low, t);
    assert ("\\u" + (low + t))[2..] == low + t;
  }

  lemma ReadPlain(c: char, t: string, out: string)
    requires LegalSpelled(Plain(c))
    ensures ReadString([c] + t, out) == ReadString(t, out + [c])
  {
    var u := [c] + t;
    assert u[1..] == t;
    if PlainRun(t).Some? {
      var k := PlainRun(t).value;
      assert out + u[..k + 1] == out + [c] + t[..k];
      assert u[k + 1] == t[k] && u[k + 2..] == t[k + 1..];
    }
  }

  lemma ReadEscaped(body: string, c: char, t: string, out: string)
    requires ReadEscape(body + t) == Got(c, t)
    ensures ReadString("\\" + body + t, out) == ReadString(t, out + [c])
  {
    var u := "\\" + body + t;
    assert PlainRun(u) == Some(0);
    assert u[1..] == body + t && u[..0] == "" && out + "" == out;
  }

  lemma ReadUnicodeEscape(body: string, c: char, t: string)
    requires ReadUnicode(body + t) == Got(c, t)
    ensures ReadEscape("u" + body + t) == Got(c, t)
  {
    assert ("u" + body + t)[1..] == body + t;
  }

  lemma ReadBody(s: Spelled, t: string)
    requires LegalSpelled(s) && !s.Plain?
    ensures ReadEscape(EscapeBody(s) + t) == Got(s.c, t)
  {
    match s
    case Short(c, mark) =>
      assert ([mark] + t)[1..] == t;
    case Unit(c, digits) =>
      ReadUnit(c, digits, t);
      ReadUnicodeEscape(digits, c, t);
    case Pair(c, high, low) =>
      assert high + ("\\u" + low) + t == high + ("\\u" + (low + t));
      ReadPair(c, high, low, t);
      ReadUnicodeEscape(high + ("\\u" + low), c, t);
  }

  /** One spelled character in front of the rest of a string adds exactly that character. */
  lemma ReadSpelled(s: Spelled, t: string, out: string)
    requires LegalSpelled(s)
    ensures ReadString(PrintSpelled(s) + t, out) == ReadString(t, out + [s.c])
  {
    if s.Plain? {
      ReadPlain(s.c, t, out);
    } else {
      ReadBody(s, t);
      ReadEscaped(EscapeBody(s), s.c, t, out);
    }
  }

  lemma ReadClose(rest: string, out: string)
    ensures ReadString("\"" + rest, out) == Got(out, rest)
  {
    var t := "\"" + rest;
    assert PlainRun(t) == Some(0) && out + t[..0] == out && t[1..] == rest;
  }

  lemma {:induction false} ReadSpelling(spelling: seq<Spelled>, rest: string, out: string)
    requires Legal(spelling)
    ensures ReadString(Spread(PrintSpelled, spelling) + ("\"" + rest), out) == Got(out + Letters(spelling), rest)
  {
    var t := "\"" + rest;
    if spelling == [] {
      assert Spread(PrintSpelled, spelling) + t == t;
      ReadClose(rest, out);
      assert out + Letters(spelling) == out;
    } else {
      var first, more := spelling[0], spelling[1..];
      ReadSpelled(first, Spread(PrintSpelled, more) + t, out);
      SpreadFirst(PrintSpelled, spelling, t);
      ReadSpelling(more, rest, out + [first.c]);
      Associate(out, [first.c], Letters(more));
    }
  }

  // ---------------------------------------------------------------- white space and numbers

  lemma {:induction false} SkipBlank(blank: string, t: string)
    requires Blank(blank)
    ensures SkipSpace(blank + t) == SkipSpace(t)
  {
    if blank == "" {
      assert blank + t == t;
    } else {
      assert (blank + t)[1..] == blank[1..] + t;
      SkipBlank(blank[1..], t);
    }
  }

  lemma {:induction false} SkipTwice(s: string)
    ensures SkipSpace(SkipSpace(s)) == SkipSpace(s)
  {
    if s != "" && IsSpace(s[0]) {
      SkipTwice(s[1..]);
    }
  }

  /** What follows a value: nothing that could still belong to a number. */
  predicate Clear(rest: string) {
    rest == "" || !IsNumberChar(rest[0])
  }

  lemma ClearAfter(blank: string, t: string)
    requires Blank(blank) && Clear(t)
    ensures Clear(blank + t)
  {
    if blank != "" {
      assert blank[0] in blank;
    }
  }

  lemma {:induction false} NumberRunOf(s: string, rest: string)
    requires (forall c | c in s :: IsNumberChar(c)) && Clear(rest)
    ensures NumberRun(s + rest) == |s|
  {
    if s == "" {
      assert s + rest == rest;
    } else {
      assert (s + rest)[1..] == s[1..] + rest;
      NumberRunOf(s[1..], rest);
    }
  }

  lemma ReadDecimal(numberOf: NumberReader, n: int, rest: string)
    requires WholeNumbers(numberOf) && Clear(rest)
    requires -9_000_000_000_000_000 < n < 9_000_000_000_000_000
    ensures ReadNumber(numberOf, Decimal(n) + rest) == Got(Number(n as real), rest)
  {
    NumberRunOf(Decimal(n), rest);
    assert (Decimal(n) + rest)[..|Decimal(n)|] == Decimal(n);
    assert (Decimal(n) + rest)[|Decimal(n)|..] == rest;
  }

  // ---------------------------------------------------------------- documents

  /** A value never starts with a space or with anything that could end or part a container. */
  lemma PrintStart(d: Doc)
    ensures Print(d) != "" && !IsSpace(Print(d)[0])
    ensures Print(d)[0] != ']' && Print(d)[0] != '}' && Print(d)[0] != ','
  {
    if d.NumberDoc? {
      assert d.n >= 0 ==> Digits(d.n)[0] in Digits(d.n);
    }
  }

  lemma SkipToValue(before: string, d: Doc, rest: string)
    requires Blank(before)
    ensures SkipSpace(before + (Print(d) + rest)) == Print(d) + rest
  {
    PrintStart(d);
    SkipBlank(before, Print(d) + rest);
  }

  lemma SkipToMark(blank: string, mark: char, rest: string)
    requires Blank(blank) && !IsSpace(mark)
    ensures SkipSpace(blank + ([mark] + rest)) == [mark] + rest && ([mark] + rest)[1..] == rest
  {
    SkipBlank(blank, [mark] + rest);
  }

  lemma {:induction false} RoundTripValue(numberOf: NumberReader, d: Doc, before: string, rest: string, depth: nat)
    requires WholeNumbers(numberOf) && LegalDoc(d) && Blank(before) && Clear(rest)
    requires depth + Height(d) <= MOST_DEPTH
    ensures ReadValue(numberOf, before + (Print(d) + rest), depth) == Got(Meaning(d), rest)
    decreases d, 1
  {
    SkipToValue(before, d, rest);
    RoundTripBare(numberOf, d, rest, depth);
    SkipTwice(before + (Print(d) + rest));
  }

  /** The same with no space in front, case by case. */
  lemma {:induction false} RoundTripBare(numberOf: NumberReader, d: Doc, rest: string, depth: nat)
    requires WholeNumbers(numberOf) && LegalDoc(d) && Clear(rest)
    requires depth + Height(d) <= MOST_DEPTH
    ensures ReadValue(numberOf, Print(d) + rest, depth) == Got(Meaning(d), rest)
    decreases d, 0
  {
    match d
    case ListDoc(items) =>
      RoundTripList(numberOf, items, rest, depth + 1);
      OpenItems(numberOf, items, rest, depth);
    case ObjectDoc(members) =>
      RoundTripObject(numberOf, members, rest, depth + 1);
      OpenMembers(numberOf, members, rest, depth);
    case EmptyList(blank) => RoundTripEmptyList(numberOf, blank, rest, depth);
    case EmptyObject(blank) => RoundTripEmptyObject(numberOf, blank, rest, depth);
    case _ => RoundTripLeaf(numberOf, d, rest, depth);
  }

  lemma OpenItems(numberOf: NumberReader, items: Items, rest: string, depth: nat)
    requires depth < MOST_DEPTH
    ensures ReadValue(numberOf, "[" + PrintItems(items) + rest, depth)
         == ReadList(numberOf, PrintItems(items) + rest, depth + 1)
  {
    ReadOpenedList(numberOf, PrintItems(items) + rest, depth);
    Associate("[", PrintItems(items), rest);
  }

  lemma OpenMembers(numberOf: NumberReader, members: Members, rest: string, depth: nat)
    requires depth < MOST_DEPTH
    ensures ReadValue(numberOf, "{" + PrintMembers(members) + rest, depth)
         == ReadObject(numberOf, PrintMembers(members) + rest, depth + 1)
  {
    ReadOpenedObject(numberOf, PrintMembers(members) + rest, depth);
    Associate("{", PrintMembers(members), rest);
  }

  lemma RoundTripLeaf(numberOf: NumberReader, d: Doc, rest: string, depth: nat)
    requires WholeNumbers(numberOf) && LegalDoc(d) && Clear(rest)
    requires d.NullDoc? || d.BoolDoc? || d.NumberDoc? || d.TextDoc?
    ensures ReadValue(numberOf, Print(d) + rest, depth) == Got(Meaning(d), rest)
  {
    match d
    case NullDoc => ReadWord(numberOf, "null", Null, rest, depth);
    case BoolDoc(b) => ReadWord(numberOf, Print(d), Bool(b), rest, depth);
    case NumberDoc(n) => RoundTripNumber(numberOf, n, rest, depth);
    case TextDoc(spelling) => RoundTripText(numberOf, spelling, rest, depth);
  }

  lemma RoundTripNumber(numberOf: NumberReader, n: int, rest: string, depth: nat)
    requires WholeNumbers(numberOf) && Clear(rest)
    requires -9_000_000_000_000_000 < n < 9_000_000_000_000_000
    ensures ReadValue(numberOf, Decimal(n) + rest, depth) == Got(Number(n as real), rest)
  {
    ReadDecimal(numberOf, n, rest);
    assert n >= 0 ==> Digits(n)[0] in Digits(n);
    var t := Decimal(n) + rest;
    assert t[0] == Decimal(n)[0] && SkipSpace(t) == t;
  }

  lemma RoundTripText(numberOf: NumberReader, spelling: seq<Spelled>, rest: string, depth: nat)
    requires Legal(spelling)
    ensures ReadValue(numberOf, Print(TextDoc(spelling)) + rest, depth) == Got(Text(Letters(spelling)), rest)
  {
    var letters := Spread(PrintSpelled, spelling);
    assert Print(TextDoc(spelling)) + rest == "\"" + (letters + ("\"" + rest));
    ReadOpenedText(numberOf, letters + ("\"" + rest), depth);
    ReadSpelling(spelling, rest, "");
    assert "" + Letters(spelling) == Letters(spelling);
  }

  lemma RoundTripEmptyList(numberOf: NumberReader, blank: string, rest: string, depth: nat)
    requires Blank(blank) && depth < MOST_DEPTH
    ensures ReadValue(numberOf, "[" + blank + "]" + rest, depth) == Got(List([]), rest)
  {
    ReadOpenedList(numberOf, blank + ("]" + rest), depth);
    assert "[" + blank + "]" + rest == "[" + (blank + ("]" + rest));
    SkipToMark(blank, ']', rest);
  }

  lemma RoundTripEmptyObject(numberOf: NumberReader, blank: string, rest: string, depth: nat)
    requires Blank(blank) && depth < MOST_DEPTH
    ensures ReadValue(numberOf, "{" + blank + "}" + rest, depth) == Got(Object(map[]), rest)
  {
    ReadOpenedObject(numberOf, blank + ("}" + rest), depth);
    assert "{" + blank + "}" + rest == "{" + (blank + ("}" + rest));
    SkipToMark(blank, '}', rest);
  }

  lemma ReadWord(numberOf: NumberReader, word: string, value: Json, rest: string, depth: nat)
    requires (word, value) in {("null", Null), ("true", Bool(true)), ("false", Bool(false))}
    ensures ReadValue(numberOf, word + rest, depth) == Got(value, rest)
  {
    var t := word + rest;
    assert t[0] == word[0] && word <= t && t[|word|..] == rest;
  }

  /** What each opening character leads to. */
  lemma ReadOpenedText(numberOf: NumberReader, body: string, depth: nat)
    ensures ReadValue(numberOf, "\"" + body, depth) == match ReadString(body, "")
      case Refused => Refused
      case Got(text, rest) => Got(Text(text), rest)
  {
    assert ("\"" + body)[1..] == body;
  }

  lemma ReadOpenedList(numberOf: NumberReader, body: string, depth: nat)
    requires depth < MOST_DEPTH
    ensures ReadValue(numberOf, "[" + body, depth) == ReadList(numberOf, body, depth + 1)
  {
    assert ("[" + body)[1..] == body;
  }

  lemma ReadOpenedObject(numberOf: NumberReader, body: string, depth: nat)
    requires depth < MOST_DEPTH
    ensures ReadValue(numberOf, "{" + body, depth) == ReadObject(numberOf, body, depth + 1)
  {
    assert ("{" + body)[1..] == body;
  }

  /** Leading space changes nothing about what is read. */
  lemma SkipFirst(numberOf: NumberReader, s: string, depth: nat)
    ensures ReadValue(numberOf, SkipSpace(s), depth) == ReadValue(numberOf, s, depth)
    ensures ReadName(SkipSpace(s)) == ReadName(s)
  {
    SkipTwice(s);
  }

  lemma {:induction false} RoundTripPadded(numberOf: NumberReader, p: Padded, rest: string, depth: nat)
    requires WholeNumbers(numberOf) && LegalPadded(p) && Clear(rest)
    requires depth + Height(p.doc) <= MOST_DEPTH
    ensures ReadValue(numberOf, PrintPadded(p) + rest, depth) == Got(Meaning(p.doc), p.after + rest)
    decreases p, 2
  {
    ClearAfter(p.after, rest);
    RoundTripValue(numberOf, p.doc, p.before, p.after + rest, depth);
    assert PrintPadded(p) + rest == p.before + (Print(p.doc) + (p.after + rest));
  }

  lemma {:induction false} RoundTripItems(
    numberOf: NumberReader, items: Items, rest: string, depth: nat, known: seq<Json>)
    requires WholeNumbers(numberOf) && LegalItems(items)
    requires depth + ItemsHeight(items) <= MOST_DEPTH
    ensures ReadItems(numberOf, PrintItems(items) + rest, depth, known) == Got(List(known + ItemsOf(items)), rest)
    decreases items, 3
  {
    var p := items.item;
    match items
    case LastItem(_) =>
      RoundTripPadded(numberOf, p, "]" + rest, depth);
      Associate(PrintPadded(p), "]", rest);
      SkipToMark(p.after, ']', rest);
    case NextItem(_, more) =>
      RoundTripPadded(numberOf, p, "," + (PrintItems(more) + rest), depth);
      Regroup(PrintPadded(p), ",", PrintItems(more), rest);
      SkipToMark(p.after, ',', PrintItems(more) + rest);
      RoundTripItems(numberOf, more, rest, depth, known + [Meaning(p.doc)]);
      assert known + [Meaning(p.doc)] + ItemsOf(more) == known + ItemsOf(items);
  }

  lemma {:induction false} RoundTripList(numberOf: NumberReader, items: Items, rest: string, depth: nat)
    requires WholeNumbers(numberOf) && LegalItems(items)
    requires depth + ItemsHeight(items) <= MOST_DEPTH
    ensures ReadList(numberOf, PrintItems(items) + rest, depth) == Got(List(ItemsOf(items)), rest)
    decreases items, 4
  {
    var s := PrintItems(items) + rest;
    RoundTripItems(numberOf, items, rest, depth, []);
    assert [] + ItemsOf(items) == ItemsOf(items);
    StartOfPadded(items.item, s);
    SkipFirst(numberOf, s, depth);
  }

  lemma StartOfPadded(p: Padded, s: string)
    requires Blank(p.before) && PrintPadded(p) <= s
    ensures SkipSpace(s) != "" && SkipSpace(s)[0] == Print(p.doc)[0]
    ensures SkipSpace(s)[0] != ']'
  {
    var tail := p.after + s[|PrintPadded(p)|..];
    assert s == PrintPadded(p) + s[|PrintPadded(p)|..];
    assert s == p.before + (Print(p.doc) + tail);
    PrintStart(p.doc);
    SkipToValue(p.before, p.doc, tail);
  }

  lemma ReadPrintedName(name: Name, rest: string)
    requires LegalName(name)
    ensures ReadName(PrintName(name) + rest) == Got(Letters(name.spelling), rest)
    ensures SkipSpace(PrintName(name) + rest) != "" && SkipSpace(PrintName(name) + rest)[0] == '"'
  {
    var letters := Spread(PrintSpelled, name.spelling);
    var tail := name.after + (":" + rest);
    assert PrintName(name) + rest == name.before + ("\"" + (letters + ("\"" + tail)));
    SkipToMark(name.before, '"', letters + ("\"" + tail));
    ReadSpelling(name.spelling, tail, "");
    assert "" + Letters(name.spelling) == Letters(name.spelling);
    SkipToMark(name.after, ':', rest);
  }

  lemma {:induction false} RoundTripMember(
    numberOf: NumberReader, name: Name, p: Padded, rest: string, depth: nat)
    requires WholeNumbers(numberOf) && LegalName(name) && LegalPadded(p) && Clear(rest)
    requires depth + Height(p.doc) <= MOST_DEPTH
    ensures ReadMember(numberOf, PrintName(name) + (PrintPadded(p) + rest), depth)
         == Got((Letters(name.spelling), Meaning(p.doc)), p.after + rest)
    decreases p, 3
  {
    ReadPrintedName(name, PrintPadded(p) + rest);
    RoundTripPadded(numberOf, p, rest, depth);
  }

  lemma {:induction false} RoundTripFields(
    numberOf: NumberReader, members: Members, rest: string, depth: nat, known: map<string, Json>)
    requires WholeNumbers(numberOf) && LegalMembers(members)
    requires depth + MembersHeight(members) <= MOST_DEPTH
    ensures ReadFields(numberOf, PrintMembers(members) + rest, depth, known)
      == Got(Object(FieldsOf(members, known)), rest)
    decreases members, 4
  {
    var name, p := members.name, members.item;
    match members
    case LastMember(_, _) =>
      RoundTripMember(numberOf, name, p, "}" + rest, depth);
      Regroup(PrintName(name), PrintPadded(p), "}", rest);
      SkipToMark(p.after, '}', rest);
    case NextMember(_, _, more) =>
      var tail := PrintMembers(more) + rest;
      RoundTripMember(numberOf, name, p, "," + tail, depth);
      Regroup(PrintName(name), PrintPadded(p), "," + PrintMembers(more), rest);
      Associate(",", PrintMembers(more), rest);
      SkipToMark(p.after, ',', tail);
      RoundTripFields(numberOf, more, rest, depth, known[Letters(name.spelling) := Meaning(p.doc)]);
  }

  lemma {:induction false} RoundTripObject(numberOf: NumberReader, members: Members, rest: string, depth: nat)
    requires WholeNumbers(numberOf) && LegalMembers(members)
    requires depth + MembersHeight(members) <= MOST_DEPTH
    ensures ReadObject(numberOf, PrintMembers(members) + rest, depth) == Got(Object(FieldsOf(members, map[])), rest)
    decreases members, 5
  {
    var s := PrintMembers(members) + rest;
    RoundTripFields(numberOf, members, rest, depth, map[]);
    var tail := s[|PrintName(members.name)|..];
    assert s == PrintName(members.name) + tail;
    ReadPrintedName(members.name, tail);
    SkipFirst(numberOf, s, depth);
    assert ReadMember(numberOf, SkipSpace(s), depth) == ReadMember(numberOf, s, depth);
  }

  /** Reading a text nested at most sixteen deep gives back what it means, however it is spaced
      and however its strings are spelled. */
  lemma RoundTrip(numberOf: NumberReader, text: Padded)
    requires WholeNumbers(numberOf) && LegalPadded(text) && Height(text.doc) <= MOST_DEPTH
    ensures Parsed(numberOf, PrintPadded(text)) == Some(Meaning(text.doc))
  {
    RoundTripPadded(numberOf, text, "", 0);
    assert PrintPadded(text) + "" == PrintPadded(text) && text.after + "" == text.after;
    SkipBlank(text.after, "");
  }

  // ---------------------------------------------------------------- what `quote` writes

  /** The one spelling `JSON.stringify` has for a character. */
  function Canonical(c: char): (s: Spelled)
    ensures s.c == c && LegalSpelled(s) && PrintSpelled(s) == QuotedChar(c)
  {
    if c == '"' || c == '\\' then Short(c, c)
    else if c == '\U{0008}' then Short(c, 'b')
    else if c == '\U{000C}' then Short(c, 'f')
    else if c == '\n' then Short(c, 'n')
    else if c == '\r' then Short(c, 'r')
    else if c == '\t' then Short(c, 't')
    else if c as int < 0x20 then ControlSpelling(c)
    else Plain(c)
  }

  function ControlSpelling(c: char): (s: Spelled)
    requires (c as int) < 0x20
    ensures s == Unit(c, "00" + [HEX[c as int / 16], HEX[c as int % 16]]) && LegalSpelled(s)
    ensures PrintSpelled(s) == "\\u00" + [HEX[c as int / 16], HEX[c as int % 16]]
  {
    var digits := "00" + [HEX[c as int / 16], HEX[c as int % 16]];
    ControlDigits(c as int);
    assert "\\" + ("u" + digits) == "\\u00" + [HEX[c as int / 16], HEX[c as int % 16]];
    Unit(c, digits)
  }

  lemma ControlDigits(n: nat)
    requires n < 0x20
    ensures HexValue("00" + [HEX[n / 16], HEX[n % 16]]) == Some(n)
  {
    var d := "00" + [HEX[n / 16], HEX[n % 16]];
    assert HexDigit(d[3]) == Some(n % 16) && HexDigit(d[2]) == Some(n / 16);
    assert d[..3][..2] == "00" && d[..3][2] == d[2];
    assert "00"[..1] == "0" && "0"[..0] == "";
    assert HexValue("0") == Some(0) && HexValue("00") == Some(0);
    assert HexValue(d[..3]) == Some(n / 16);
  }

  function CanonicalSpelling(text: string): seq<Spelled> {
    if text == "" then [] else [Canonical(text[0])] + CanonicalSpelling(text[1..])
  }

  /** What `quote` writes is a legal spelling of its text, so `RoundTrip` is about it too. */
  lemma {:induction false} QuotedIsPrinted(text: string)
    ensures Legal(CanonicalSpelling(text)) && Letters(CanonicalSpelling(text)) == text
    ensures Print(TextDoc(CanonicalSpelling(text))) == Quoted(text)
  {
    if text != "" {
      QuotedIsPrinted(text[1..]);
    }
    QuotedSame(text);
  }

  lemma {:induction false} QuotedSame(text: string)
    ensures Spread(PrintSpelled, CanonicalSpelling(text)) == QuotedChars(text)
  {
    if text != "" {
      QuotedSame(text[1..]);
      assert CanonicalSpelling(text)[1..] == CanonicalSpelling(text[1..]);
    }
  }
}
