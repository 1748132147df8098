/** The reader itself: a cursor over the bytes of a text, moved by its methods. Each method is
    proved to read exactly what the function of `Json` with its name reads, so in particular
    no index leaves the text, every success moves the cursor on and restores the depth, and
    no slice between two delimiters fails to decode. */
module JsonParser {
  import opened Basics
  import opened Utf8
  import opened Json

  /** A text starts with another exactly when its bytes start with the other's. */
  lemma {:induction false} EncodePrefix(word: string, text: string)
    ensures Encode(word) <= Encode(text) <==> word <= text
    ensures word <= text ==> Encode(text)[|Encode(word)|..] == Encode(text[|word|..])
  {
    if word != "" {
      if text != "" && Encode(word) <= Encode(text) {
        DecodeEncodedChar(word[0], Encode(text)[|EncodeChar(word[0])|..]);
        DecodeEncodedChar(text[0], Encode(text[1..]));
        assert Encode(text) == EncodeChar(word[0]) + Encode(text)[|EncodeChar(word[0])|..];
        assert word[0] == text[0];
      }
      if text != "" && word[0] == text[0] {
        EncodePrefix(word[1..], text[1..]);
        SharedHead(EncodeChar(word[0]), Encode(word[1..]), Encode(text[1..]));
        SharedHead([word[0]], word[1..], text[1..]);
        assert word == [word[0]] + word[1..] && text == [word[0]] + text[1..];
      }
    }
  }

  lemma SharedHead<T>(head: seq<T>, a: seq<T>, b: seq<T>)
    ensures head + a <= head + b <==> a <= b
    ensures a <= b ==> (head + b)[|head + a|..] == b[|a|..]
  {
    if head + a <= head + b {
      assert a == (head + a)[|head|..] && b == (head + b)[|head|..];
      assert forall i | 0 <= i < |a| :: a[i] == (head + a)[|head| + i];
    }
    if a <= b {
      assert b == a + b[|a|..];
      assert head + b == (head + a) + b[|a|..];
    }
  }

  /** The first byte of a text is its first character when either is ASCII. */
  lemma FirstByte(text: string)
    requires text != ""
    ensures Encode(text) != []
    ensures (text[0] as int) < 0x80 <==> Encode(text)[0] < 0x80
    ensures (text[0] as int) < 0x80 ==>
      Encode(text)[0] == text[0] as int && Encode(text)[1..] == Encode(text[1..])
  {
    var head := EncodeChar(text[0]);
    assert Encode(text) == head + Encode(text[1..]);
    assert Encode(text)[0] == head[0];
  }

  /** An all-ASCII text takes one byte for each character. */
  lemma {:induction false} AsciiLength(text: string)
    requires forall i | 0 <= i < |text| :: (text[i] as int) < 0x80
    ensures |Encode(text)| == |text|
  {
    if text != "" {
      AsciiLength(text[1..]);
    }
  }

  predicate PlainByte(b: Byte) {
    b >= 0x20 && b != '"' as int && b != '\\' as int
  }

  /** Bytes found plain one by one, up to a delimiter, are the plain run of the text. */
  lemma {:induction false} PlainBytes(text: string, n: nat)
    requires n < |Encode(text)|
    requires forall i | 0 <= i < n :: PlainByte(Encode(text)[i])
    requires !PlainByte(Encode(text)[n])
    ensures Encode(text)[n] < 0x20 ==> PlainRun(text).None?
    ensures Encode(text)[n] >= 0x20 ==>
      && PlainRun(text).Some?
      && Encode(text)[..n] == Encode(text[..PlainRun(text).value])
      && Encode(text)[n..] == Encode(text[PlainRun(text).value..])
    decreases |text|
  {
    var head := EncodeChar(text[0]);
    assert Encode(text) == head + Encode(text[1..]);
    FirstByte(text);
    if n > 0 {
      assert PlainByte(Encode(text)[0]);
      assert forall i | 0 <= i < |head| :: Encode(text)[i] == head[i];
      PlainBytesTail(text, n);
      PlainBytes(text[1..], n - |head|);
      if Encode(text)[n] >= 0x20 {
        PlainMore(text, n, PlainRun(text[1..]).value);
      }
    } else {
      assert text[..0] == "" && text[0..] == text;
    }
  }

  lemma PlainMore(text: string, n: nat, k: nat)
    requires text != "" && k < |text| && |EncodeChar(text[0])| <= n < |Encode(text)|
    requires var m := |EncodeChar(text[0])|;
      Encode(text[1..])[..n - m] == Encode(text[1..][..k]) && Encode(text[1..])[n - m..] == Encode(text[1..][k..])
    ensures Encode(text)[..n] == Encode(text[..k + 1]) && Encode(text)[n..] == Encode(text[k + 1..])
  {
    var head := EncodeChar(text[0]);
    assert Encode(text) == head + Encode(text[1..]);
    assert text[..k + 1][1..] == text[1..][..k];
    assert text[k + 1..] == text[1..][k..];
    assert Encode(text)[..n] == head + Encode(text[1..])[..n - |head|];
    assert Encode(text[..k + 1]) == head + Encode(text[1..][..k]);
  }

  lemma PlainBytesTail(text: string, n: nat)
    requires text != "" && |EncodeChar(text[0])| <= n < |Encode(text)|
    ensures var m := |EncodeChar(text[0])|;
      && |Encode(text[1..])| == |Encode(text)| - m
      && (forall i | 0 <= i < n - m :: Encode(text[1..])[i] == Encode(text)[m + i])
      && Encode(text[1..])[n - m] == Encode(text)[n]
      && Encode(text[1..])[n - m..] == Encode(text)[n..]
  {
    var head := EncodeChar(text[0]);
    assert Encode(text) == head + Encode(text[1..]);
  }

  /** Plain to the very end: the string never closes. */
  lemma {:induction false} PlainToTheEnd(text: string)
    requires forall i | 0 <= i < |Encode(text)| :: PlainByte(Encode(text)[i])
    ensures PlainRun(text).None?
  {
    if text != "" {
      FirstByte(text);
      var m := |EncodeChar(text[0])|;
      assert Encode(text) == EncodeChar(text[0]) + Encode(text[1..]);
      assert PlainByte(Encode(text)[0]);
      forall i | 0 <= i < |Encode(text[1..])| ensures PlainByte(Encode(text[1..])[i]) {
        assert Encode(text[1..])[i] == Encode(text)[m + i];
      }
      PlainToTheEnd(text[1..]);
    }
  }

  /** Where a scan of the bytes stops, and the slice it passed, against the plain run of the text. */
  lemma RunBytes(text: string, n: nat)
    requires n <= |Encode(text)|
    requires forall i | 0 <= i < n :: PlainByte(Encode(text)[i])
    requires n < |Encode(text)| ==> !PlainByte(Encode(text)[n])
    ensures match PlainRun(text)
      case None => n == |Encode(text)| || Encode(text)[n] < 0x20
      case Some(k) =>
        && n < |Encode(text)| && Encode(text)[n] >= 0x20
        && Decode(Encode(text)[..n]) == Some(text[..k])
        && Encode(text)[n..] == Encode(text[k..])
  {
    if n == |Encode(text)| {
      PlainToTheEnd(text);
    } else {
      PlainBytes(text, n);
      if Encode(text)[n] >= 0x20 {
        DecodeInvertsEncode(Encode(text)[..n], text[..PlainRun(text).value]);
      }
    }
  }

  lemma FromHexIsAscii(s: string)
    requires FromHex(s).Some?
    ensures forall i | 0 <= i < |s| :: (s[i] as int) < 0x80
  {
    if s[0] == '+' {
      assert forall i | 1 <= i < |s| :: s[i] == s[1..][i - 1];
    }
  }

  /** Four bytes that decode to hexadecimal digits are four characters that are. */
  lemma Hex4Bytes(text: string)
    ensures var b := Encode(text);
      match ReadHex4(text)
      case Refused => |b| < 4 || Decode(b[..4]).None? || FromHex(Decode(b[..4]).value).None?
      case Got(n, rest) =>
        |b| >= 4 && Decode(b[..4]).Some? && FromHex(Decode(b[..4]).value) == Some(n) && b[4..] == Encode(rest)
  {
    var b := Encode(text);
    if ReadHex4(text).Got? {
      var front := text[..4];
      FromHexIsAscii(front);
      AsciiLength(front);
      EncodePrefix(front, text);
      DecodeInvertsEncode(b[..4], front);
    }
    if |b| >= 4 && Decode(b[..4]).Some? && FromHex(Decode(b[..4]).value).Some? {
      var d := Decode(b[..4]).value;
      DecodeInvertsEncode(b[..4], d);
      FromHexIsAscii(d);
      AsciiLength(d);
      EncodePrefix(d, text);
      assert text[..4] == d;
    }
  }

  lemma EscapeBytes(text: string)
    ensures var b := Encode(text);
      ("\\u" <= text <==> |b| >= 2 && b[..2] == [0x5C, 0x75]) && ("\\u" <= text ==> b[2..] == Encode(text[2..]))
  {
    assert Encode("\\u") == [0x5C, 0x75] by {
      assert "\\u"[1..] == "u" && "u"[1..] == "";
      assert Encode("u") == EncodeChar('u') + Encode("");
    }
    EncodePrefix("\\u", text);
  }


  class Parser {
    const numberOf: NumberReader
    const bytes: seq<Byte>
    var at: nat
    var depth: nat
    /** The text the cursor has not passed. */
    ghost var ahead: string

    ghost predicate Valid()
      reads this
    {
      at <= |bytes| && bytes[at..] == Encode(ahead)
    }

    constructor (numberOf: NumberReader, text: string)
      ensures Valid() && at == 0 && depth == 0 && ahead == text
      ensures this.numberOf == numberOf && bytes == Encode(text)
    {
      this.numberOf := numberOf;
      bytes := Encode(text);
      at, depth, ahead := 0, 0, text;
    }

    function Peek(): (b: Option<Byte>)
      reads this
    {
      if at < |bytes| then Some(bytes[at]) else None
    }

    lemma PeekIsAhead()
      requires Valid()
      ensures Peek().None? <==> ahead == ""
      ensures ahead != "" ==> at < |bytes| && ((ahead[0] as int) < 0x80 <==> bytes[at] < 0x80)
      ensures ahead != "" && (ahead[0] as int) < 0x80 ==>
        bytes[at] == ahead[0] as int && bytes[at + 1..] == Encode(ahead[1..])
    {
      if ahead != "" {
        FirstByte(ahead);
        assert bytes[at] == bytes[at..][0];
        assert bytes[at + 1..] == bytes[at..][1..];
      }
    }

    /** Steps over one ASCII byte. */
    method Step()
      requires Valid() && ahead != "" && (ahead[0] as int) < 0x80
      modifies this`at, this`ahead
      ensures Valid() && at == old(at) + 1 && ahead == old(ahead)[1..]
    {
      PeekIsAhead();
      at := at + 1;
      ahead := ahead[1..];
    }

    method Space()
      requires Valid()
      modifies this`at, this`ahead
      ensures Valid() && at >= old(at) && ahead == SkipSpace(old(ahead))
    {
      PeekIsAhead();
      while at < |bytes| && (bytes[at] == 0x20 || bytes[at] == 0x09 || bytes[at] == 0x0A || bytes[at] == 0x0D)
        invariant Valid() && at >= old(at)
        invariant SkipSpace(ahead) == SkipSpace(old(ahead))
        decreases |bytes| - at
      {
        PeekIsAhead();
        Step();
      }
      PeekIsAhead();
    }

    method Literal(word: string, value: Json) returns (r: Option<Json>)
      requires Valid() && word != ""
      modifies this`at, this`ahead
      ensures match ReadLiteral(old(ahead), word, value)
        case Got(v, rest) => r == Some(v) && Valid() && ahead == rest && at > old(at)
        case Refused => r.None?
    {
      EncodePrefix(word, ahead);
      if Encode(word) <= bytes[at..] {
        FirstByte(word);
        at := at + |Encode(word)|;
        ahead := ahead[|word|..];
        r := Some(value);
      } else {
        r := None;
      }
    }

    /** The bytes a scan has passed decode to the characters they are of. */
    lemma SliceDecodes(start: nat, end: nat, text: string, k: nat)
      requires start <= end <= |bytes| && k <= |text| && bytes[start..] == Encode(text)
      requires end == start + |Encode(text[..k])|
      ensures Decode(bytes[start..end]) == Some(text[..k])
    {
      EncodePrefix(text[..k], text);
      assert bytes[start..end] == bytes[start..][..end - start] == Encode(text[..k]);
      DecodeInvertsEncode(bytes[start..end], text[..k]);
    }

    method Number() returns (r: Option<Json>)
      requires Valid()
      modifies this`at, this`ahead
      ensures match ReadNumber(numberOf, old(ahead))
        case Got(v, rest) => r == Some(v) && Valid() && ahead == rest && at > old(at)
        case Refused => r.None?
    {
      var start := at;
      ghost var text, k := ahead, 0;
      PeekIsAhead();
      while at < |bytes| && bytes[at] < 0x80 && IsNumberChar(bytes[at] as char)
        invariant Valid() && start <= at <= |bytes|
        invariant k <= |text| && ahead == text[k..] && at == start + |Encode(text[..k])|
        invariant NumberRun(text) == k + NumberRun(ahead)
        decreases |bytes| - at
      {
        PeekIsAhead();
        SpreadStep(EncodeChar, [], text, k);
        assert [] + Encode(text[..k]) == Encode(text[..k]) && [] + Encode(text[..k + 1]) == Encode(text[..k + 1]);
        Step();
        k := k + 1;
      }
      PeekIsAhead();
      assert k == NumberRun(text);
      SliceDecodes(start, at, text, k);
      hide *;
      match Decode(bytes[start..at])
      case None => r := None;
      case Some(digits) =>
        if digits == "" {
          r := None;
        } else {
          match numberOf(digits)
          case None => r := None;
          case Some(n) => r := Some(Json.Number(n));
        }
    }

    method Hex4() returns (r: Option<nat>)
      requires Valid()
      modifies this`at, this`ahead
      ensures match ReadHex4(old(ahead))
        case Got(n, rest) => r == Some(n) && Valid() && ahead == rest && at > old(at)
        case Refused => r.None?
    {
      Hex4Bytes(ahead);
      if at + 4 > |bytes| {
        return None;
      }
      assert bytes[at..at + 4] == bytes[at..][..4] && bytes[at + 4..] == bytes[at..][4..];
      var digits := Decode(bytes[at..at + 4]);
      if digits.None? {
        return None;
      }
      var value := FromHex(digits.value);
      if value.None? {
        return None;
      }
      at := at + 4;
      ahead := ahead[4..];
      return value;
    }

    method Unicode() returns (r: Option<char>)
      requires Valid()
      modifies this`at, this`ahead
      ensures match ReadUnicode(old(ahead))
        case Got(c, rest) => r == Some(c) && Valid() && ahead == rest && at > old(at)
        case Refused => r.None?
    {
      var first := Hex4();
      if first.None? {
        return None;
      }
      if 0xD800 <= first.value < 0xDC00 {
        EscapeBytes(ahead);
        assert at + 2 <= |bytes| ==> bytes[at..at + 2] == bytes[at..][..2] && bytes[at + 2..] == bytes[at..][2..];
        if at + 2 > |bytes| || bytes[at..at + 2] != [0x5C, 0x75] {
          return None;
        }
        at := at + 2;
        ahead := ahead[2..];
        var second := Hex4();
        if second.None? || !(0xDC00 <= second.value < 0xE000) {
          return None;
        }
        var n := 0x10000 + (first.value - 0xD800) * 1024 + (second.value - 0xDC00);
        return if IsScalar(n) then Some(n as char) else None;
      }
      return if IsScalar(first.value) then Some(first.value as char) else None;
    }

    /** The characters up to the next quote or backslash, decoded as one slice. */
    method Run() returns (r: Option<string>)
      requires Valid()
      modifies this`at, this`ahead
      ensures match PlainRun(old(ahead))
        case None => r.None?
        case Some(k) => r == Some(old(ahead)[..k]) && Valid() && ahead == old(ahead)[k..] && at >= old(at)
    {
      var start := at;
      ghost var b := Encode(ahead);
      while at < |bytes| && bytes[at] != '"' as int && bytes[at] != '\\' as int
        invariant start <= at <= |bytes| && bytes[start..] == b && ahead == old(ahead)
        invariant forall i | 0 <= i < at - start :: PlainByte(b[i])
      {
        assert b[at - start] == bytes[at];
        if bytes[at] < 0x20 {
          RunBytes(ahead, at - start);
          return None;
        }
        at := at + 1;
      }
      assert at < |bytes| ==> b[at - start] == bytes[at];
      RunBytes(ahead, at - start);
      if at == |bytes| {
        return None;
      }
      assert bytes[start..at] == b[..at - start] && bytes[at..] == b[at - start..];
      r := Decode(bytes[start..at]);
      ahead := ahead[PlainRun(ahead).value..];
    }

    /** The character an escape stands for, the cursor standing just after the backslash. */
    method Escape() returns (r: Option<char>)
      requires Valid()
      modifies this`at, this`ahead
      ensures match ReadEscape(old(ahead))
        case Got(c, rest) => r == Some(c) && Valid() && ahead == rest && at > old(at)
        case Refused => r.None?
    {
      PeekIsAhead();
      var escape := Peek();
      if escape.None? || escape.value >= 0x80 {
        return None;
      }
      Step();
      if escape.value == 'u' as int {
        r := Unicode();
      } else {
        r := ShortEscape(escape.value as char);
      }
    }

    /** The string at the cursor, which stands on its opening quote. */
    method String() returns (r: Option<string>)
      requires Valid() && ahead != "" && ahead[0] == '"'
      modifies this`at, this`ahead
      ensures match ReadString(old(ahead)[1..], "")
        case Got(s, rest) => r == Some(s) && Valid() && ahead == rest && at > old(at)
        case Refused => r.None?
    {
      Step();
      var out := "";
      while true
        invariant Valid() && at > old(at)
        invariant ReadString(ahead, out) == ReadString(old(ahead)[1..], "")
        decreases |bytes| - at
      {
        var chunk := Run();
        if chunk.None? {
          return None;
        }
        PeekIsAhead();
        out := out + chunk.value;
        if bytes[at] == '"' as int {
          Step();
          return Some(out);
        }
        Step();
        var c := Escape();
        if c.None? {
          return None;
        }
        out := out + [c.value];
      }
    }

    method Value() returns (r: Option<Json>)
      requires Valid() && depth <= MOST_DEPTH
      modifies this
      ensures match ReadValue(numberOf, old(ahead), old(depth))
        case Got(v, rest) => r == Some(v) && Valid() && ahead == rest && at > old(at) && depth == old(depth)
        case Refused => r.None?
      ensures depth >= old(depth)
      decreases |bytes| - at, 1
    {
      Space();
      PeekIsAhead();
      var first := Peek();
      if first.None? {
        return None;
      }
      var b := first.value;
      if b == 'n' as int {
        r := Literal("null", Json.Null);
      } else if b == 't' as int {
        r := Literal("true", Json.Bool(true));
      } else if b == 'f' as int {
        r := Literal("false", Json.Bool(false));
      } else if b == '"' as int {
        var text := String();
        r := if text.None? then None else Some(Json.Text(text.value));
      } else if b == '[' as int || b == '{' as int {
        r := Nested(b == '[' as int);
      } else {
        r := Number();
      }
    }

    /** A list or an object, one level deeper, refused where that is too deep. */
    method Nested(list: bool) returns (r: Option<Json>)
      requires Valid() && depth <= MOST_DEPTH && ahead != ""
      requires ahead[0] == if list then '[' else '{'
      modifies this
      ensures
        var reading :=
          if old(depth) >= MOST_DEPTH then Refused
          else if list then ReadList(numberOf, old(ahead)[1..], old(depth) + 1)
          else ReadObject(numberOf, old(ahead)[1..], old(depth) + 1);
        match reading
        case Got(v, rest) => r == Some(v) && Valid() && ahead == rest && at > old(at) && depth == old(depth)
        case Refused => r.None?
      ensures depth >= old(depth)
      decreases |bytes| - at, 0
    {
      depth := depth + 1;
      if depth > MOST_DEPTH {
        return None;
      }
      Step();
      if list {
        r := List();
      } else {
        r := Object();
      }
      depth := depth - 1;
    }

    /** The rest of a list, its opening bracket already passed. */
    method List() returns (r: Option<Json>)
      requires Valid() && depth <= MOST_DEPTH
      modifies this
      ensures match ReadList(numberOf, old(ahead), old(depth))
        case Got(v, rest) => r == Some(v) && Valid() && ahead == rest && at > old(at) && depth == old(depth)
        case Refused => r.None?
      ensures depth >= old(depth)
      decreases |bytes| - at, 3
    {
      Space();
      PeekIsAhead();
      if at == |bytes| {
        return None;
      }
      if bytes[at] == ']' as int {
        Step();
        return Some(Json.List([]));
      }
      var items := [];
      ghost var whole := ReadItems(numberOf, ahead, depth, []);
      while true
        invariant Valid() && at >= old(at) && depth == old(depth)
        invariant ReadItems(numberOf, ahead, depth, items) == whole
        decreases |bytes| - at
      {
        var value := Value();
        if value.None? {
          return None;
        }
        Space();
        PeekIsAhead();
        if at == |bytes| {
          return None;
        }
        items := items + [value.value];
        if bytes[at] == ',' as int {
          Step();
        } else if bytes[at] == ']' as int {
          Step();
          return Some(Json.List(items));
        } else {
          return None;
        }
      }
    }

    /** A member's name and the colon after it. */
    method Name() returns (r: Option<string>)
      requires Valid()
      modifies this`at, this`ahead
      ensures match ReadName(old(ahead))
        case Got(name, rest) => r == Some(name) && Valid() && ahead == rest && at > old(at)
        case Refused => r.None?
    {
      Space();
      PeekIsAhead();
      if at == |bytes| || bytes[at] != '"' as int {
        return None;
      }
      r := String();
      if r.None? {
        return None;
      }
      Space();
      PeekIsAhead();
      if at == |bytes| || bytes[at] != ':' as int {
        return None;
      }
      Step();
    }

    method Member() returns (r: Option<(string, Json)>)
      requires Valid() && depth <= MOST_DEPTH
      modifies this
      ensures match ReadMember(numberOf, old(ahead), old(depth))
        case Got(m, rest) => r == Some(m) && Valid() && ahead == rest && at > old(at) && depth == old(depth)
        case Refused => r.None?
      ensures depth >= old(depth)
      decreases |bytes| - at, 2
    {
      var name := Name();
      if name.None? {
        return None;
      }
      var value := Value();
      r := if value.None? then None else Some((name.value, value.value));
    }

    /** The rest of an object, its opening brace already passed. */
    method Object() returns (r: Option<Json>)
      requires Valid() && depth <= MOST_DEPTH
      modifies this
      ensures match ReadObject(numberOf, old(ahead), old(depth))
        case Got(v, rest) => r == Some(v) && Valid() && ahead == rest && at > old(at) && depth == old(depth)
        case Refused => r.None?
      ensures depth >= old(depth)
      decreases |bytes| - at, 4
    {
      Space();
      PeekIsAhead();
      if at == |bytes| {
        return None;
      }
      if bytes[at] == '}' as int {
        Step();
        return Some(Json.Object(map[]));
      }
      r := Fields();
    }

    /** The members, at least one, up to the closing brace. */
    method Fields() returns (r: Option<Json>)
      requires Valid() && depth <= MOST_DEPTH
      modifies this
      ensures match ReadFields(numberOf, old(ahead), old(depth), map[])
        case Got(v, rest) => r == Some(v) && Valid() && ahead == rest && at > old(at) && depth == old(depth)
        case Refused => r.None?
      ensures depth >= old(depth)
      decreases |bytes| - at, 3
    {
      hide ReadMember;
      hide SkipSpace;
      hide Encode;
      var fields: map<string, Json> := map[];
      ghost var whole := ReadFields(numberOf, ahead, depth, map[]);
      while true
        invariant Valid() && at >= old(at) && depth == old(depth)
        invariant ReadFields(numberOf, ahead, depth, fields) == whole
        decreases |bytes| - at
      {
        var member := Member();
        if member.None? {
          return None;
        }
        fields := fields[member.value.0 := member.value.1];
        Space();
        PeekIsAhead();
        if at == |bytes| {
          return None;
        }
        if bytes[at] == ',' as int {
          Step();
        } else if bytes[at] == '}' as int {
          Step();
          return Some(Json.Object(fields));
        } else {
          return None;
        }
      }
    }
  }

  /** The byte reader on a whole text comes to the character reader's answer, whatever the text. */
  method Parse(numberOf: NumberReader, text: string) returns (r: Option<Json>)
    ensures r == Parsed(numberOf, text)
  {
    var parser := new Parser(numberOf, text);
    var value := parser.Value();
    if value.None? {
      return None;
    }
    parser.Space();
    parser.PeekIsAhead();
    return if parser.at == |parser.bytes| then value else None;
  }
}
