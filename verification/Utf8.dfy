/** The bytes of a text and the text of some bytes, as section 3 of RFC 3629 relates them.
    A Dafny `char` is a Unicode scalar value, which is what a Rust `char` is. */
module Utf8 {
  import opened Basics

  type Byte = b: int | 0 <= b < 256

  function EncodeChar(c: char): (r: seq<Byte>)
    ensures 1 <= |r| <= 4
    ensures |r| == 1 <==> c as int < 0x80
    ensures c as int < 0x80 ==> r == [c as int]
    ensures c as int >= 0x80 ==> forall i | 0 <= i < |r| :: r[i] >= 0x80
  {
    var n := c as int;
    if n < 0x80 then [n]
    else if n < 0x800 then [0xC0 + n / 64, 0x80 + n % 64]
    else if n < 0x10000 then [0xE0 + n / 4096, 0x80 + n / 64 % 64, 0x80 + n % 64]
    else [0xF0 + n / 262144, 0x80 + n / 4096 % 64, 0x80 + n / 64 % 64, 0x80 + n % 64]
  }

  function Encode(text: string): (bytes: seq<Byte>)
  {
    Spread(EncodeChar, text)
  }

  predicate IsTail(b: Byte) {
    0x80 <= b < 0xC0
  }

  function Two(x: int, y: int): int { (x - 0xC0) * 64 + (y - 0x80) }

  function Three(x: int, y: int, z: int): int { (x - 0xE0) * 4096 + (y - 0x80) * 64 + (z - 0x80) }

  function Four(x: int, y: int, z: int, w: int): int {
    (x - 0xF0) * 262144 + (y - 0x80) * 4096 + (z - 0x80) * 64 + (w - 0x80)
  }

  /** The first character of some bytes and how many of them it takes, or None where no
      well-formed sequence starts: an overlong form, a surrogate and a lone tail are refused. */
  function DecodeChar(b: seq<Byte>): (r: Option<(char, nat)>)
    ensures r.Some? ==> 0 < r.value.1 <= |b|
  {
    if b == [] then None
    else if b[0] < 0x80 then Some((b[0] as char, 1))
    else if 0xC2 <= b[0] < 0xE0 && |b| >= 2 && IsTail(b[1]) then Some((Two(b[0], b[1]) as char, 2))
    else if 0xE0 <= b[0] < 0xF0 && |b| >= 3 && IsTail(b[1]) && IsTail(b[2]) then
      var n := Three(b[0], b[1], b[2]);
      if 0x800 <= n < 0xD800 || 0xE000 <= n then Some((n as char, 3)) else None
    else if 0xF0 <= b[0] < 0xF5 && |b| >= 4 && IsTail(b[1]) && IsTail(b[2]) && IsTail(b[3]) then
      var n := Four(b[0], b[1], b[2], b[3]);
      if 0x10000 <= n < 0x110000 then Some((n as char, 4)) else None
    else None
  }

  function Decode(b: seq<Byte>): Option<string>
  {
    if b == [] then Some("")
    else match DecodeChar(b)
      case None => None
      case Some((c, k)) =>
        match Decode(b[k..])
        case None => None
        case Some(text) => Some([c] + text)
  }

  lemma JoinThree(n: int)
    ensures Three(0xE0 + n / 4096, 0x80 + n / 64 % 64, 0x80 + n % 64) == n
  {
    assert n / 64 / 64 == n / 4096;
  }

  lemma JoinFour(n: int)
    ensures Four(0xF0 + n / 262144, 0x80 + n / 4096 % 64, 0x80 + n / 64 % 64, 0x80 + n % 64) == n
  {
    assert n / 64 / 64 == n / 4096;
    assert n / 4096 / 64 == n / 262144;
  }

  lemma DecodeEncodedChar(c: char, rest: seq<Byte>)
    ensures DecodeChar(EncodeChar(c) + rest) == Some((c, |EncodeChar(c)|))
  {
    var n := c as int;
    if n < 0x800 {
    } else if n < 0x10000 {
      JoinThree(n);
    } else {
      JoinFour(n);
    }
  }

  lemma SplitTwo(x: int, y: int)
    requires 0x80 <= y < 0xC0
    ensures Two(x, y) / 64 == x - 0xC0 && Two(x, y) % 64 == y - 0x80
  {
  }

  lemma SplitThree(x: int, y: int, z: int)
    requires 0x80 <= y < 0xC0 && 0x80 <= z < 0xC0
    ensures var n := Three(x, y, z);
            n / 4096 == x - 0xE0 && n / 64 % 64 == y - 0x80 && n % 64 == z - 0x80
  {
    assert Three(x, y, z) == ((x - 0xE0) * 64 + (y - 0x80)) * 64 + (z - 0x80);
  }

  lemma SplitFour(x: int, y: int, z: int, w: int)
    requires 0x80 <= y < 0xC0 && 0x80 <= z < 0xC0 && 0x80 <= w < 0xC0
    ensures var n := Four(x, y, z, w);
            n / 262144 == x - 0xF0 && n / 4096 % 64 == y - 0x80 && n / 64 % 64 == z - 0x80 && n % 64 == w - 0x80
  {
    assert Four(x, y, z, w) == (((x - 0xF0) * 64 + (y - 0x80)) * 64 + (z - 0x80)) * 64 + (w - 0x80);
  }

  lemma EncodeDecodedChar(b: seq<Byte>)
    requires DecodeChar(b).Some?
    ensures EncodeChar(DecodeChar(b).value.0) == b[..DecodeChar(b).value.1]
  {
    var (c, k) := DecodeChar(b).value;
    if k == 2 {
      SplitTwo(b[0], b[1]);
    } else if k == 3 {
      SplitThree(b[0], b[1], b[2]);
    } else if k == 4 {
      SplitFour(b[0], b[1], b[2], b[3]);
    }
  }

  /** Decoding gives a text back exactly when the bytes are that text's encoding. */
  lemma {:induction false} DecodeInvertsEncode(b: seq<Byte>, text: string)
    ensures Decode(b) == Some(text) <==> b == Encode(text)
    decreases |b|
  {
    if b == [] {
    } else {
      if text != "" && b == Encode(text) {
        DecodeEncodedChar(text[0], Encode(text[1..]));
        assert b[|EncodeChar(text[0])|..] == Encode(text[1..]);
        DecodeInvertsEncode(Encode(text[1..]), text[1..]);
        assert [text[0]] + text[1..] == text;
      }
      if Decode(b) == Some(text) {
        var (c, k) := DecodeChar(b).value;
        EncodeDecodedChar(b);
        var tail := Decode(b[k..]).value;
        DecodeInvertsEncode(b[k..], tail);
        assert text == [c] + tail && text[1..] == tail;
        assert b == b[..k] + b[k..];
      }
    }
  }
}
