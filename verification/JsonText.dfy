/**
 * The JSON text the services write, byte by byte: strings escaped as in section 7 of RFC 8259 the way
 * the serializer does it (short escapes, lower-case hexadecimal), decimal numbers and fixed pieces.
 * Strings are their UTF-8 bytes; bytes from 0x20 on are written as they are.
 */
module JsonText {
  import opened Collections

  const QUOTE: Byte := 0x22
  const BACKSLASH: Byte := 0x5C

  /** No control byte, hence no line break. */
  predicate Unbroken(s: seq<Byte>) {
    forall i :: 0 <= i < |s| ==> s[i] >= 0x20
  }

  function Printable(c: char): (b: Byte)
    ensures 0x20 <= b < 0x7F
  {
    if 0x20 <= c as int < 0x7F then c as int else 0x3F
  }

  /** The bytes of a fixed piece of text made of printable ASCII. */
  function Ascii(s: string): (r: seq<Byte>)
    ensures |r| == |s| && Unbroken(r)
  {
    seq(|s|, i requires 0 <= i < |s| => Printable(s[i]))
  }

  function HexDigit(n: int): (b: Byte)
    requires 0 <= n < 16
    ensures 0x20 <= b < 0x7F
  {
    if n < 10 then 48 + n else 97 + (n - 10)
  }

  function HexValue(b: Byte): (n: Option<int>)
    ensures forall k :: 0 <= k < 16 && HexDigit(k) == b ==> n == Some(k)
    ensures n.Some? ==> 0 <= n.value < 16
  {
    if 48 <= b <= 57 then Some(b - 48)
    else if 97 <= b <= 102 then Some(b - 97 + 10)
    else if 65 <= b <= 70 then Some(b - 65 + 10)
    else None
  }

  /** The letter of a two-byte escape, for the bytes that have one. */
  function Short(b: Byte): (letter: Option<Byte>) {
    if b == QUOTE then Some(QUOTE)
    else if b == BACKSLASH then Some(BACKSLASH)
    else if b == 8 then Some(98)
    else if b == 9 then Some(116)
    else if b == 10 then Some(110)
    else if b == 12 then Some(102)
    else if b == 13 then Some(114)
    else None
  }

  function Unshort(letter: Byte): (b: Option<Byte>)
    ensures forall x: Byte :: Short(x) == Some(letter) ==> b == Some(x)
  {
    if letter == QUOTE then Some(QUOTE)
    else if letter == BACKSLASH then Some(BACKSLASH)
    else if letter == 98 then Some(8)
    else if letter == 116 then Some(9)
    else if letter == 110 then Some(10)
    else if letter == 102 then Some(12)
    else if letter == 114 then Some(13)
    else None
  }

  function EscapeByte(b: Byte): (r: seq<Byte>)
    ensures Unbroken(r)
  {
    if Short(b).Some? then [BACKSLASH, Short(b).value]
    else if b < 0x20 then [BACKSLASH, 117, 48, 48, HexDigit(b / 16), HexDigit(b % 16)]
    else [b]
  }

  function Escape(s: seq<Byte>): (r: seq<Byte>)
    ensures Unbroken(r)
  {
    if s == [] then [] else EscapeByte(s[0]) + Escape(s[1..])
  }

  function Quote(s: seq<Byte>): (r: seq<Byte>)
    ensures Unbroken(r)
  {
    [QUOTE] + Escape(s) + [QUOTE]
  }

  /** Bytes that need no escape. */
  predicate Plain(s: seq<Byte>) {
    forall i :: 0 <= i < |s| ==> 0x20 <= s[i] && s[i] != QUOTE && s[i] != BACKSLASH
  }

  lemma {:induction false} EscapePlain(s: seq<Byte>)
    requires Plain(s)
    ensures Escape(s) == s
  {
    if s != [] {
      EscapePlain(s[1..]);
      assert EscapeByte(s[0]) == [s[0]];
      assert s == [s[0]] + s[1..];
    }
  }

  function Decimal(n: nat): (r: seq<Byte>)
    ensures r != [] && Unbroken(r)
    ensures forall b :: b in r ==> 48 <= b <= 57
  {
    if n < 10 then [48 + n] else Decimal(n / 10) + [48 + n % 10]
  }

  // ---- Reading back ----

  /** What follows `piece` at the start of `text`. */
  function Expect(text: seq<Byte>, piece: seq<Byte>): (rest: Option<seq<Byte>>) {
    if piece <= text then Some(text[|piece|..]) else None
  }

  lemma ExpectFinds(piece: seq<Byte>, rest: seq<Byte>)
    ensures Expect(piece + rest, piece) == Some(rest)
  {
    assert (piece + rest)[|piece|..] == rest;
  }

  datatype Read = Read(value: seq<Byte>, rest: seq<Byte>)

  /** The value of the escape at the start of `text` and what follows it. */
  function ReadEscape(text: seq<Byte>): (r: Option<(Byte, seq<Byte>)>)
    ensures r.Some? ==> |r.value.1| < |text|
  {
    if |text| < 2 || text[0] != BACKSLASH then None
    else if Unshort(text[1]).Some? then Some((Unshort(text[1]).value, text[2..]))
    else if text[1] != 117 || |text| < 6 || text[2] != 48 || text[3] != 48 then None
    else
      var high, low := HexValue(text[4]), HexValue(text[5]);
      if high.None? || low.None? then None else Some((high.value * 16 + low.value, text[6..]))
  }

  /** Read a string whose opening quote has been read. */
  function ReadString(text: seq<Byte>): (r: Option<Read>)
    ensures r.Some? ==> |r.value.rest| < |text|
    decreases |text|
  {
    if text == [] then None
    else if text[0] == QUOTE then Some(Read([], text[1..]))
    else if text[0] == BACKSLASH then
      var escape := ReadEscape(text);
      if escape.None? then None
      else
        var tail := ReadString(escape.value.1);
        if tail.None? then None else Some(Read([escape.value.0] + tail.value.value, tail.value.rest))
    else if text[0] < 0x20 then None
    else
      var tail := ReadString(text[1..]);
      if tail.None? then None else Some(Read([text[0]] + tail.value.value, tail.value.rest))
  }

  lemma ReadEscapeByte(b: Byte, rest: seq<Byte>)
    requires Short(b).Some? || b < 0x20
    ensures ReadEscape(EscapeByte(b) + rest) == Some((b, rest))
  {
    var text := EscapeByte(b) + rest;
    if Short(b).Some? {
      assert text[1] == Short(b).value && text[2..] == rest;
    } else {
      assert text[4] == HexDigit(b / 16) && text[5] == HexDigit(b % 16) && text[6..] == rest;
    }
  }

  lemma ReadOneByte(b: Byte, after: seq<Byte>, tail: Read)
    requires ReadString(after) == Some(tail)
    ensures ReadString(EscapeByte(b) + after) == Some(Read([b] + tail.value, tail.rest))
  {
    var text := EscapeByte(b) + after;
    if Short(b).Some? || b < 0x20 {
      ReadEscapeByte(b, after);
      assert text[0] == BACKSLASH;
    } else {
      assert text[0] == b && text[1..] == after;
    }
  }

  lemma ReadClose(rest: seq<Byte>)
    ensures ReadString([QUOTE] + rest) == Some(Read([], rest))
  {
    assert ([QUOTE] + rest)[1..] == rest;
  }

  lemma EscapeStep(s: seq<Byte>, rest: seq<Byte>)
    requires s != []
    ensures Escape(s) + rest == EscapeByte(s[0]) + (Escape(s[1..]) + rest)
  {
    Associative(EscapeByte(s[0]), Escape(s[1..]), rest);
  }

  /** A quoted string reads back to itself, whatever follows it. */
  lemma {:induction false} ReadStringEscaped(s: seq<Byte>, rest: seq<Byte>)
    ensures ReadString(Escape(s) + ([QUOTE] + rest)) == Some(Read(s, rest))
  {
    var close := [QUOTE] + rest;
    if s == [] {
      ReadClose(rest);
      assert Escape(s) + close == close;
    } else {
      var after := Escape(s[1..]) + close;
      ReadStringEscaped(s[1..], rest);
      EscapeStep(s, close);
      ReadOneByte(s[0], after, Read(s[1..], rest));
      assert [s[0]] + s[1..] == s;
    }
  }

  function ReadQuoted(text: seq<Byte>): (r: Option<Read>)
    ensures r.Some? ==> |r.value.rest| < |text|
  {
    if text != [] && text[0] == QUOTE then ReadString(text[1..]) else None
  }

  lemma ReadQuotedQuote(s: seq<Byte>, rest: seq<Byte>)
    ensures ReadQuoted(Quote(s) + rest) == Some(Read(s, rest))
  {
    ReadStringEscaped(s, rest);
    assert (Quote(s) + rest)[1..] == Escape(s) + ([QUOTE] + rest);
  }
}
