/** Base64 as in RFC 4648: section 4 with padding, section 5 without. */
module Base64 {
  import opened Collections

  datatype Alphabet = Standard | UrlSafe

  type Sextet = n: int | 0 <= n < 64

  const PAD: Byte := 61

  function Symbol(alphabet: Alphabet, n: Sextet): (b: Byte) {
    if n < 26 then 65 + n
    else if n < 52 then 97 + (n - 26)
    else if n < 62 then 48 + (n - 52)
    else if n == 62 then (if alphabet.Standard? then 43 else 45)
    else (if alphabet.Standard? then 47 else 95)
  }

  function Value(alphabet: Alphabet, b: Byte): (n: Option<Sextet>)
    ensures forall k: Sextet :: n == Some(k) <==> Symbol(alphabet, k) == b
  {
    if 65 <= b <= 90 then Some(b - 65)
    else if 97 <= b <= 122 then Some(b - 97 + 26)
    else if 48 <= b <= 57 then Some(b - 48 + 52)
    else if b == Symbol(alphabet, 62) then Some(62)
    else if b == Symbol(alphabet, 63) then Some(63)
    else None
  }

  // ---- Six-bit groups ----

  function Pack(bytes: seq<Byte>): (r: seq<Sextet>) {
    if |bytes| == 0 then []
    else if |bytes| == 1 then [bytes[0] / 4, bytes[0] % 4 * 16]
    else if |bytes| == 2 then [bytes[0] / 4, bytes[0] % 4 * 16 + bytes[1] / 16, bytes[1] % 16 * 4]
    else
      [bytes[0] / 4, bytes[0] % 4 * 16 + bytes[1] / 16, bytes[1] % 16 * 4 + bytes[2] / 64, bytes[2] % 64]
      + Pack(bytes[3..])
  }

  function First(w: int, x: int): (b: Byte)
    requires 0 <= w < 64 && 0 <= x < 64
  {
    w * 4 + x / 16
  }

  function Second(x: int, y: int): (b: Byte)
    requires 0 <= x < 64 && 0 <= y < 64
  {
    x % 16 * 16 + y / 4
  }

  function Third(y: int, z: int): (b: Byte)
    requires 0 <= y < 64 && 0 <= z < 64
  {
    y % 4 * 64 + z
  }

  /** Strict: a single leftover group and non-zero leftover bits are refused. */
  function Unpack(s: seq<Sextet>): (r: Option<seq<Byte>>) {
    if |s| == 0 then Some([])
    else if |s| == 1 then None
    else if |s| == 2 then
      if s[1] % 16 != 0 then None else Some([First(s[0], s[1])])
    else if |s| == 3 then
      if s[2] % 4 != 0 then None else Some([First(s[0], s[1]), Second(s[1], s[2])])
    else
      var rest := Unpack(s[4..]);
      if rest.None? then None
      else Some([First(s[0], s[1]), Second(s[1], s[2]), Third(s[2], s[3])] + rest.value)
  }

  lemma BytesUnpack(a: int, b: int, c: int)
    requires 0 <= a < 256 && 0 <= b < 256 && 0 <= c < 256
    ensures 0 <= a % 4 * 16 + b / 16 < 64 && 0 <= b % 16 * 4 + c / 64 < 64
    ensures First(a / 4, a % 4 * 16 + b / 16) == a
    ensures Second(a % 4 * 16 + b / 16, b % 16 * 4 + c / 64) == b
    ensures Third(b % 16 * 4 + c / 64, c % 64) == c
  {
  }

  lemma UnpackTwo(w: Sextet, x: Sextet)
    requires x % 16 == 0
    ensures Unpack([w, x]) == Some([First(w, x)])
  {
  }

  lemma UnpackThree(w: Sextet, x: Sextet, y: Sextet)
    requires y % 4 == 0
    ensures Unpack([w, x, y]) == Some([First(w, x), Second(x, y)])
  {
  }

  lemma OneByteUnpacks(a: int)
    requires 0 <= a < 256
    ensures 0 <= a / 4 < 64 && 0 <= a % 4 * 16 < 64 && (a % 4 * 16) % 16 == 0
    ensures First(a / 4, a % 4 * 16) == a
  {
  }

  lemma TwoBytesUnpack(a: int, b: int)
    requires 0 <= a < 256 && 0 <= b < 256
    ensures 0 <= a / 4 < 64 && 0 <= a % 4 * 16 + b / 16 < 64 && 0 <= b % 16 * 4 < 64 && (b % 16 * 4) % 4 == 0
    ensures First(a / 4, a % 4 * 16 + b / 16) == a
    ensures Second(a % 4 * 16 + b / 16, b % 16 * 4) == b
  {
  }

  // The groups of one, two and three bytes, named, so that only what they decode to is left to know of them.

  lemma PackOne(bytes: seq<Byte>) returns (w: Sextet, x: Sextet)
    requires |bytes| == 1
    ensures Pack(bytes) == [w, x] && x % 16 == 0 && [First(w, x)] == bytes
  {
    OneByteUnpacks(bytes[0]);
    w, x := bytes[0] / 4, bytes[0] % 4 * 16;
  }

  lemma PackTwo(bytes: seq<Byte>) returns (w: Sextet, x: Sextet, y: Sextet)
    requires |bytes| == 2
    ensures Pack(bytes) == [w, x, y] && y % 4 == 0 && [First(w, x), Second(x, y)] == bytes
  {
    TwoBytesUnpack(bytes[0], bytes[1]);
    w, x, y := bytes[0] / 4, bytes[0] % 4 * 16 + bytes[1] / 16, bytes[1] % 16 * 4;
  }

  lemma PackThree(bytes: seq<Byte>) returns (w: Sextet, x: Sextet, y: Sextet, z: Sextet)
    requires |bytes| >= 3
    ensures Pack(bytes) == [w, x, y, z] + Pack(bytes[3..])
    ensures [First(w, x), Second(x, y), Third(y, z)] + bytes[3..] == bytes
  {
    BytesUnpack(bytes[0], bytes[1], bytes[2]);
    w, x := bytes[0] / 4, bytes[0] % 4 * 16 + bytes[1] / 16;
    y, z := bytes[1] % 16 * 4 + bytes[2] / 64, bytes[2] % 64;
  }

  lemma UnpackFour(w: Sextet, x: Sextet, y: Sextet, z: Sextet, rest: seq<Sextet>)
    requires Unpack(rest).Some?
    ensures Unpack([w, x, y, z] + rest) == Some([First(w, x), Second(x, y), Third(y, z)] + Unpack(rest).value)
  {
    assert ([w, x, y, z] + rest)[4..] == rest;
  }

  lemma {:induction false} UnpackPack(bytes: seq<Byte>)
    ensures Unpack(Pack(bytes)) == Some(bytes)
  {
    if |bytes| == 1 {
      var w, x := PackOne(bytes);
      UnpackTwo(w, x);
    } else if |bytes| == 2 {
      var w, x, y := PackTwo(bytes);
      UnpackThree(w, x, y);
    } else if |bytes| >= 3 {
      var w, x, y, z := PackThree(bytes);
      UnpackPack(bytes[3..]);
      UnpackFour(w, x, y, z, Pack(bytes[3..]));
    }
  }

  lemma GroupRepacks(w: int, x: int, y: int, z: int)
    requires 0 <= w < 64 && 0 <= x < 64 && 0 <= y < 64 && 0 <= z < 64
    ensures First(w, x) / 4 == w
    ensures First(w, x) % 4 * 16 + Second(x, y) / 16 == x
    ensures Second(x, y) % 16 * 4 + Third(y, z) / 64 == y
    ensures Third(y, z) % 64 == z
    ensures x % 16 == 0 ==> First(w, x) % 4 * 16 == x
    ensures y % 4 == 0 ==> Second(x, y) % 16 * 4 == y
  {
  }

  lemma {:induction false} PackUnpack(s: seq<Sextet>)
    requires Unpack(s).Some?
    ensures Pack(Unpack(s).value) == s
  {
    if |s| >= 4 {
      PackUnpack(s[4..]);
      GroupRepacks(s[0], s[1], s[2], s[3]);
      assert Unpack(s).value[3..] == Unpack(s[4..]).value;
      assert s == [s[0], s[1], s[2], s[3]] + s[4..];
    } else if |s| == 3 {
      GroupRepacks(s[0], s[1], s[2], 0);
      assert s == [s[0], s[1], s[2]];
    } else if |s| == 2 {
      GroupRepacks(s[0], s[1], 0, 0);
      assert s == [s[0], s[1]];
    }
  }

  lemma {:induction false} PackLength(bytes: seq<Byte>)
    ensures |Pack(bytes)| == |bytes| / 3 * 4 + (if |bytes| % 3 == 0 then 0 else |bytes| % 3 + 1)
  {
    if |bytes| >= 3 {
      PackLength(bytes[3..]);
    }
  }

  // ---- Text ----

  function Symbols(alphabet: Alphabet, s: seq<Sextet>): (r: seq<Byte>)
    ensures |r| == |s|
    ensures forall i :: 0 <= i < |s| ==> r[i] == Symbol(alphabet, s[i])
  {
    if s == [] then [] else [Symbol(alphabet, s[0])] + Symbols(alphabet, s[1..])
  }

  function Values(alphabet: Alphabet, text: seq<Byte>): (r: Option<seq<Sextet>>)
    ensures r.Some? ==> Symbols(alphabet, r.value) == text
  {
    if text == [] then Some([])
    else
      var first, rest := Value(alphabet, text[0]), Values(alphabet, text[1..]);
      if first.None? || rest.None? then None
      else
        assert text == [text[0]] + text[1..];
        Some([first.value] + rest.value)
  }

  lemma {:induction false} ValuesSymbols(alphabet: Alphabet, s: seq<Sextet>)
    ensures Values(alphabet, Symbols(alphabet, s)) == Some(s)
  {
    if s != [] {
      ValuesSymbols(alphabet, s[1..]);
      assert Symbols(alphabet, s)[1..] == Symbols(alphabet, s[1..]);
      assert s == [s[0]] + s[1..];
    }
  }

  /** Section 5 of RFC 4648 without padding. */
  function EncodeUrl(bytes: seq<Byte>): (text: seq<Byte>) {
    Symbols(UrlSafe, Pack(bytes))
  }

  function DecodeUrl(text: seq<Byte>): (bytes: Option<seq<Byte>>) {
    var s := Values(UrlSafe, text);
    if s.None? then None else Unpack(s.value)
  }

  /** Decoding undoes encoding, and accepts no text but the encoding of what it returns. */
  lemma UrlRoundTrip(bytes: seq<Byte>, text: seq<Byte>)
    ensures DecodeUrl(text) == Some(bytes) <==> text == EncodeUrl(bytes)
  {
    UnpackPack(bytes);
    ValuesSymbols(UrlSafe, Pack(bytes));
    if DecodeUrl(text) == Some(bytes) {
      PackUnpack(Values(UrlSafe, text).value);
    }
  }

  lemma UrlLength(bytes: seq<Byte>)
    ensures |EncodeUrl(bytes)| == (4 * |bytes| + 2) / 3
  {
    PackLength(bytes);
  }

  /** Section 4 of RFC 4648, padded to a multiple of four. */
  function EncodeStandard(bytes: seq<Byte>): (text: seq<Byte>) {
    var body := Symbols(Standard, Pack(bytes));
    if |bytes| % 3 == 1 then body + [PAD, PAD]
    else if |bytes| % 3 == 2 then body + [PAD]
    else body
  }

  lemma StandardLength(bytes: seq<Byte>)
    ensures |EncodeStandard(bytes)| == (|bytes| + 2) / 3 * 4
  {
    PackLength(bytes);
  }

  /** Different bodies have different encodings. */
  lemma StandardInjective(a: seq<Byte>, b: seq<Byte>)
    requires EncodeStandard(a) == EncodeStandard(b)
    ensures a == b
  {
    PackLength(a);
    PackLength(b);
    var s, t := Symbols(Standard, Pack(a)), Symbols(Standard, Pack(b));
    assert |a| % 3 == |b| % 3 by { SamePadding(a, b); }
    assert s == EncodeStandard(a)[..|s|] && t == EncodeStandard(b)[..|t|];
    ValuesSymbols(Standard, Pack(a));
    ValuesSymbols(Standard, Pack(b));
    UnpackPack(a);
    UnpackPack(b);
  }

  /** No symbol is the padding byte, so the padding tells the length modulo three. */
  lemma SamePadding(a: seq<Byte>, b: seq<Byte>)
    requires EncodeStandard(a) == EncodeStandard(b)
    ensures |a| % 3 == |b| % 3
  {
    PackLength(a);
    PackLength(b);
    var x, y := EncodeStandard(a), EncodeStandard(b);
    PaddingSeen(a);
    PaddingSeen(b);
  }

  lemma PaddingSeen(a: seq<Byte>)
    ensures var x := EncodeStandard(a); var n := |x|;
            && (a != [] ==> n >= 4)
            && (|a| % 3 == 0 <==> n == 0 || x[n - 1] != PAD)
            && (|a| % 3 == 1 <==> n >= 2 && x[n - 1] == PAD && x[n - 2] == PAD)
  {
    PackLength(a);
    var body := Symbols(Standard, Pack(a));
    if a != [] {
      assert body[|body| - 1] == Symbol(Standard, Pack(a)[|body| - 1]) != PAD;
    }
  }

  /** Every byte of padded base64 is printable and is neither a quote nor a backslash. */
  lemma StandardIsPlain(bytes: seq<Byte>, b: Byte)
    requires b in EncodeStandard(bytes)
    ensures 0x20 < b < 0x7F && b != 0x22 && b != 0x5C
  {
    var body := Symbols(Standard, Pack(bytes));
    if b in body {
      var i :| 0 <= i < |body| && body[i] == b;
      assert b == Symbol(Standard, Pack(bytes)[i]);
    }
  }
}
