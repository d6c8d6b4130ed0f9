/** UTF-8, as Python's `str.encode("utf-8")` produces it. */
module Utf8 {
  newtype byte = x: int | 0 <= x < 256

  /** The code point of a character is a Unicode scalar value. */
  predicate IsScalar(v: int)
  {
    (0 <= v < 0xD800) || (0xE000 <= v < 0x11_0000)
  }

  /** The one to four bytes of a character. */
  function EncodeChar(c: char): (r: seq<byte>)
    ensures 1 <= |r| <= 4
    ensures |r| == 1 <==> c as int < 0x80
    ensures |r| == 1 ==> r[0] as int == c as int
  {
    var v := c as int;
    if v < 0x80 then [v as byte]
    else if v < 0x800 then [(0xC0 + v / 64) as byte, (0x80 + v % 64) as byte]
    else if v < 0x1_0000 then
      [(0xE0 + v / 4096) as byte, (0x80 + (v / 64) % 64) as byte, (0x80 + v % 64) as byte]
    else
      [(0xF0 + v / 262144) as byte, (0x80 + (v / 4096) % 64) as byte,
       (0x80 + (v / 64) % 64) as byte, (0x80 + v % 64) as byte]
  }

  /** `s.encode("utf-8")`. */
  function Encode(s: string): (r: seq<byte>)
    ensures |r| >= |s|
    ensures s == [] <==> r == []
  {
    if s == [] then [] else EncodeChar(s[0]) + Encode(s[1..])
  }

  /** Reads back one character from the front of `b`, as a decoder does
    * for well-formed input: the length comes from the lead byte. */
  function DecodeStep(b: seq<byte>): (r: (string, nat))
    requires b != []
    ensures 1 <= r.1 <= |b|
  {
    var b0 := b[0] as int;
    var n := if b0 < 0xC0 then 1 else if b0 < 0xE0 then 2 else if b0 < 0xF0 then 3 else 4;
    if n > |b| then ([], 1)
    else
      var v :=
        if n == 1 then b0
        else if n == 2 then (b0 - 0xC0) * 64 + (b[1] as int - 0x80)
        else if n == 3 then (b0 - 0xE0) * 4096 + (b[1] as int - 0x80) * 64 + (b[2] as int - 0x80)
        else (b0 - 0xF0) * 262144 + (b[1] as int - 0x80) * 4096 + (b[2] as int - 0x80) * 64 + (b[3] as int - 0x80);
      (if IsScalar(v) then [v as char] else [], n)
  }

  /** The decoder used to show that encoding loses nothing. */
  function Decode(b: seq<byte>): string
    decreases |b|
  {
    if b == [] then [] else var (c, n) := DecodeStep(b); c + Decode(b[n..])
  }

  lemma Digits3(v: int)
    requires 0x800 <= v < 0x1_0000
    ensures 0xE0 <= 0xE0 + v / 4096 < 0xF0
    ensures (v / 4096) * 4096 + ((v / 64) % 64) * 64 + v % 64 == v
  {
    var a, r := v / 4096, v % 4096;
    assert v == 4096 * a + r;
    assert v / 64 == 64 * a + r / 64;
    assert (v / 64) % 64 == r / 64;
  }

  lemma Digits4(v: int)
    requires 0x1_0000 <= v < 0x11_0000
    ensures 0xF0 <= 0xF0 + v / 262144 < 0x100
    ensures (v / 262144) * 262144 + ((v / 4096) % 64) * 4096 + ((v / 64) % 64) * 64 + v % 64 == v
  {
    var a, r := v / 262144, v % 262144;
    var m, q := r / 4096, r % 4096;
    assert v == 262144 * a + 4096 * m + q;
    assert v / 4096 == 64 * a + m;
    assert (v / 4096) % 64 == m;
    assert v / 64 == 4096 * a + 64 * m + q / 64;
    assert (v / 64) % 64 == q / 64;
  }

  lemma DecodeChar(c: char, rest: seq<byte>)
    ensures DecodeStep(EncodeChar(c) + rest) == ([c], |EncodeChar(c)|)
  {
    var v := c as int;
    var b := EncodeChar(c) + rest;
    if 0x800 <= v < 0x1_0000 {
      Digits3(v);
      assert b[0] as int == 0xE0 + v / 4096;
    } else if v >= 0x1_0000 {
      Digits4(v);
      assert b[0] as int == 0xF0 + v / 262144;
    }
  }

  /** Decoding the encoding gives the text back, so distinct texts have
    * distinct encodings. */
  lemma {:induction false} DecodeEncode(s: string)
    ensures Decode(Encode(s)) == s
  {
    if s != [] {
      var e := EncodeChar(s[0]);
      DecodeChar(s[0], Encode(s[1..]));
      assert (e + Encode(s[1..]))[|e|..] == Encode(s[1..]);
      DecodeEncode(s[1..]);
    }
  }

  lemma EncodeInjective(s: string, t: string)
    requires Encode(s) == Encode(t)
    ensures s == t
  {
    DecodeEncode(s);
    DecodeEncode(t);
  }

  /** Encoding distributes over concatenation. */
  lemma {:induction false} EncodeConcat(s: string, t: string)
    ensures Encode(s + t) == Encode(s) + Encode(t)
  {
    if s == [] {
      assert s + t == t;
    } else {
      assert (s + t)[0] == s[0];
      assert (s + t)[1..] == s[1..] + t;
      EncodeConcat(s[1..], t);
    }
  }
}
