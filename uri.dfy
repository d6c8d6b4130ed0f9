/** `encodeURIComponent` and its inverse, as the frontend uses them to put
  * a path into a query value. */
module Uri {
  import Utf8

  /** The characters `encodeURIComponent` leaves as they are. */
  predicate IsUnreserved(c: char)
  {
    ('A' <= c <= 'Z') || ('a' <= c <= 'z') || ('0' <= c <= '9') || c == '-' || c == '_' || c == '.'
    || c == '!' || c == '~' || c == '*' || c == '\'' || c == '(' || c == ')'
  }

  function HexDigit(n: nat): (c: char)
    requires n < 16
    ensures IsUnreserved(c)
  {
    "0123456789ABCDEF"[n]
  }

  function HexValue(c: char): (n: nat)
    ensures n < 16
  {
    if '0' <= c <= '9' then c as int - '0' as int
    else if 'A' <= c <= 'F' then c as int - 'A' as int + 10
    else if 'a' <= c <= 'f' then c as int - 'a' as int + 10
    else 0
  }

  lemma HexRoundTrip(n: nat)
    requires n < 16
    ensures HexValue(HexDigit(n)) == n
  {
    var d := "0123456789ABCDEF";
    assert d[n] == HexDigit(n);
    if n < 10 {
      assert d[n] as int == '0' as int + n by {
        assert d[..10] == "0123456789";
        assert forall i :: 0 <= i < 10 ==> d[i] as int == '0' as int + i;
      }
    } else {
      assert d[n] as int == 'A' as int + n - 10 by {
        assert d[10..] == "ABCDEF";
        assert forall i :: 10 <= i < 16 ==> d[i] as int == 'A' as int + i - 10;
      }
    }
  }

  /** Each byte as "%" and two upper-case hex digits. */
  function Escape(bytes: seq<Utf8.byte>): (r: string)
    ensures |r| == 3 * |bytes|
    ensures forall i :: 0 <= i < |r| ==> r[i] == '%' || IsUnreserved(r[i])
  {
    if bytes == [] then ""
    else
      var b := bytes[0] as nat;
      ['%', HexDigit(b / 16), HexDigit(b % 16)] + Escape(bytes[1..])
  }

  /** One character: itself when unreserved, else its escaped UTF-8 bytes. */
  function EncodeChar(c: char): (r: string)
    ensures forall i :: 0 <= i < |r| ==> r[i] == '%' || IsUnreserved(r[i])
  {
    if IsUnreserved(c) then [c] else Escape(Utf8.EncodeChar(c))
  }

  /** `encodeURIComponent(s)`: only unreserved characters and "%" escapes
    * remain, so the result can stand in a query value as it is. */
  function EncodeURIComponent(s: string): (r: string)
    ensures forall i :: 0 <= i < |r| ==> r[i] == '%' || IsUnreserved(r[i])
    ensures |r| >= |s|
  {
    if s == [] then "" else EncodeChar(s[0]) + EncodeURIComponent(s[1..])
  }

  /** The bytes a percent-encoded text stands for: "%XY" one byte, any
    * other character its UTF-8 bytes. */
  function PercentBytes(t: string): seq<Utf8.byte>
  {
    if t == [] then []
    else if t[0] == '%' && |t| >= 3 then [(HexValue(t[1]) * 16 + HexValue(t[2])) as Utf8.byte] + PercentBytes(t[3..])
    else Utf8.EncodeChar(t[0]) + PercentBytes(t[1..])
  }

  /** `decodeURIComponent(t)` on well-formed input. */
  function DecodeURIComponent(t: string): string
  {
    Utf8.Decode(PercentBytes(t))
  }

  lemma {:induction false} EscapeDecodes(bytes: seq<Utf8.byte>, rest: string)
    ensures PercentBytes(Escape(bytes) + rest) == bytes + PercentBytes(rest)
  {
    if bytes != [] {
      var b := bytes[0] as nat;
      var tail := Escape(bytes[1..]) + rest;
      assert Escape(bytes) + rest == ['%', HexDigit(b / 16), HexDigit(b % 16)] + tail;
      assert PercentBytes(Escape(bytes) + rest) == [bytes[0]] + PercentBytes(tail) by {
        TripleDecodes(bytes[0], tail);
      }
      assert PercentBytes(tail) == bytes[1..] + PercentBytes(rest) by {
        EscapeDecodes(bytes[1..], rest);
      }
      assert bytes == [bytes[0]] + bytes[1..];
    } else {
      assert Escape(bytes) + rest == rest;
    }
  }

  lemma TripleDecodes(b: Utf8.byte, rest: string)
    ensures PercentBytes(['%', HexDigit(b as nat / 16), HexDigit(b as nat % 16)] + rest) == [b] + PercentBytes(rest)
  {
    var n := b as nat;
    PercentTriple(HexDigit(n / 16), HexDigit(n % 16), rest);
    assert (HexValue(HexDigit(n / 16)) * 16 + HexValue(HexDigit(n % 16))) as Utf8.byte == b by {
      HexRoundTrip(n / 16);
      HexRoundTrip(n % 16);
    }
  }

  /** A '%' followed by two characters always reads as one byte. */
  lemma PercentTriple(hi: char, lo: char, rest: string)
    ensures PercentBytes(['%', hi, lo] + rest) == [(HexValue(hi) * 16 + HexValue(lo)) as Utf8.byte] + PercentBytes(rest)
  {
    var t := ['%', hi, lo] + rest;
    assert t[0] == '%' && t[1] == hi && t[2] == lo && t[3..] == rest;
    PercentStep(t);
  }

  lemma PercentStep(t: string)
    requires |t| >= 3 && t[0] == '%'
    ensures PercentBytes(t) == [(HexValue(t[1]) * 16 + HexValue(t[2])) as Utf8.byte] + PercentBytes(t[3..])
  {
  }

  lemma EncodeCharDecodes(c: char, rest: string)
    ensures PercentBytes(EncodeChar(c) + rest) == Utf8.EncodeChar(c) + PercentBytes(rest)
  {
    if IsUnreserved(c) {
      assert ([c] + rest)[1..] == rest;
    } else {
      EscapeDecodes(Utf8.EncodeChar(c), rest);
    }
  }

  /** The escapes stand for exactly the UTF-8 encoding of the text. */
  lemma {:induction false} EncodedBytes(s: string)
    ensures PercentBytes(EncodeURIComponent(s)) == Utf8.Encode(s)
  {
    if s != [] {
      EncodeCharDecodes(s[0], EncodeURIComponent(s[1..]));
      EncodedBytes(s[1..]);
    }
  }

  /** Decoding undoes encoding. */
  lemma DecodeEncode(s: string)
    ensures DecodeURIComponent(EncodeURIComponent(s)) == s
  {
    EncodedBytes(s);
    Utf8.DecodeEncode(s);
  }
}
