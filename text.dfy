/** String helpers shared by the model: prefixes, substrings, ASCII case,
  * the whitespace classes of JavaScript and Python, decimal rendering,
  * splitting and joining. */
module Text {
  import opened Wrappers

  predicate StartsWith(s: string, p: string)
  {
    |p| <= |s| && s[..|p|] == p
  }

  predicate EndsWith(s: string, p: string)
  {
    |p| <= |s| && s[|s| - |p|..] == p
  }

  /** `sub` occurs in `s` at position `i`. */
  predicate At(s: string, i: int, sub: string)
  {
    0 <= i && i + |sub| <= |s| && s[i..i + |sub|] == sub
  }

  /** Substring test (`in` in Python, `includes` in JavaScript). */
  predicate Contains(s: string, sub: string)
  {
    exists i | 0 <= i <= |s| :: At(s, i, sub)
  }

  lemma ContainsSelf(s: string)
    ensures Contains(s, s) && Contains(s, "")
  {
    assert At(s, 0, s);
    assert At(s, 0, "");
  }

  lemma ContainsInfix(a: string, sub: string, b: string)
    ensures Contains(a + sub + b, sub)
  {
    assert (a + sub + b)[|a|..|a| + |sub|] == sub;
    assert At(a + sub + b, |a|, sub);
  }

  /** `s.endswith((p1, p2, ...))`: `s` ends with one of the suffixes. */
  predicate EndsWithAny(s: string, suffixes: seq<string>)
  {
    exists i | 0 <= i < |suffixes| :: EndsWith(s, suffixes[i])
  }

  lemma EndsWithAnyAppend(s: string, suffixes: seq<string>, x: string)
    ensures EndsWithAny(s, suffixes + [x]) <==> EndsWithAny(s, suffixes) || EndsWith(s, x)
  {
    if EndsWithAny(s, suffixes) {
      var i :| 0 <= i < |suffixes| && EndsWith(s, suffixes[i]);
      assert (suffixes + [x])[i] == suffixes[i];
    }
    if EndsWithAny(s, suffixes + [x]) {
      var i :| 0 <= i < |suffixes| + 1 && EndsWith(s, (suffixes + [x])[i]);
      if i < |suffixes| {
        assert (suffixes + [x])[i] == suffixes[i];
      }
    }
    if EndsWith(s, x) {
      assert (suffixes + [x])[|suffixes|] == x;
    }
  }

  /** Two endings of one string agree on their last `k` characters, so a
    * string cannot end with two endings whose tails differ. */
  lemma EndingsAgree(s: string, a: string, b: string, k: nat)
    requires EndsWith(s, b) && k <= |a| && k <= |b|
    ensures EndsWith(s, a) ==> a[|a| - k..] == b[|b| - k..]
  {
    if EndsWith(s, a) {
      assert a[|a| - k..] == s[|s| - k..];
      assert b[|b| - k..] == s[|s| - k..];
    }
  }

  /** The first position at or after `i` where `sub` occurs in `s`
    * (`s.find(sub, i)`), or `None`. */
  function FindFrom(s: string, sub: string, i: nat): (r: Option<nat>)
    ensures r.Some? ==> i <= r.value && At(s, r.value, sub)
    ensures r.Some? ==> forall j :: i <= j < r.value ==> !At(s, j, sub)
    ensures r.None? ==> forall j :: i <= j ==> !At(s, j, sub)
    decreases |s| - i
  {
    if i + |sub| > |s| then None
    else if At(s, i, sub) then Some(i)
    else FindFrom(s, sub, i + 1)
  }

  function LowerChar(c: char): char
  {
    if 'A' <= c <= 'Z' then (c as int + 32) as char else c
  }

  /** Lower-casing, for the ASCII letters. */
  function Lower(s: string): (r: string)
    ensures |r| == |s|
    ensures forall i :: 0 <= i < |s| ==> r[i] == LowerChar(s[i])
  {
    if s == [] then [] else [LowerChar(s[0])] + Lower(s[1..])
  }

  /** White space as JavaScript's `String.prototype.trim` sees it. */
  predicate IsJsSpace(c: char)
  {
    c == ' ' || c == '\t' || c == '\n' || c == '\r' || c == '\U{000B}' || c == '\U{000C}'
    || c == '\U{00A0}' || c == '\U{1680}' || ('\U{2000}' <= c <= '\U{200A}')
    || c == '\U{2028}' || c == '\U{2029}' || c == '\U{202F}' || c == '\U{205F}'
    || c == '\U{3000}' || c == '\U{FEFF}'
  }

  /** White space as Python's `str.strip` and `str.split()` see it. */
  predicate IsPySpace(c: char)
  {
    c == ' ' || c == '\t' || c == '\n' || c == '\r' || c == '\U{000B}' || c == '\U{000C}'
    || ('\U{001C}' <= c <= '\U{001F}') || c == '\U{0085}' || c == '\U{00A0}' || c == '\U{1680}'
    || ('\U{2000}' <= c <= '\U{200A}') || c == '\U{2028}' || c == '\U{2029}' || c == '\U{202F}'
    || c == '\U{205F}' || c == '\U{3000}'
  }

  function TrimStart(s: string, sp: char -> bool): (r: string)
    ensures |r| <= |s| && r == s[|s| - |r|..]
    ensures r == [] || !sp(r[0])
  {
    if s != [] && sp(s[0]) then TrimStart(s[1..], sp) else s
  }

  function TrimEnd(s: string, sp: char -> bool): (r: string)
    ensures |r| <= |s| && r == s[..|r|]
    ensures r == [] || !sp(r[|r| - 1])
  {
    if s != [] && sp(s[|s| - 1]) then TrimEnd(s[..|s| - 1], sp) else s
  }

  /** Removes leading and trailing characters of the class `sp`: the result
    * is an infix of `s` that neither starts nor ends with such a character. */
  function Trim(s: string, sp: char -> bool): (r: string)
    ensures |r| <= |s|
    ensures Contains(s, r)
    ensures r == [] || (!sp(r[0]) && !sp(r[|r| - 1]))
  {
    var a := TrimStart(s, sp);
    var r := TrimEnd(a, sp);
    assert r == s[|s| - |a|..][..|r|] == s[|s| - |a|..|s| - |a| + |r|];
    assert At(s, |s| - |a|, r);
    r
  }

  /** JavaScript `s.trim()`. */
  function JsTrim(s: string): string { Trim(s, IsJsSpace) }

  /** Python `s.strip()`. */
  function PyStrip(s: string): string { Trim(s, IsPySpace) }

  lemma TrimStartFixed(s: string, sp: char -> bool)
    requires s == [] || !sp(s[0])
    ensures TrimStart(s, sp) == s
  {
  }

  lemma TrimEndFixed(s: string, sp: char -> bool)
    requires s == [] || !sp(s[|s| - 1])
    ensures TrimEnd(s, sp) == s
  {
  }

  /** Trimming twice is trimming once. */
  lemma TrimIdempotent(s: string, sp: char -> bool)
    ensures Trim(Trim(s, sp), sp) == Trim(s, sp)
  {
    var r := Trim(s, sp);
    TrimStartFixed(r, sp);
    TrimEndFixed(r, sp);
  }

  /** A string made only of characters of the class `sp` trims to "". */
  lemma {:induction false} TrimAllSpace(s: string, sp: char -> bool)
    requires forall i :: 0 <= i < |s| ==> sp(s[i])
    ensures Trim(s, sp) == ""
  {
    if s != [] {
      assert forall i :: 0 <= i < |s[1..]| ==> sp(s[1..][i]);
      TrimAllSpace(s[1..], sp);
      assert TrimStart(s, sp) == TrimStart(s[1..], sp);
    }
  }

  /** A string that neither starts nor ends with a character of `sp` is
    * its own trim. */
  lemma TrimFixed(s: string, sp: char -> bool)
    requires s == [] || (!sp(s[0]) && !sp(s[|s| - 1]))
    ensures Trim(s, sp) == s
  {
    TrimStartFixed(s, sp);
    TrimEndFixed(s, sp);
  }

  lemma TrimStartKeeps(s: string, sp: char -> bool, c: char)
    requires c in s && !sp(c)
    ensures c in TrimStart(s, sp)
  {
    if s[0] != c && sp(s[0]) {
      assert c in s[1..];
      TrimStartKeeps(s[1..], sp, c);
    }
  }

  lemma TrimEndKeeps(s: string, sp: char -> bool, c: char)
    requires c in s && !sp(c)
    ensures c in TrimEnd(s, sp)
  {
    if s[|s| - 1] != c && sp(s[|s| - 1]) {
      assert c in s[..|s| - 1];
      TrimEndKeeps(s[..|s| - 1], sp, c);
    }
  }

  /** Trimming only removes characters of the class `sp`. */
  lemma TrimKeeps(s: string, sp: char -> bool, c: char)
    requires c in s && !sp(c)
    ensures c in Trim(s, sp)
  {
    TrimStartKeeps(s, sp, c);
    TrimEndKeeps(TrimStart(s, sp), sp, c);
  }

  function DigitChar(d: nat): char
    requires d < 10
  {
    "0123456789"[d]
  }

  /** The decimal rendering of a natural number (`String(n)`, `str(n)`). */
  function NatToString(n: nat): (r: string)
    ensures |r| >= 1
    ensures forall i :: 0 <= i < |r| ==> '0' <= r[i] <= '9'
    ensures r[0] == '0' ==> n == 0
  {
    if n < 10 then [DigitChar(n)] else NatToString(n / 10) + [DigitChar(n % 10)]
  }

  function IntToString(n: int): (r: string)
    ensures |r| >= 1
    ensures forall i :: 0 <= i < |r| ==> r[i] == '-' || '0' <= r[i] <= '9'
  {
    if n < 0 then "-" + NatToString(-n) else NatToString(n)
  }

  function DigitValue(c: char): nat
  {
    if '0' <= c <= '9' then c as int - '0' as int else 0
  }

  /** Reads back a decimal rendering. */
  function ParseNat(s: string): nat
  {
    if s == [] then 0 else ParseNat(s[..|s| - 1]) * 10 + DigitValue(s[|s| - 1])
  }

  /** Rendering is undone by parsing, so distinct numbers render differently. */
  lemma DigitRoundTrip(d: nat)
    requires d < 10
    ensures DigitValue(DigitChar(d)) == d
  {
    if d == 0 {} else if d == 1 {} else if d == 2 {} else if d == 3 {} else if d == 4 {}
    else if d == 5 {} else if d == 6 {} else if d == 7 {} else if d == 8 {} else {}
  }

  lemma {:induction false} NatToStringRoundTrip(n: nat)
    ensures ParseNat(NatToString(n)) == n
  {
    if n < 10 {
      DigitRoundTrip(n);
    } else {
      var p := NatToString(n / 10);
      var r := p + [DigitChar(n % 10)];
      assert NatToString(n) == r;
      assert r[..|r| - 1] == p;
      DigitRoundTrip(n % 10);
      NatToStringRoundTrip(n / 10);
      assert ParseNat(r) == ParseNat(p) * 10 + n % 10;
    }
  }

  lemma NatToStringInjective(m: nat, n: nat)
    requires NatToString(m) == NatToString(n)
    ensures m == n
  {
    NatToStringRoundTrip(m);
    NatToStringRoundTrip(n);
  }

  /** Joins `parts` with `sep` between consecutive parts. */
  function Join(parts: seq<string>, sep: string): string
  {
    if parts == [] then ""
    else if |parts| == 1 then parts[0]
    else parts[0] + sep + Join(parts[1..], sep)
  }

  /** Splits `s` at every occurrence of `c`, as JavaScript's `s.split(c)` and
    * Python's `s.split(c)` both do: joining the pieces back with `c` gives
    * `s`, and no piece contains `c`. */
  function Split(s: string, c: char): (r: seq<string>)
    ensures |r| >= 1
    ensures Join(r, [c]) == s
    ensures forall i :: 0 <= i < |r| ==> c !in r[i]
  {
    if c !in s then [s]
    else
      var k := IndexOf(s, c);
      var rest := Split(s[k + 1..], c);
      assert s == s[..k] + [c] + s[k + 1..];
      [s[..k]] + rest
  }

  /** The first position of `c` in `s`, or |s| when there is none. */
  function IndexOf(s: string, c: char): (k: nat)
    ensures k <= |s|
    ensures k < |s| <==> c in s
    ensures k < |s| ==> s[k] == c
    ensures c !in s[..k]
  {
    if s == [] then 0 else if s[0] == c then 0 else 1 + IndexOf(s[1..], c)
  }

  /** `s.split(c, 1)` / `s.split(c, 1)[1]`: the text before and after the
    * first `c`, when `s` contains `c`. */
  function SplitFirst(s: string, c: char): (r: (string, string))
    requires c in s
    ensures s == r.0 + [c] + r.1
    ensures c !in r.0
  {
    var k := IndexOf(s, c);
    assert s == s[..k] + [c] + s[k + 1..];
    (s[..k], s[k + 1..])
  }

  /** When the first `c` in `s` is at `k`, `s.split(c, 1)` cuts there. */
  lemma SplitFirstAt(s: string, c: char, k: nat)
    requires k < |s| && s[k] == c && c !in s[..k]
    ensures SplitFirst(s, c) == (s[..k], s[k + 1..])
  {
    var r := SplitFirst(s, c);
    assert r.0 == s[..|r.0|] && s[|r.0|] == c;
    assert forall j :: 0 <= j < |r.0| ==> s[j] == r.0[j] != c;
    assert forall j :: 0 <= j < k ==> s[j] == s[..k][j] != c;
    assert r.0 == s[..k];
  }
}
