/** Text operations shared by the models: ASCII case folding, substring search,
    Python's `strip()`, slicing, joining and decimal rendering. */
module Strings {

  /** ASCII lower-casing of one character (stands for Python's `str.lower`). */
  function LowerChar(c: char): char
  {
    if 'A' <= c <= 'Z' then (c as int + 32) as char else c
  }

  function Lower(s: string): (r: string)
    ensures |r| == |s|
    ensures forall i :: 0 <= i < |s| ==> r[i] == LowerChar(s[i])
  {
    seq(|s|, i requires 0 <= i < |s| => LowerChar(s[i]))
  }

  predicate IsPrefix(p: string, s: string)
  {
    |p| <= |s| && s[..|p|] == p
  }

  /** `p in s` on Python strings (and `includes` in JavaScript). */
  predicate Contains(s: string, p: string)
  {
    exists i :: 0 <= i <= |s| && IsPrefix(p, s[i..])
  }

  /** `x` occurs in any string that is spliced around it. */
  lemma ContainsSplice(a: string, x: string, b: string)
    ensures Contains(a + x + b, x)
  {
    var s := a + x + b;
    assert s[|a|..][..|x|] == x;
    assert IsPrefix(x, s[|a|..]);
  }

  /** Case folding commutes with taking a substring: what the folded piece
      contains, the folded whole contains. */
  lemma LowerContains(s: string, piece: string, p: string)
    requires Contains(s, piece) && Contains(Lower(piece), p)
    ensures Contains(Lower(s), p)
  {
    var i :| 0 <= i <= |s| && IsPrefix(piece, s[i..]);
    var j :| 0 <= j <= |piece| && IsPrefix(p, Lower(piece)[j..]);
    forall m | 0 <= m < |p|
      ensures Lower(s)[i + j..][..|p|][m] == p[m]
    {
      assert s[i..][..|piece|][j + m] == piece[j + m];
      assert Lower(piece)[j..][..|p|][m] == p[m];
    }
    assert Lower(s)[i + j..][..|p|] == p;
  }

  /** The characters Python's `str.isspace` accepts, which `strip()` removes. */
  predicate IsSpace(c: char)
  {
    || c == ' ' || '\t' <= c <= '\r' || '\U{1c}' <= c <= '\U{1f}'
    || c == '\U{85}' || c == '\U{a0}' || c == '\U{1680}'
    || '\U{2000}' <= c <= '\U{200a}' || c == '\U{2028}' || c == '\U{2029}'
    || c == '\U{202f}' || c == '\U{205f}' || c == '\U{3000}'
  }

  function TrimStart(s: string): (r: string)
    ensures |r| <= |s| && r == s[|s| - |r|..]
    ensures r != [] ==> !IsSpace(r[0])
  {
    if s != [] && IsSpace(s[0]) then TrimStart(s[1..]) else s
  }

  function TrimEnd(s: string): (r: string)
    ensures |r| <= |s| && r == s[..|r|]
    ensures r != [] ==> !IsSpace(r[|r| - 1])
  {
    if s != [] && IsSpace(s[|s| - 1]) then TrimEnd(s[..|s| - 1]) else s
  }

  /** Python's `str.strip()` with no argument. */
  function Strip(s: string): string
  {
    TrimEnd(TrimStart(s))
  }

  /** Python's slice `s[:n]` for `n >= 0`. */
  function Take<T>(s: seq<T>, n: nat): (r: seq<T>)
    ensures |r| == if |s| <= n then |s| else n
    ensures r == s[..|r|]
  {
    if |s| <= n then s else s[..n]
  }

  /** Python's `sep.join(parts)`. */
  function Join(sep: string, parts: seq<string>): string
  {
    if parts == [] then ""
    else if |parts| == 1 then parts[0]
    else parts[0] + sep + Join(sep, parts[1..])
  }

  function DigitChar(d: nat): char
    requires d < 10
  {
    ('0' as int + d) as char
  }

  /** Decimal rendering of a natural number, as `str(n)` and template literals give it. */
  function NatToString(n: nat): (r: string)
    ensures r != [] && '0' <= r[0] <= '9'
  {
    if n < 10 then [DigitChar(n)] else NatToString(n / 10) + [DigitChar(n % 10)]
  }

  function IntToString(n: int): string
  {
    if n < 0 then "-" + NatToString(-n) else NatToString(n)
  }
}
