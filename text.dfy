/** Python string behaviour the chat pipeline relies on: substring tests, joining,
    integer formatting, `str.strip()`, `str.split(":")[0]` and slicing. */
module Text {

  /** `m` occurs in `s` starting at position `i`. */
  predicate OccursAt(s: string, m: string, i: int) {
    0 <= i <= |s| - |m| && s[i..i + |m|] == m
  }

  /** `m in s`: `m` occurs as a contiguous slice of `s`. */
  ghost predicate Contains(s: string, m: string) {
    exists i :: OccursAt(s, m, i)
  }

  predicate IsPrefix(p: string, s: string) {
    |p| <= |s| && s[..|p|] == p
  }

  predicate IsSuffix(t: string, s: string) {
    |t| <= |s| && s[|s| - |t|..] == t
  }

  lemma ContainsLeft(a: string, b: string, m: string)
    requires Contains(a, m)
    ensures Contains(a + b, m)
  {
    var i :| OccursAt(a, m, i);
    assert (a + b)[i..i + |m|] == a[i..i + |m|];
    assert OccursAt(a + b, m, i);
  }

  lemma ContainsRight(a: string, b: string, m: string)
    requires Contains(b, m)
    ensures Contains(a + b, m)
  {
    var i :| OccursAt(b, m, i);
    assert (a + b)[|a| + i..|a| + i + |m|] == b[i..i + |m|];
    assert OccursAt(a + b, m, |a| + i);
  }

  lemma ContainsSelf(s: string)
    ensures Contains(s, s)
  {
    assert s[0..|s|] == s;
    assert OccursAt(s, s, 0);
  }

  /** A substring of a substring of `s` is a substring of `s`. */
  lemma ContainsTransitive(s: string, m: string, n: string)
    requires Contains(s, m) && Contains(m, n)
    ensures Contains(s, n)
  {
    var i :| OccursAt(s, m, i);
    var j :| OccursAt(m, n, j);
    forall k | 0 <= k < |n|
      ensures s[i + j + k] == n[k]
    {
      assert s[i..i + |m|][j + k] == m[j + k];
      assert m[j..j + |n|][k] == n[k];
    }
    assert s[i + j..i + j + |n|] == n;
    assert OccursAt(s, n, i + j);
  }

  /** Python's `s[:n]`: the first `n` characters, or the whole of `s` when it is shorter. */
  function Take(s: string, n: nat): (r: string)
    ensures |r| <= n && IsPrefix(r, s)
    ensures |s| <= n ==> r == s
  {
    if |s| <= n then s else s[..n]
  }

  /** `"".join(parts)`, read left to right as the source's `+=` loops build it. */
  function Concat(parts: seq<string>): string {
    if parts == [] then "" else Concat(parts[..|parts| - 1]) + parts[|parts| - 1]
  }

  lemma ConcatSnoc(parts: seq<string>, last: string)
    ensures Concat(parts + [last]) == Concat(parts) + last
  {
    assert (parts + [last])[..|parts|] == parts;
  }

  /** Appending the next part to `prefix` followed by the first `i` parts joined. */
  lemma ConcatStep(prefix: string, parts: seq<string>, i: nat)
    requires i < |parts|
    ensures prefix + Concat(parts[..i]) + parts[i] == prefix + Concat(parts[..i + 1])
  {
    assert parts[..i + 1] == parts[..i] + [parts[i]];
    ConcatSnoc(parts[..i], parts[i]);
    assert prefix + Concat(parts[..i]) + parts[i] == prefix + (Concat(parts[..i]) + parts[i]);
  }

  /** Joining the first `n` parts gives a prefix of joining them all. */
  lemma {:induction false} ConcatPrefix(parts: seq<string>, n: nat)
    requires n <= |parts|
    ensures IsPrefix(Concat(parts[..n]), Concat(parts))
  {
    if n < |parts| {
      var m := |parts| - 1;
      assert parts[..m][..n] == parts[..n];
      ConcatPrefix(parts[..m], n);
    } else {
      assert parts[..n] == parts;
    }
  }

  /** Part `i` occurs in the joined text right after the parts before it. */
  lemma ConcatOccursAt(parts: seq<string>, i: nat)
    requires i < |parts|
    ensures OccursAt(Concat(parts), parts[i], |Concat(parts[..i])|)
  {
    ConcatPrefix(parts, i + 1);
    assert parts[..i + 1][..i] == parts[..i];
    var k := |Concat(parts[..i])|;
    var whole := Concat(parts);
    assert whole[..k + |parts[i]|] == Concat(parts[..i]) + parts[i];
    assert whole[k..k + |parts[i]|] == whole[..k + |parts[i]|][k..];
  }

  /** The same, after a fixed `prefix`. */
  lemma PrefixedConcatOccursAt(prefix: string, parts: seq<string>, i: nat)
    requires i < |parts|
    ensures OccursAt(prefix + Concat(parts), parts[i], |prefix| + |Concat(parts[..i])|)
  {
    ConcatOccursAt(parts, i);
    var k := |Concat(parts[..i])|;
    assert (prefix + Concat(parts))[|prefix| + k..|prefix| + k + |parts[i]|] == Concat(parts)[k..k + |parts[i]|];
  }

  /** Every part is a substring of the joined text. */
  lemma {:induction false} ConcatContainsEach(parts: seq<string>, k: nat)
    requires k < |parts|
    ensures Contains(Concat(parts), parts[k])
  {
    var n := |parts| - 1;
    if k == n {
      ContainsSelf(parts[n]);
      ContainsRight(Concat(parts[..n]), parts[n], parts[k]);
    } else {
      assert parts[..n][k] == parts[k];
      ConcatContainsEach(parts[..n], k);
      ContainsLeft(Concat(parts[..n]), parts[n], parts[k]);
    }
  }

  /** Joining `n` parts of at most `bound` characters each gives at most `n * bound`. */
  lemma {:induction false} ConcatLengthBound(parts: seq<string>, bound: nat)
    requires forall k :: 0 <= k < |parts| ==> |parts[k]| <= bound
    ensures |Concat(parts)| <= |parts| * bound
  {
    if parts != [] {
      var n := |parts| - 1;
      ConcatLengthBound(parts[..n], bound);
      assert |Concat(parts)| <= n * bound + bound;
      assert n * bound + bound == |parts| * bound;
    }
  }

  /** If `m` begins with a character that neither `a` nor `b` holds, has no newline,
      and `b` begins with a newline, then `m` can occur in `a + q + b` only inside `q`. */
  /** The three parts of `a + b + c` sit at the front, at offset `|a|` and at the end. */
  lemma Framed(a: string, b: string, c: string)
    ensures IsPrefix(a, a + b + c) && OccursAt(a + b + c, b, |a|) && IsSuffix(c, a + b + c)
  {
    var s := a + b + c;
    assert s[..|a|] == a;
    assert s[|a|..|a| + |b|] == b;
    assert s[|s| - |c|..] == c;
  }

  lemma NotInFrame(a: string, q: string, b: string, m: string)
    requires |m| > 0 && m[0] !in a && m[0] !in b && '\n' !in m
    requires |b| > 0 && b[0] == '\n'
    requires !Contains(q, m)
    ensures !Contains(a + q + b, m)
  {
    var s := a + q + b;
    forall i | 0 <= i <= |s| - |m|
      ensures !OccursAt(s, m, i)
    {
      if i < |a| {
        assert s[i..i + |m|][0] == a[i];
      } else if i >= |a| + |q| {
        assert s[i..i + |m|][0] == b[i - |a| - |q|];
      } else if i + |m| > |a| + |q| {
        var p := |a| + |q| - i;
        assert s[i..i + |m|][p] == s[|a| + |q|] == b[0];
      } else {
        assert s[i..i + |m|] == q[i - |a|..i - |a| + |m|];
        assert !OccursAt(q, m, i - |a|);
      }
    }
  }

  function DigitChar(d: nat): (c: char)
    requires d < 10
    ensures '0' <= c <= '9'
  {
    "0123456789"[d]
  }

  /** `str(n)` for a non-negative integer: decimal digits, most significant first. */
  function NatToString(n: nat): (r: string)
    ensures |r| > 0
    ensures forall k :: 0 <= k < |r| ==> '0' <= r[k] <= '9'
    ensures |r| > 1 ==> r[0] != '0'
    ensures n < 10 <==> |r| == 1
  {
    if n < 10 then [DigitChar(n)] else NatToString(n / 10) + [DigitChar(n % 10)]
  }

  /** Reads a string of decimal digits back as a number: the inverse of NatToString. */
  predicate AllDigits(s: string) {
    forall k :: 0 <= k < |s| ==> '0' <= s[k] <= '9'
  }

  function ParseDigits(s: string): nat
    requires AllDigits(s)
  {
    if s == [] then 0
    else ParseDigits(s[..|s| - 1]) * 10 + ((s[|s| - 1] as int) - ('0' as int))
  }

  lemma {:induction false} NatToStringRoundTrip(n: nat)
    ensures ParseDigits(NatToString(n)) == n
  {
    if n >= 10 {
      var r := NatToString(n);
      var init := NatToString(n / 10);
      assert r[..|r| - 1] == init;
      NatToStringRoundTrip(n / 10);
    }
  }

  /** A character that Python's `str.strip()` removes (`str.isspace()`). */
  predicate IsSpace(c: char) {
    var n := c as int;
    (9 <= n <= 13) || (0x1C <= n <= 0x20) || n == 0x85 || n == 0xA0 || n == 0x1680
    || (0x2000 <= n <= 0x200A) || n == 0x2028 || n == 0x2029 || n == 0x202F
    || n == 0x205F || n == 0x3000
  }

  function TrimStart(s: string): (r: string)
    ensures IsSuffix(r, s)
    ensures r == [] || !IsSpace(r[0])
    ensures forall k :: 0 <= k < |s| - |r| ==> IsSpace(s[k])
  {
    if s != [] && IsSpace(s[0]) then TrimStart(s[1..]) else s
  }

  function TrimEnd(s: string): (r: string)
    ensures IsPrefix(r, s)
    ensures r == [] || !IsSpace(r[|r| - 1])
    ensures forall k :: |r| <= k < |s| ==> IsSpace(s[k])
  {
    if s != [] && IsSpace(s[|s| - 1]) then TrimEnd(s[..|s| - 1]) else s
  }

  /** `r` is `s` with only whitespace cut before position `i` and after `r`. */
  predicate StrippedAt(s: string, r: string, i: int) {
    OccursAt(s, r, i)
    && (forall k :: 0 <= k < i ==> IsSpace(s[k]))
    && (forall k :: i + |r| <= k < |s| ==> IsSpace(s[k]))
  }

  /** `s.strip()`: drops leading and trailing whitespace and keeps the middle. */
  function Strip(s: string): (r: string)
    ensures r == [] || (!IsSpace(r[0]) && !IsSpace(r[|r| - 1]))
    ensures exists i :: StrippedAt(s, r, i)
  {
    var t := TrimStart(s);
    var r := TrimEnd(t);
    var i := |s| - |t|;
    assert t == s[i..];
    assert s[i..i + |r|] == r;
    forall k | i + |r| <= k < |s|
      ensures IsSpace(s[k])
    {
      assert s[k] == t[k - i];
    }
    assert StrippedAt(s, r, i);
    r
  }

  lemma StripIdempotent(s: string)
    ensures Strip(Strip(s)) == Strip(s)
  {
    var r := Strip(s);
    assert TrimStart(r) == r;
    assert TrimEnd(r) == r;
  }

  /** `s.split(":")[0]`: the part of `s` before its first colon, or all of `s`. */
  function BeforeColon(s: string): (r: string)
    ensures ':' !in r
    ensures IsPrefix(r, s)
    ensures |r| < |s| ==> s[|r|] == ':'
  {
    if s == [] || s[0] == ':' then [] else [s[0]] + BeforeColon(s[1..])
  }
}
