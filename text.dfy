/** The JavaScript string operations the application relies on, over `seq<char>`:
    `String.prototype.trim`, `includes`, `replace` with a string pattern, a global
    replace of a literal, `Array.prototype.join`, decimal rendering of integers and
    the decimal value of a run of ASCII digits (`parseInt(_, 10)`).
 */
module Text {
  import opened Outcomes

  /** The code points ECMAScript classifies as WhiteSpace or LineTerminator:
      exactly the characters `trim` removes from both ends. */
  predicate IsSpace(c: char) {
    || c == '\t' || c == '\n' || c == '\U{B}' || c == '\U{C}' || c == '\r' || c == ' '
    || c == '\U{A0}' || c == '\U{1680}' || ('\U{2000}' <= c <= '\U{200A}')
    || c == '\U{2028}' || c == '\U{2029}' || c == '\U{202F}' || c == '\U{205F}'
    || c == '\U{3000}' || c == '\U{FEFF}'
  }

  predicate AllSpace(s: string) {
    forall i :: 0 <= i < |s| ==> IsSpace(s[i])
  }

  /** Neither end of `s` is whitespace. */
  predicate IsTrimmed(s: string) {
    s == [] || (!IsSpace(s[0]) && !IsSpace(s[|s| - 1]))
  }

  /** `r` sits in `s` at offset `k` with only whitespace around it. */
  predicate Surrounds(s: string, r: string, k: int) {
    && 0 <= k && k + |r| <= |s| && s[k..k + |r|] == r
    && (forall i :: 0 <= i < k ==> IsSpace(s[i]))
    && (forall i :: k + |r| <= i < |s| ==> IsSpace(s[i]))
  }

  /** `s` without its leading whitespace. */
  function TrimStart(s: string): (r: string)
    ensures |r| <= |s|
    ensures r == [] || !IsSpace(r[0])
    ensures forall i :: 0 <= i < |s| - |r| ==> IsSpace(s[i])
    decreases |s|
  {
    if |s| > 0 && IsSpace(s[0]) then TrimStart(s[1..]) else s
  }

  /** `s` without its trailing whitespace. */
  function TrimEnd(s: string): (r: string)
    ensures |r| <= |s|
    ensures r == [] || !IsSpace(r[|r| - 1])
    ensures forall i :: |r| <= i < |s| ==> IsSpace(s[i])
    decreases |s|
  {
    if |s| > 0 && IsSpace(s[|s| - 1]) then TrimEnd(s[..|s| - 1]) else s
  }

  /** What TrimStart keeps is a suffix of its input. */
  lemma {:induction false} TrimStartIsSuffix(s: string)
    ensures TrimStart(s) == s[|s| - |TrimStart(s)|..]
    decreases |s|
  {
    if |s| > 0 && IsSpace(s[0]) {
      TrimStartIsSuffix(s[1..]);
      assert s[1..][|s| - 1 - |TrimStart(s)|..] == s[|s| - |TrimStart(s)|..];
    }
  }

  /** What TrimEnd keeps is a prefix of its input. */
  lemma {:induction false} TrimEndIsPrefix(s: string)
    ensures TrimEnd(s) == s[..|TrimEnd(s)|]
    decreases |s|
  {
    if |s| > 0 && IsSpace(s[|s| - 1]) {
      TrimEndIsPrefix(s[..|s| - 1]);
      assert s[..|s| - 1][..|TrimEnd(s)|] == s[..|TrimEnd(s)|];
    }
  }

  /** A string is what TrimEnd keeps followed by whitespace. */
  lemma TrimEndSplits(s: string)
    ensures s == TrimEnd(s) + s[|TrimEnd(s)|..]
    ensures AllSpace(s[|TrimEnd(s)|..])
  {
    TrimEndIsPrefix(s);
    var e := TrimEnd(s);
    forall i | 0 <= i < |s| - |e| ensures IsSpace(s[|e|..][i]) {
      assert s[|e|..][i] == s[|e| + i];
    }
  }

  /** `String.prototype.trim`. */
  function Trim(s: string): (r: string)
    ensures IsTrimmed(r) && |r| <= |s|
  {
    var t := TrimStart(s);
    TrimEndIsPrefix(t);
    assert |TrimEnd(t)| > 0 ==> TrimEnd(t)[0] == t[0];
    TrimEnd(t)
  }

  /** A string padded with whitespace on both sides surrounds it. */
  lemma SurroundsPadded(a: string, r: string, b: string)
    requires AllSpace(a) && AllSpace(b)
    ensures Surrounds(a + r + b, r, |a|)
  {
    var w := a + r + b;
    assert w[|a|..|a| + |r|] == r;
    forall i | 0 <= i < |a| ensures IsSpace(w[i]) {
      assert w[i] == a[i];
    }
    forall i | |a| + |r| <= i < |w| ensures IsSpace(w[i]) {
      assert w[i] == b[i - |a| - |r|];
    }
  }

  lemma Halves(s: string, k: nat)
    requires k <= |s|
    ensures s == s[..k] + s[k..]
  {
  }

  /** A string is whitespace followed by what TrimStart keeps. */
  lemma TrimStartSplits(s: string)
    ensures s == s[..|s| - |TrimStart(s)|] + TrimStart(s)
    ensures AllSpace(s[..|s| - |TrimStart(s)|])
  {
    TrimStartIsSuffix(s);
    var k := |s| - |TrimStart(s)|;
    Halves(s, k);
    forall i | 0 <= i < k ensures IsSpace(s[..k][i]) {
      assert s[..k][i] == s[i];
    }
  }

  lemma Associate(a: string, b: string, c: string)
    ensures a + (b + c) == a + b + c
  {
  }

  /** What trim means: its result is what remains of `s` once the whitespace around
      it is cut off. */
  lemma TrimSurrounds(s: string)
    ensures Surrounds(s, Trim(s), |s| - |TrimStart(s)|)
  {
    var t := TrimStart(s);
    TrimStartSplits(s);
    TrimEndSplits(t);
    var p, r, tail := s[..|s| - |t|], TrimEnd(t), t[|TrimEnd(t)|..];
    Associate(p, r, tail);
    SurroundsPadded(p, r, tail);
  }

  /** A string whose `trim()` is empty, the source's `!x.trim()`. */
  predicate IsBlank(s: string) {
    Trim(s) == []
  }

  /** Trim is determined by what it promises: the only trimmed string that `s`
      surrounds with whitespace is `Trim(s)`. */
  lemma {:induction false} TrimUnique(s: string, r: string, k: int)
    requires Surrounds(s, r, k) && IsTrimmed(r)
    ensures r == Trim(s)
  {
    var t := Trim(s);
    var kt := |s| - |TrimStart(s)|;
    TrimSurrounds(s);
    if r == [] {
      assert AllSpace(s) by {
        forall i | 0 <= i < |s| ensures IsSpace(s[i]) {
          if i >= k { assert k + |r| <= i; }
        }
      }
    } else {
      assert !IsSpace(s[k]) by { assert s[k] == r[0]; }
      assert kt <= k < kt + |t|;
      assert !IsSpace(s[kt]) by { assert s[kt] == t[0]; }
      assert k <= kt;
      assert !IsSpace(s[k + |r| - 1]) by { assert s[k + |r| - 1] == r[|r| - 1]; }
      assert k + |r| <= kt + |t|;
      assert !IsSpace(s[kt + |t| - 1]) by { assert s[kt + |t| - 1] == t[|t| - 1]; }
      assert kt + |t| <= k + |r|;
    }
  }

  /** Trimming a trimmed string changes nothing; in particular trim is idempotent. */
  lemma TrimOfTrimmed(s: string)
    requires IsTrimmed(s)
    ensures Trim(s) == s
  {
    TrimUnique(s, s, 0);
  }

  /** A string surrounding `r` at `k` is its whitespace prefix, `r` and its
      whitespace suffix. */
  lemma SurroundsSplit(s: string, r: string, k: int)
    requires Surrounds(s, r, k)
    ensures s == s[..k] + r + s[k + |r|..]
    ensures AllSpace(s[..k]) && AllSpace(s[k + |r|..])
  {
    assert s == s[..k] + s[k..k + |r|] + s[k + |r|..];
    forall i | 0 <= i < k ensures IsSpace(s[..k][i]) {
      assert s[..k][i] == s[i];
    }
    var q := s[k + |r|..];
    forall i | 0 <= i < |q| ensures IsSpace(q[i]) {
      assert q[i] == s[k + |r| + i];
    }
  }

  lemma AllSpaceConcat(a: string, b: string)
    requires AllSpace(a) && AllSpace(b)
    ensures AllSpace(a + b)
  {
    var w := a + b;
    forall i | 0 <= i < |w| ensures IsSpace(w[i]) {
      if i < |a| { assert w[i] == a[i]; } else { assert w[i] == b[i - |a|]; }
    }
  }

  /** Five pieces concatenated, grouped two ways. */
  lemma Regroup(a: string, p: string, t: string, q: string, b: string)
    ensures a + (p + t + q) + b == (a + p) + t + (q + b)
  {
  }

  /** Whitespace added around a string disappears under trim. */
  lemma TrimIgnoresPadding(a: string, s: string, b: string)
    requires AllSpace(a) && AllSpace(b)
    ensures Trim(a + s + b) == Trim(s)
  {
    var t := Trim(s);
    var k := |s| - |TrimStart(s)|;
    TrimSurrounds(s);
    SurroundsSplit(s, t, k);
    var p, q := s[..k], s[k + |t|..];
    AllSpaceConcat(a, p);
    AllSpaceConcat(q, b);
    Regroup(a, p, t, q, b);
    SurroundsPadded(a + p, t, q + b);
    TrimUnique(a + s + b, t, |a + p|);
  }

  /** Trailing whitespace after a trimmed string disappears under trim. */
  lemma TrimDropsTrailing(r: string, tail: string)
    requires IsTrimmed(r) && AllSpace(tail)
    ensures Trim(r + tail) == r
  {
    assert [] + r + tail == r + tail;
    TrimIgnoresPadding([], r, tail);
    TrimOfTrimmed(r);
  }

  /** Two non-empty trimmed strings joined by one space stay trimmed. */
  lemma TrimmedJoin(a: string, b: string)
    requires IsTrimmed(a) && IsTrimmed(b) && a != [] && b != []
    ensures IsTrimmed(a + " " + b) && Trim(a + " " + b) == a + " " + b
  {
    TrimOfTrimmed(a + " " + b);
  }

  /** A string is blank exactly when every character of it is whitespace. */
  lemma BlankIffAllSpace(s: string)
    ensures IsBlank(s) <==> AllSpace(s)
  {
    if AllSpace(s) {
      TrimUnique(s, [], 0);
    }
  }

  // ---------------------------------------------------------------- search

  predicate StartsWith(s: string, p: string) {
    |p| <= |s| && s[..|p|] == p
  }

  /** `p` occurs in `s` at position `i`. */
  predicate OccursAt(s: string, p: string, i: int) {
    0 <= i && i + |p| <= |s| && s[i..i + |p|] == p
  }

  /** `s.includes(p)`. */
  predicate Contains(s: string, p: string) {
    exists i :: 0 <= i <= |s| && OccursAt(s, p, i)
  }

  /** The first position at or after `k` where `p` occurs in `s`. */
  function IndexFrom(s: string, p: string, k: nat): (r: Option<nat>)
    ensures r.Some? ==> k <= r.value && OccursAt(s, p, r.value)
    ensures r.Some? ==> forall j :: k <= j < r.value ==> !OccursAt(s, p, j)
    ensures r.None? ==> forall j :: k <= j ==> !OccursAt(s, p, j)
    decreases |s| - k
  {
    if k + |p| > |s| then None
    else if OccursAt(s, p, k) then Some(k)
    else IndexFrom(s, p, k + 1)
  }

  /** `s.indexOf(p)`, with `None` for -1. */
  function IndexOf(s: string, p: string): (r: Option<nat>)
    ensures r.Some? <==> Contains(s, p)
    ensures r.Some? ==> OccursAt(s, p, r.value) && forall j :: 0 <= j < r.value ==> !OccursAt(s, p, j)
  {
    IndexFrom(s, p, 0)
  }

  /** An occurrence inside a part is an occurrence inside the whole. */
  lemma OccursWithin(s: string, p: string, k: int, q: string, j: int)
    requires OccursAt(s, p, k) && OccursAt(p, q, j)
    ensures OccursAt(s, q, k + j)
  {
    forall m | 0 <= m < |q| ensures s[k + j + m] == q[m] {
      assert s[k + j + m] == s[k..k + |p|][j + m] == p[j + m];
      assert p[j + m] == p[j..j + |q|][m];
    }
    assert s[k + j..k + j + |q|] == q;
  }

  lemma ContainsAt(s: string, p: string, k: int)
    requires OccursAt(s, p, k)
    ensures Contains(s, p)
  {
  }

  /** A string contains itself wherever it is placed. */
  lemma OccursInConcat(a: string, p: string, b: string)
    ensures OccursAt(a + p + b, p, |a|)
  {
    assert (a + p + b)[|a|..|a| + |p|] == p;
  }

  lemma OccursWhole(p: string)
    ensures OccursAt(p, p, 0)
  {
    assert p[0..|p|] == p;
  }

  lemma OccursAtStart(p: string, b: string)
    ensures OccursAt(p + b, p, 0)
  {
    assert (p + b)[0..|p|] == p;
  }

  lemma OccursAtEnd(a: string, p: string)
    ensures OccursAt(a + p, p, |a|)
  {
    assert (a + p)[|a|..|a| + |p|] == p;
  }

  /** `s.replace(p, "")` with a string pattern: only the first occurrence goes. */
  function RemoveFirst(s: string, p: string): (r: string)
    ensures !Contains(s, p) ==> r == s
    ensures Contains(s, p) ==>
      var i := IndexOf(s, p).value;
      |r| + |p| == |s| && i <= |r| && s == r[..i] + p + r[i..] && forall j :: 0 <= j < i ==> !OccursAt(s, p, j)
  {
    match IndexOf(s, p)
    case None => s
    case Some(i) =>
      var r := s[..i] + s[i + |p|..];
      assert s == r[..i] + p + r[i..] by {
        assert r[..i] == s[..i] && r[i..] == s[i + |p|..];
        assert s == s[..i] + s[i..i + |p|] + s[i + |p|..];
      }
      r
  }

  /** `s.replace(/p/g, "")` for a literal pattern: occurrences are removed from left to
      right without overlapping. */
  function RemoveAll(s: string, p: string): (r: string)
    requires p != []
    ensures |r| <= |s|
    decreases |s|
  {
    if s == [] then []
    else if StartsWith(s, p) then RemoveAll(s[|p|..], p)
    else [s[0]] + RemoveAll(s[1..], p)
  }

  /** Without any occurrence there is nothing to remove. */
  lemma {:induction false} RemoveAllAbsent(s: string, p: string)
    requires p != [] && !Contains(s, p)
    ensures RemoveAll(s, p) == s
    decreases |s|
  {
    if s != [] {
      assert !OccursAt(s, p, 0);
      assert !Contains(s[1..], p) by {
        forall j | 0 <= j <= |s[1..]| ensures !OccursAt(s[1..], p, j) {
          if OccursAt(s[1..], p, j) {
            assert s[j + 1..j + 1 + |p|] == s[1..][j..j + |p|];
            assert OccursAt(s, p, j + 1);
          }
        }
      }
      RemoveAllAbsent(s[1..], p);
    }
  }

  const Fence := "```"

  /** Removing fences from a string that does not start with a backtick leaves a
      string that does not start with one. */
  lemma NoBacktickStart(s: string)
    requires !StartsWith(s, "`")
    ensures !StartsWith(RemoveAll(s, Fence), "`")
  {
    if s != [] {
      assert s[..1] == [s[0]];
      assert !StartsWith(s, Fence) by { assert s[0] != '`'; }
      assert RemoveAll(s, Fence)[..1] == [s[0]];
    }
  }

  /** Removing fences from a string that does not start with two backticks leaves a
      string that does not start with two. */
  lemma NoDoubleBacktickStart(s: string)
    requires !StartsWith(s, "``")
    ensures !StartsWith(RemoveAll(s, Fence), "``")
  {
    if s != [] {
      assert !StartsWith(s, Fence) by {
        if |s| >= 3 { assert s[..2] == s[..3][..2]; }
      }
      var t := RemoveAll(s[1..], Fence);
      assert RemoveAll(s, Fence) == [s[0]] + t;
      if s[0] == '`' {
        assert !StartsWith(s[1..], "`") by {
          if |s| >= 2 { assert s[..2] == [s[0]] + s[1..][..1]; }
        }
        NoBacktickStart(s[1..]);
        if |t| >= 1 { assert ([s[0]] + t)[..2] == [s[0]] + t[..1]; }
      } else {
        assert ([s[0]] + t)[0] == s[0];
      }
    }
  }

  /** Putting one character in front of a fence-free string creates no fence, unless
      it is a backtick in front of two more. */
  lemma ConsNoFence(c: char, t: string)
    requires !Contains(t, Fence)
    requires c == '`' ==> !StartsWith(t, "``")
    ensures !Contains([c] + t, Fence)
  {
    var r := [c] + t;
    assert |Fence| == 3;
    forall j | 0 <= j <= |r| ensures !OccursAt(r, Fence, j) {
      if j == 0 {
        if |r| >= 3 {
          assert r[0..3] == [c] + t[..2];
          if c == '`' {
            assert r[0..3][1..] == t[..2] != "``" == Fence[1..];
          } else {
            assert r[0..3][0] != Fence[0];
          }
          assert r[0..3] != Fence;
        }
        assert !OccursAt(r, Fence, j);
      } else if j + 3 <= |r| {
        assert r[j..j + 3] == t[j - 1..j + 2];
        assert !OccursAt(t, Fence, j - 1);
        assert !OccursAt(r, Fence, j);
      }
    }
  }

  /** A run of backticks cannot survive the removal of every "```": the removal never
      glues two backtick runs back together. */
  lemma {:induction false} FencesRemoved(s: string)
    ensures !Contains(RemoveAll(s, Fence), Fence)
    decreases |s|
  {
    if s == [] {
      assert RemoveAll(s, Fence) == [];
      assert forall j :: !OccursAt([], Fence, j);
    } else if StartsWith(s, Fence) {
      FencesRemoved(s[3..]);
    } else {
      var t := RemoveAll(s[1..], Fence);
      assert RemoveAll(s, Fence) == [s[0]] + t;
      FencesRemoved(s[1..]);
      if s[0] == '`' {
        assert !StartsWith(s[1..], "``") by {
          if |s| >= 3 { assert s[..3] == [s[0]] + s[1..][..2]; }
        }
        NoDoubleBacktickStart(s[1..]);
      }
      ConsNoFence(s[0], t);
    }
  }

  // ---------------------------------------------------------------- joining

  /** `parts.join(sep)`. */
  function Join(parts: seq<string>, sep: string): string
    decreases |parts|
  {
    if parts == [] then ""
    else if |parts| == 1 then parts[0]
    else parts[0] + sep + Join(parts[1..], sep)
  }

  /** Where part `i` starts inside `Join(parts, sep)`. */
  function JoinOffset(parts: seq<string>, sep: string, i: nat): nat
    requires i < |parts|
    decreases i
  {
    if i == 0 then 0 else |parts[0]| + |sep| + JoinOffset(parts[1..], sep, i - 1)
  }

  /** Every part appears, unchanged, at its offset in the joined string. */
  lemma {:induction false} JoinPartAt(parts: seq<string>, sep: string, i: nat)
    requires i < |parts|
    ensures OccursAt(Join(parts, sep), parts[i], JoinOffset(parts, sep, i))
    decreases i
  {
    if |parts| == 1 {
      assert Join(parts, sep) == parts[0];
    } else if i == 0 {
      OccursInConcat([], parts[0], sep + Join(parts[1..], sep));
      assert Join(parts, sep) == [] + parts[0] + (sep + Join(parts[1..], sep));
    } else {
      JoinPartAt(parts[1..], sep, i - 1);
      var pre := parts[0] + sep;
      OccursInConcat(pre, Join(parts[1..], sep), []);
      assert Join(parts, sep) == pre + Join(parts[1..], sep) + [];
      OccursWithin(Join(parts, sep), Join(parts[1..], sep), |pre|, parts[i], JoinOffset(parts[1..], sep, i - 1));
    }
  }

  /** A text that occurs inside one of the parts occurs inside the joined string. */
  lemma JoinContains(parts: seq<string>, sep: string, i: nat, q: string, j: int)
    requires i < |parts| && OccursAt(parts[i], q, j)
    ensures Contains(Join(parts, sep), q)
  {
    JoinPartAt(parts, sep, i);
    OccursWithin(Join(parts, sep), parts[i], JoinOffset(parts, sep, i), q, j);
  }

  // ---------------------------------------------------------------- decimal digits

  /** The ASCII digits, which is what the regular expression class `\d` matches. */
  predicate IsDigit(c: char) {
    '0' <= c <= '9'
  }

  predicate AllDigits(s: string) {
    forall i :: 0 <= i < |s| ==> IsDigit(s[i])
  }

  function DigitValue(c: char): nat
    requires IsDigit(c)
  {
    (c as int) - ('0' as int)
  }

  function DigitChar(d: nat): (c: char)
    requires d < 10
    ensures IsDigit(c) && DigitValue(c) == d
  {
    (('0' as int) + d) as char
  }

  /** `parseInt(s, 10)` for a non-empty run of ASCII digits. */
  function DigitsValue(s: string): nat
    requires AllDigits(s)
    decreases |s|
  {
    if s == [] then 0 else DigitsValue(s[..|s| - 1]) * 10 + DigitValue(s[|s| - 1])
  }

  /** The decimal rendering of a natural number: digits only, no leading zero, and
      parsing it back gives the number. */
  function NatToString(n: nat): (r: string)
    ensures |r| >= 1 && AllDigits(r)
    ensures DigitsValue(r) == n
    ensures r[0] == '0' ==> r == "0"
    decreases n
  {
    if n < 10 then [DigitChar(n)]
    else
      var r := NatToString(n / 10) + [DigitChar(n % 10)];
      assert r[..|r| - 1] == NatToString(n / 10);
      r
  }

  /** How JavaScript renders an integral number inside a template literal. */
  function IntToString(n: int): (r: string)
    ensures n >= 0 ==> r == NatToString(n)
    ensures n < 0 ==> r == "-" + NatToString(-n)
  {
    if n < 0 then "-" + NatToString(-n) else NatToString(n)
  }

  /** Two numbers that render alike are equal: the rendering loses nothing. */
  lemma IntToStringInjective(m: int, n: int)
    requires IntToString(m) == IntToString(n)
    ensures m == n
  {
    var a, b := IntToString(m), IntToString(n);
    assert a[0] == '-' <==> m < 0;
    assert b[0] == '-' <==> n < 0;
    if m < 0 {
      assert a[1..] == NatToString(-m) && b[1..] == NatToString(-n);
    }
  }

  /** The longest prefix of `s` made of digits, the text `\d+` matches greedily. */
  function LeadingDigits(s: string): (r: string)
    ensures AllDigits(r) && |r| <= |s| && r == s[..|r|]
    ensures |r| == |s| || !IsDigit(s[|r|])
    decreases |s|
  {
    if s != [] && IsDigit(s[0]) then [s[0]] + LeadingDigits(s[1..]) else []
  }

  /** Digits followed by a non-digit are read back exactly. */
  lemma {:induction false} LeadingDigitsOf(d: string, rest: string)
    requires AllDigits(d)
    requires rest == [] || !IsDigit(rest[0])
    ensures LeadingDigits(d + rest) == d
    decreases |d|
  {
    if d == [] {
      assert d + rest == rest;
    } else {
      assert (d + rest)[1..] == d[1..] + rest;
      LeadingDigitsOf(d[1..], rest);
      assert [d[0]] + d[1..] == d;
    }
  }
}
