/**
 * The string operations of the Java and C runtimes that the drivers rely on:
 * `String.contains`, `startsWith`, `indexOf`, `split`, `replaceAll("\\D+", "")`,
 * `Long.parseLong`, decimal rendering of integers, and C's `atoi`/`atol`.
 * Strings are sequences of characters; only ASCII digits count as digits.
 */
module Strings {
  import opened Wrappers

  const MinLong: int := -0x8000_0000_0000_0000
  const MaxLong: int := 0x7fff_ffff_ffff_ffff

  predicate IsDigit(c: char) {
    '0' <= c <= '9'
  }

  predicate AllDigits(s: string) {
    forall i :: 0 <= i < |s| ==> IsDigit(s[i])
  }

  /** `pat` occurs in `s` starting at index `i`. */
  predicate OccursAt(s: string, pat: string, i: int) {
    0 <= i && i + |pat| <= |s| && s[i..i + |pat|] == pat
  }

  /** Java's `s.contains(pat)`. */
  predicate Contains(s: string, pat: string) {
    exists i | 0 <= i <= |s| - |pat| :: OccursAt(s, pat, i)
  }

  /** Java's `s.startsWith(p)`. */
  predicate StartsWith(s: string, p: string) {
    |p| <= |s| && s[..|p|] == p
  }

  /** First index at or after `from` where `pat` occurs in `s`. */
  function IndexOf(s: string, pat: string, from: nat): (r: Option<nat>)
    requires from <= |s|
    ensures r.Some? ==> from <= r.value && r.value + |pat| <= |s|
    decreases |s| - from
  {
    if OccursAt(s, pat, from) then Some(from)
    else if from == |s| then None
    else IndexOf(s, pat, from + 1)
  }

  /** `IndexOf` finds the first occurrence at or after `from`, and `None` means there is none. */
  lemma {:induction false} IndexOfFirst(s: string, pat: string, from: nat)
    requires from <= |s|
    ensures var r := IndexOf(s, pat, from);
      (r.Some? ==> from <= r.value && OccursAt(s, pat, r.value) &&
                   forall j :: from <= j < r.value ==> !OccursAt(s, pat, j)) &&
      (r.None? ==> forall j :: from <= j ==> !OccursAt(s, pat, j))
    decreases |s| - from
  {
    if !OccursAt(s, pat, from) && from < |s| {
      IndexOfFirst(s, pat, from + 1);
    }
  }

  lemma ContainsIffIndexOf(s: string, pat: string)
    ensures Contains(s, pat) <==> IndexOf(s, pat, 0).Some?
  {
    IndexOfFirst(s, pat, 0);
    if Contains(s, pat) {
      var i :| 0 <= i <= |s| - |pat| && OccursAt(s, pat, i);
    }
  }

  /** A pattern that has a character `s` lacks does not occur in `s`. */
  lemma AbsentChar(s: string, pat: string, c: char)
    requires c in pat && c !in s
    ensures !Contains(s, pat)
  {
    var k :| 0 <= k < |pat| && pat[k] == c;
    forall i | 0 <= i <= |s| - |pat|
      ensures !OccursAt(s, pat, i)
    {
      assert s[i..i + |pat|][k] == s[i + k];
    }
  }

  /** An occurrence in a middle piece is an occurrence in the whole. */
  lemma ContainsMiddle(p: string, m: string, q: string, pat: string)
    requires Contains(m, pat)
    ensures Contains(p + m + q, pat)
  {
    var i :| 0 <= i <= |m| - |pat| && OccursAt(m, pat, i);
    var s := p + m + q;
    assert s[|p| + i..|p| + i + |pat|] == m[i..i + |pat|];
    assert OccursAt(s, pat, |p| + i);
  }

  /**
   * When the pattern's first character is absent from the prefix and its last
   * character from the suffix, every occurrence lies inside the middle piece.
   */
  lemma ContainsOnlyInMiddle(p: string, m: string, q: string, pat: string)
    requires |pat| > 0 && pat[0] !in p && pat[|pat| - 1] !in q
    ensures Contains(p + m + q, pat) ==> Contains(m, pat)
  {
    var s := p + m + q;
    if Contains(s, pat) {
      var i :| 0 <= i <= |s| - |pat| && OccursAt(s, pat, i);
      assert s[i] == s[i..i + |pat|][0];
      var j := i + |pat| - 1;
      assert s[j] == s[i..i + |pat|][|pat| - 1];
      assert m[i - |p|..i - |p| + |pat|] == s[i..i + |pat|];
      assert OccursAt(m, pat, i - |p|);
    }
  }

  /**
   * The first occurrence of `sep` in `a + sep + b` is the one between `a` and `b`
   * when `sep` has a character `c` at index `k` that `a` and `sep[..k]` lack.
   */
  lemma SeparatorFirstAt(a: string, sep: string, b: string, c: char, k: nat)
    requires k < |sep| && sep[k] == c && c !in a && c !in sep[..k]
    ensures IndexOf(a + sep + b, sep, 0) == Some(|a|)
  {
    var s := a + sep + b;
    assert s[|a|..|a| + |sep|] == sep;
    forall j | 0 <= j < |a|
      ensures !OccursAt(s, sep, j)
    {
      if j + |sep| <= |s| {
        assert s[j..j + |sep|][k] == s[j + k];
        if j + k < |a| {
          assert s[j + k] == a[j + k];
        } else {
          assert s[j + k] == sep[j + k - |a|];
          assert sep[..k][j + k - |a|] == sep[j + k - |a|];
        }
      }
    }
    assert OccursAt(s, sep, |a|);
    IndexOfFirst(s, sep, 0);
    var r := IndexOf(s, sep, 0);
    assert r.Some? && r.value <= |a|;
  }

  /** Every piece between separators, left to right; `[s]` when `sep` does not occur. */
  function SplitAll(s: string, sep: string): (parts: seq<string>)
    requires |sep| > 0
    ensures |parts| >= 1
    decreases |s|
  {
    match IndexOf(s, sep, 0)
    case None => [s]
    case Some(i) => [s[..i]] + SplitAll(s[i + |sep|..], sep)
  }

  /** The pieces joined back with the separator. */
  function Join(parts: seq<string>, sep: string): string
    decreases |parts|
  {
    if |parts| == 0 then ""
    else if |parts| == 1 then parts[0]
    else parts[0] + sep + Join(parts[1..], sep)
  }

  /** Splitting loses nothing: joining the pieces gives back the string. */
  lemma {:induction false} JoinSplitAll(s: string, sep: string)
    requires |sep| > 0
    ensures Join(SplitAll(s, sep), sep) == s
    decreases |s|
  {
    var r := IndexOf(s, sep, 0);
    IndexOfFirst(s, sep, 0);
    if r.Some? {
      var i := r.value;
      var head, rest := s[..i], s[i + |sep|..];
      var tail := SplitAll(rest, sep);
      assert SplitAll(s, sep) == [head] + tail;
      JoinSplitAll(rest, sep);
      assert ([head] + tail)[1..] == tail;
      assert Join([head] + tail, sep) == head + sep + rest;
      assert s[i..i + |sep|] == sep;
      assert s == head + s[i..i + |sep|] + rest;
    }
  }

  function DropTrailingEmpty(parts: seq<string>): (r: seq<string>)
    ensures |r| <= |parts| && r == parts[..|r|]
    ensures r != [] ==> r[|r| - 1] != ""
    ensures forall j :: |r| <= j < |parts| ==> parts[j] == ""
  {
    if parts != [] && parts[|parts| - 1] == "" then DropTrailingEmpty(parts[..|parts| - 1])
    else parts
  }

  /**
   * Java's `s.split(sep)` for a separator without regular-expression
   * metacharacters: the input itself when the separator does not occur,
   * otherwise the pieces with trailing empty pieces removed.
   */
  function JavaSplit(s: string, sep: string): (parts: seq<string>)
    requires |sep| > 0
  {
    if IndexOf(s, sep, 0).None? then [s] else DropTrailingEmpty(SplitAll(s, sep))
  }

  /** A string without the separator splits into itself. */
  lemma SplitWithout(s: string, sep: string)
    requires |sep| > 0 && !Contains(s, sep)
    ensures JavaSplit(s, sep) == [s]
  {
    ContainsIffIndexOf(s, sep);
  }

  /** No piece of a split holds the separator. */
  lemma SplitPiecesFree(s: string, sep: string)
    requires |sep| > 0
    ensures forall j :: 0 <= j < |JavaSplit(s, sep)| ==> !Contains(JavaSplit(s, sep)[j], sep)
  {
    ContainsIffIndexOf(s, sep);
    SplitAllPiecesFree(s, sep);
  }

  lemma {:induction false} SplitAllPiecesFree(s: string, sep: string)
    requires |sep| > 0
    ensures forall j :: 0 <= j < |SplitAll(s, sep)| ==> !Contains(SplitAll(s, sep)[j], sep)
    decreases |s|
  {
    match IndexOf(s, sep, 0)
    case None =>
      ContainsIffIndexOf(s, sep);
    case Some(i) =>
      IndexOfFirst(s, sep, 0);
      SplitAllPiecesFree(s[i + |sep|..], sep);
      var head := s[..i];
      forall j | 0 <= j <= |head| - |sep|
        ensures !OccursAt(head, sep, j)
      {
        assert !OccursAt(s, sep, j);
        assert head[j..j + |sep|] == s[j..j + |sep|];
      }
  }

  /** `a + sep + b` splits into exactly `[a, b]` under the conditions of `SeparatorFirstAt`. */
  lemma SplitTwo(a: string, sep: string, b: string, c: char, k: nat)
    requires k < |sep| && sep[k] == c && c !in a && c !in b && c !in sep[..k]
    requires b != ""
    ensures JavaSplit(a + sep + b, sep) == [a, b]
  {
    var s := a + sep + b;
    SeparatorFirstAt(a, sep, b, c, k);
    assert s[..|a|] == a;
    assert s[|a| + |sep|..] == b;
    AbsentChar(b, sep, c);
    ContainsIffIndexOf(b, sep);
    assert SplitAll(s, sep) == [a, b];
  }

  /** The decimal digit character for `d`. */
  function DigitChar(d: nat): (c: char)
    requires d < 10
    ensures IsDigit(c) && c as int - '0' as int == d
  {
    ('0' as int + d) as char
  }

  /** Decimal rendering of a natural number, as Java's `Long.toString` and C's `%d` print it. */
  function NatToString(n: nat): (r: string)
    ensures |r| > 0 && AllDigits(r)
    decreases n
  {
    if n < 10 then [DigitChar(n)] else NatToString(n / 10) + [DigitChar(n % 10)]
  }

  /** Decimal rendering of an integer, with a leading '-' for negatives. */
  function IntToString(i: int): (r: string)
    ensures |r| > 0
    ensures i >= 0 <==> AllDigits(r)
    ensures i < 0 ==> r[0] == '-' && AllDigits(r[1..])
  {
    if i < 0 then
      var r := "-" + NatToString(-i);
      assert !IsDigit(r[0]) && r[1..] == NatToString(-i);
      r
    else NatToString(i)
  }

  /** The value of a string of digits. */
  function DigitsValue(s: string): nat
    requires AllDigits(s)
    decreases |s|
  {
    if s == [] then 0 else DigitsValue(s[..|s| - 1]) * 10 + (s[|s| - 1] as int - '0' as int)
  }

  /** Reading back a rendered natural number gives the number. */
  lemma {:induction false} DigitsValueNatToString(n: nat)
    ensures DigitsValue(NatToString(n)) == n
    decreases n
  {
    if n >= 10 {
      var s := NatToString(n);
      DigitsValueNatToString(n / 10);
      assert s[..|s| - 1] == NatToString(n / 10);
    }
  }

  lemma NatToStringInjective(m: nat, n: nat)
    ensures NatToString(m) == NatToString(n) <==> m == n
  {
    DigitsValueNatToString(m);
    DigitsValueNatToString(n);
  }

  function Pow10(k: nat): (r: nat)
    ensures r >= 1
  {
    if k == 0 then 1 else 10 * Pow10(k - 1)
  }

  /** A number below `10^k` takes at most `k` digits. */
  lemma {:induction false} NatToStringLength(n: nat, k: nat)
    requires 1 <= k && n < Pow10(k)
    ensures |NatToString(n)| <= k
    decreases k
  {
    if n >= 10 {
      assert k >= 2;
      NatToStringLength(n / 10, k - 1);
    }
  }

  /** Java's `replaceAll("\\D+", "")`: only the ASCII digits remain, in order. */
  function KeepDigits(s: string): (r: string)
    ensures AllDigits(r) && |r| <= |s|
    ensures AllDigits(s) ==> r == s
  {
    if s == [] then []
    else (if IsDigit(s[0]) then [s[0]] else []) + KeepDigits(s[1..])
  }

  lemma {:induction false} KeepDigitsAppend(a: string, b: string)
    ensures KeepDigits(a + b) == KeepDigits(a) + KeepDigits(b)
    decreases |a|
  {
    if a != [] {
      assert (a + b)[1..] == a[1..] + b;
      KeepDigitsAppend(a[1..], b);
    } else {
      assert a + b == b;
    }
  }

  /**
   * Java's `Long.parseLong(s)`: an optional sign and at least one digit, with a
   * value that fits 64 bits; `None` where Java throws NumberFormatException.
   */
  function ParseLong(s: string): (r: Option<int>)
    ensures r.Some? ==> MinLong <= r.value <= MaxLong
    ensures r.Some? ==> |s| > 0
  {
    if |s| > 0 && (s[0] == '-' || s[0] == '+') then
      var body := s[1..];
      if body == [] || !AllDigits(body) then None
      else
        var v: int := if s[0] == '-' then -(DigitsValue(body) as int) else DigitsValue(body);
        if MinLong <= v <= MaxLong then Some(v) else None
    else if s == [] || !AllDigits(s) then None
    else if DigitsValue(s) <= MaxLong then Some(DigitsValue(s))
    else None
  }

  /** `Long.parseLong` reads back what `Long.toString` writes. */
  lemma ParseLongIntToString(i: int)
    requires MinLong <= i <= MaxLong
    ensures ParseLong(IntToString(i)) == Some(i)
  {
    var s := IntToString(i);
    if i < 0 {
      assert s[1..] == NatToString(-i);
      DigitsValueNatToString(-i);
    } else {
      DigitsValueNatToString(i);
    }
  }

  /** A string that is not a well-formed decimal is refused. */
  lemma ParseLongRejectsNonDigits(s: string)
    requires |s| > 0 && s[0] != '-' && s[0] != '+' && !AllDigits(s)
    ensures ParseLong(s) == None
  {
  }

  predicate IsCSpace(c: char) {
    c == ' ' || c == '\t' || c == '\n' || c == '\r' || c == 11 as char || c == 12 as char
  }

  /** The longest prefix of `s` made of digits. */
  function LeadingDigits(s: string): (r: string)
    ensures AllDigits(r) && StartsWith(s, r)
    ensures |r| < |s| ==> !IsDigit(s[|r|])
  {
    if s != [] && IsDigit(s[0]) then [s[0]] + LeadingDigits(s[1..]) else []
  }

  /**
   * C's `atol`/`atoi` on inputs too short to overflow: leading white space is
   * skipped, an optional sign is read, then digits up to the first non-digit;
   * no digits gives 0.
   */
  function CAtol(s: string): (r: int)
    decreases |s|
  {
    if s != [] && IsCSpace(s[0]) then CAtol(s[1..])
    else if s != [] && (s[0] == '-' || s[0] == '+') then
      var v: int := DigitsValue(LeadingDigits(s[1..]));
      if s[0] == '-' then -v else v
    else DigitsValue(LeadingDigits(s))
  }

  /** `atol` reads back a rendered natural number. */
  lemma CAtolNatToString(n: nat)
    ensures CAtol(NatToString(n)) == n
  {
    var s := NatToString(n);
    assert IsDigit(s[0]);
    AllDigitsLeading(s);
    DigitsValueNatToString(n);
  }

  lemma {:induction false} AllDigitsLeading(s: string)
    requires AllDigits(s)
    ensures LeadingDigits(s) == s
    decreases |s|
  {
    if s != [] {
      AllDigitsLeading(s[1..]);
    }
  }
}
