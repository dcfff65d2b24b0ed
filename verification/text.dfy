/**
 * The Python string operations the engine relies on, written out:
 * `str.strip`, `str.replace`, `sub in s`, `str.startswith`, `str.join`,
 * decimal formatting of a page number, and `s.split(c)[0]`.
 */
module Text {

  /** The characters for which Python's `str.isspace()` holds; `str.strip()` removes exactly these. */
  predicate IsSpace(c: char) {
    || c == ' ' || c == '\t' || c == '\n' || c == '\r' || c == '\U{000b}' || c == '\U{000c}'
    || ('\U{001c}' <= c <= '\U{001f}') || c == '\U{0085}' || c == '\U{00a0}' || c == '\U{1680}'
    || ('\U{2000}' <= c <= '\U{200a}') || c == '\U{2028}' || c == '\U{2029}' || c == '\U{202f}'
    || c == '\U{205f}' || c == '\U{3000}'
  }

  predicate AllSpace(s: string) {
    forall i :: 0 <= i < |s| ==> IsSpace(s[i])
  }

  /** Drops the leading whitespace. */
  function TrimLeft(s: string): string {
    if s != [] && IsSpace(s[0]) then TrimLeft(s[1..]) else s
  }

  /** `TrimLeft` keeps the suffix of `s` that starts at its first non-space. */
  lemma {:induction false} TrimLeftFacts(s: string)
    ensures var r := TrimLeft(s);
      && |r| <= |s| && r == s[|s| - |r|..]
      && AllSpace(s[..|s| - |r|])
      && (r != [] ==> !IsSpace(r[0]))
  {
    if s != [] && IsSpace(s[0]) {
      TrimLeftFacts(s[1..]);
      var r := TrimLeft(s);
      assert s[1..][|s| - 1 - |r|..] == s[|s| - |r|..];
      assert forall i :: 1 <= i < |s| - |r| ==> s[i] == s[1..][..|s| - 1 - |r|][i - 1];
    } else {
      assert s[..0] == [];
    }
  }

  /** Drops the trailing whitespace. */
  function TrimRight(s: string): string {
    if s != [] && IsSpace(s[|s| - 1]) then TrimRight(s[..|s| - 1]) else s
  }

  /** `TrimRight` keeps the prefix of `s` that ends at its last non-space. */
  lemma {:induction false} TrimRightFacts(s: string)
    ensures var r := TrimRight(s);
      && |r| <= |s| && r == s[..|r|]
      && AllSpace(s[|r|..])
      && (r != [] ==> !IsSpace(r[|r| - 1]))
  {
    if s != [] && IsSpace(s[|s| - 1]) {
      var front := s[..|s| - 1];
      TrimRightFacts(front);
      var r := TrimRight(s);
      assert front[..|r|] == s[..|r|];
      assert forall i :: |r| <= i < |s| - 1 ==> s[i] == front[|r|..][i - |r|];
    } else {
      assert s[|s|..] == [];
    }
  }

  /** Python's `s.strip()`. */
  function Strip(s: string): string {
    TrimRight(TrimLeft(s))
  }

  lemma {:induction false} TrimLeftBlank(s: string)
    requires AllSpace(s)
    ensures TrimLeft(s) == []
    decreases |s|
  {
    if s != [] {
      TrimLeftBlank(s[1..]);
    }
  }

  /** `s.strip()` is empty (so `not s.strip()` holds) exactly when `s` is all whitespace. */
  lemma StripEmptyIffBlank(s: string)
    ensures Strip(s) == [] <==> AllSpace(s)
  {
    var l := TrimLeft(s);
    TrimLeftFacts(s);
    TrimRightFacts(l);
    if AllSpace(s) {
      TrimLeftBlank(s);
    }
    if Strip(s) == [] {
      assert AllSpace(l[0..]);
      assert l[0..] == l;
      assert l == [];
      assert s[..|s|] == s;
    }
  }

  /** Python's `sub in s` for strings. */
  predicate Contains(s: string, sub: string)
    decreases |s|
  {
    StartsWith(s, sub) || (s != [] && Contains(s[1..], sub))
  }

  /** `sub in s` holds exactly when `sub` starts at some index of `s`. */
  lemma {:induction false} ContainsIffOccurs(s: string, sub: string)
    ensures Contains(s, sub) <==> exists i :: 0 <= i <= |s| && StartsWith(s[i..], sub)
    decreases |s|
  {
    assert s[0..] == s;
    if s != [] {
      ContainsIffOccurs(s[1..], sub);
      if Contains(s[1..], sub) {
        var i :| 0 <= i <= |s| - 1 && StartsWith(s[1..][i..], sub);
        assert s[1..][i..] == s[i + 1..];
      }
      if i :| 0 < i <= |s| && StartsWith(s[i..], sub) {
        assert s[1..][i - 1..] == s[i..];
      }
    }
  }

  /** Python's `s.startswith(prefix)`. */
  predicate StartsWith(s: string, prefix: string) {
    |prefix| <= |s| && s[..|prefix|] == prefix
  }

  /** Python's `s.replace(pat, rep)`: every non-overlapping occurrence, scanning left to right. */
  function Replace(s: string, pat: string, rep: string): string
    requires pat != []
    decreases |s|
  {
    if |s| < |pat| then s
    else if s[..|pat|] == pat then rep + Replace(s[|pat|..], pat, rep)
    else [s[0]] + Replace(s[1..], pat, rep)
  }

  /** A string in which the pattern does not occur is left as it is. */
  lemma {:induction false} ReplaceAbsent(s: string, pat: string, rep: string)
    requires pat != []
    requires !Contains(s, pat)
    ensures Replace(s, pat, rep) == s
    decreases |s|
  {
    if |s| >= |pat| {
      ReplaceAbsent(s[1..], pat, rep);
      assert [s[0]] + s[1..] == s;
    }
  }

  /** Where the pattern does not start, `replace` keeps the first character and goes on after it. */
  lemma ReplaceSkip(s: string, pat: string, rep: string)
    requires pat != [] && s != [] && !StartsWith(s, pat)
    ensures Replace(s, pat, rep) == [s[0]] + Replace(s[1..], pat, rep)
  {
  }

  /** Where the pattern starts, `replace` puts the replacement and goes on after it. */
  lemma ReplaceHere(s: string, pat: string, rep: string)
    requires pat != [] && StartsWith(s, pat)
    ensures Replace(s, pat, rep) == rep + Replace(s[|pat|..], pat, rep)
  {
  }

  /** The pattern occurs at `i` of `s` and at no earlier index. */
  predicate FirstAt(s: string, pat: string, i: nat) {
    && i + |pat| <= |s|
    && s[i..i + |pat|] == pat
    && forall j :: 0 <= j < i ==> !StartsWith(s[j..], pat)
  }

  /** A pattern that occurs in `s` has a first occurrence. */
  lemma {:induction false} FirstOccurrence(s: string, pat: string)
    requires Contains(s, pat)
    ensures exists i :: FirstAt(s, pat, i)
    decreases |s|
  {
    if StartsWith(s, pat) {
      assert s[0..|pat|] == s[..|pat|];
      assert FirstAt(s, pat, 0);
    } else {
      FirstOccurrence(s[1..], pat);
      var i :| FirstAt(s[1..], pat, i);
      FirstShift(s, pat, i);
    }
  }

  /** A first occurrence in `s[1..]` is one in `s` when the pattern does not start `s`. */
  lemma FirstShift(s: string, pat: string, i: nat)
    requires s != [] && !StartsWith(s, pat) && FirstAt(s[1..], pat, i)
    ensures FirstAt(s, pat, i + 1)
  {
    assert s[1..][i..i + |pat|] == s[i + 1..i + 1 + |pat|];
    assert s[0..] == s;
    forall j | 0 < j < i + 1
      ensures !StartsWith(s[j..], pat)
    {
      assert s[1..][j - 1..] == s[j..];
    }
  }

  /**
   * At the first occurrence of the pattern, `replace` keeps the text before
   * it, puts the replacement in its place and goes on after it.
   */
  lemma ReplaceFirst(s: string, pat: string, rep: string, i: nat)
    requires pat != [] && FirstAt(s, pat, i)
    ensures Replace(s, pat, rep) == s[..i] + rep + Replace(s[i + |pat|..], pat, rep)
  {
    ReplaceFrom(s, pat, rep, i, 0);
    assert s[0..] == s;
    assert s[0..i] == s[..i];
  }

  /** `ReplaceFirst` for the suffix from any `k <= i`. */
  lemma {:induction false} ReplaceFrom(s: string, pat: string, rep: string, i: nat, k: nat)
    requires pat != [] && FirstAt(s, pat, i) && k <= i
    ensures Replace(s[k..], pat, rep) == s[k..i] + rep + Replace(s[i + |pat|..], pat, rep)
    decreases i - k
  {
    if k == i {
      assert s[i..][..|pat|] == s[i..i + |pat|];
      ReplaceHere(s[i..], pat, rep);
      assert s[i..][|pat|..] == s[i + |pat|..];
      assert s[i..i] == [];
    } else {
      ReplaceFrom(s, pat, rep, i, k + 1);
      assert !StartsWith(s[k..], pat);
      ReplaceFromStep(s, pat, rep, i, k);
    }
  }

  /** The inductive step of `ReplaceFrom`: where the pattern does not start, the character at `k` is kept. */
  lemma ReplaceFromStep(s: string, pat: string, rep: string, i: nat, k: nat)
    requires pat != [] && k < i && i + |pat| <= |s| && !StartsWith(s[k..], pat)
    requires Replace(s[k + 1..], pat, rep) == s[k + 1..i] + rep + Replace(s[i + |pat|..], pat, rep)
    ensures Replace(s[k..], pat, rep) == s[k..i] + (rep + Replace(s[i + |pat|..], pat, rep))
  {
    ReplaceSkip(s[k..], pat, rep);
    assert s[k..][1..] == s[k + 1..];
    ConsSlice(s, k, i, rep + Replace(s[i + |pat|..], pat, rep));
  }

  /** The character at `k` in front of the slice after it is the slice from `k`. */
  lemma ConsSlice(s: string, k: nat, i: nat, rest: string)
    requires k < i <= |s|
    ensures [s[k]] + (s[k + 1..i] + rest) == s[k..i] + rest
  {
    assert [s[k]] + s[k + 1..i] == s[k..i];
  }

  /** Python's `sep.join(parts)`. */
  function Join(sep: string, parts: seq<string>): string
    decreases |parts|
  {
    if parts == [] then ""
    else if |parts| == 1 then parts[0]
    else Join(sep, parts[..|parts| - 1]) + sep + parts[|parts| - 1]
  }

  /** Where the `i`-th part begins in `Join(sep, parts)`: after the earlier parts joined, and a separator. */
  function Offset(sep: string, parts: seq<string>, i: nat): nat
    requires i <= |parts|
  {
    if i == 0 then 0 else |Join(sep, parts[..i])| + |sep|
  }

  /**
   * The first `k` parts joined begin the whole joined string, and a separator
   * follows them when parts remain.
   */
  lemma {:induction false} JoinPrefix(sep: string, parts: seq<string>, k: nat)
    requires 0 < k <= |parts|
    ensures |Join(sep, parts[..k])| <= |Join(sep, parts)|
    ensures Join(sep, parts)[..|Join(sep, parts[..k])|] == Join(sep, parts[..k])
    ensures k < |parts| ==>
      && |Join(sep, parts[..k])| + |sep| <= |Join(sep, parts)|
      && Join(sep, parts)[|Join(sep, parts[..k])|..|Join(sep, parts[..k])| + |sep|] == sep
    decreases |parts|
  {
    var n := |parts|;
    if k == n {
      assert parts[..k] == parts;
    } else {
      var front := parts[..n - 1];
      var j := Join(sep, parts);
      var jf := Join(sep, front);
      var jk := Join(sep, parts[..k]);
      assert j == jf + sep + parts[n - 1];
      assert front[..k] == parts[..k];
      if k < n - 1 {
        JoinPrefix(sep, front, k);
        assert j[..|jk|] == jf[..|jk|];
        assert j[|jk|..|jk| + |sep|] == jf[|jk|..|jk| + |sep|];
      } else {
        assert front == parts[..k];
      }
    }
  }

  /**
   * The joined string holds every part, in order, at its offset, with the
   * separator between each part and the next and nothing after the last.
   */
  lemma JoinAt(sep: string, parts: seq<string>, i: nat)
    requires i < |parts|
    ensures Offset(sep, parts, i) + |parts[i]| <= |Join(sep, parts)|
    ensures Join(sep, parts)[Offset(sep, parts, i)..Offset(sep, parts, i) + |parts[i]|] == parts[i]
    ensures i + 1 < |parts| ==>
      && Offset(sep, parts, i + 1) == Offset(sep, parts, i) + |parts[i]| + |sep|
      && Offset(sep, parts, i + 1) <= |Join(sep, parts)|
      && Join(sep, parts)[Offset(sep, parts, i) + |parts[i]|..Offset(sep, parts, i + 1)] == sep
    ensures i + 1 == |parts| ==> Offset(sep, parts, i) + |parts[i]| == |Join(sep, parts)|
  {
    JoinPartAt(sep, parts, i);
    JoinPrefix(sep, parts, i + 1);
    JoinSnoc(sep, parts, i);
    if i + 1 == |parts| {
      assert parts[..i + 1] == parts;
    }
  }

  /** Part `i` sits in the joined string at its offset. */
  lemma JoinPartAt(sep: string, parts: seq<string>, i: nat)
    requires i < |parts|
    ensures Offset(sep, parts, i) + |parts[i]| <= |Join(sep, parts)|
    ensures Join(sep, parts)[Offset(sep, parts, i)..Offset(sep, parts, i) + |parts[i]|] == parts[i]
  {
    var o := Offset(sep, parts, i);
    var ju := Join(sep, parts[..i + 1]);
    JoinSnoc(sep, parts, i);
    JoinPrefix(sep, parts, i + 1);
    assert ju[o..] == parts[i];
    var j := Join(sep, parts);
    assert j[o..o + |parts[i]|] == j[..|ju|][o..];
  }

  /** The first `i + 1` parts joined are the first `i` joined, a separator and part `i`. */
  lemma JoinSnoc(sep: string, parts: seq<string>, i: nat)
    requires i < |parts|
    ensures Join(sep, parts[..i + 1]) == if i == 0 then parts[0] else Join(sep, parts[..i]) + sep + parts[i]
    ensures |Join(sep, parts[..i + 1])| == Offset(sep, parts, i) + |parts[i]|
  {
    assert parts[..i + 1][..i] == parts[..i];
  }

  function DigitChar(d: nat): char
    requires d < 10
  {
    (('0' as int) + d) as char
  }

  predicate IsDecimal(s: string) {
    forall i :: 0 <= i < |s| ==> '0' <= s[i] <= '9'
  }

  /** The value of a string of ASCII digits. */
  function DecimalValue(s: string): nat
    requires IsDecimal(s)
  {
    if s == [] then 0
    else 10 * DecimalValue(s[..|s| - 1]) + ((s[|s| - 1] as int) - ('0' as int))
  }

  /** Python's `f"{n}"` for a natural number: digits, no leading zero. */
  function NatToString(n: nat): (r: string)
    ensures r != [] && IsDecimal(r)
    ensures r[0] == '0' ==> n == 0
  {
    if n < 10 then [DigitChar(n)] else NatToString(n / 10) + [DigitChar(n % 10)]
  }

  /** Reading the formatted number back gives the number. */
  lemma {:induction false} NatToStringRoundTrip(n: nat)
    ensures DecimalValue(NatToString(n)) == n
  {
    if n >= 10 {
      NatToStringRoundTrip(n / 10);
      var s := NatToString(n);
      assert s[..|s| - 1] == NatToString(n / 10);
    }
  }

  /** `s.split(c)[0]`: the text before the first `c`, or all of `s` when there is none. */
  function Before(s: string, c: char): (r: string)
    ensures |r| <= |s| && r == s[..|r|]
    ensures c !in r
    ensures |r| < |s| ==> s[|r|] == c
  {
    if s == [] || s[0] == c then [] else [s[0]] + Before(s[1..], c)
  }
}
