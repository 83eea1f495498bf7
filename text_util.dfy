/** Helpers shared by the page scripts: the JavaScript `\s` class and
    `String.prototype.trim`, ASCII `toLowerCase`, `includes`, `replace` of the
    first occurrence of a literal, decimal rendering of a natural number, and
    the optional-value type. */
module TextUtil {

  /** A value that may be missing: an absent query parameter or storage
      entry, a lookup that found nothing. */
  datatype Option<T> = None | Some(value: T)

  /** `localStorage.getItem(key)` over a store modelled as a map. */
  function GetItem(store: map<string, string>, key: string): (r: Option<string>)
    ensures r.Some? <==> key in store
    ensures r.Some? ==> r.value == store[key]
  {
    if key in store then Some(store[key]) else None
  }

  /** The stored value is truthy: present and not the empty string. */
  predicate HasItem(store: map<string, string>, key: string) {
    key in store && store[key] != ""
  }

  /** ECMAScript WhiteSpace and LineTerminator code points: the characters
      matched by `\s` and removed by `trim`. */
  predicate IsWs(c: char) {
    c == '\t' || c == '\n' || c == '\U{000B}' || c == '\U{000C}' || c == '\r' ||
    c == ' ' || c == '\U{00A0}' || c == '\U{1680}' ||
    ('\U{2000}' <= c <= '\U{200A}') ||
    c == '\U{2028}' || c == '\U{2029}' || c == '\U{202F}' || c == '\U{205F}' ||
    c == '\U{3000}' || c == '\U{FEFF}'
  }

  predicate NoWs(s: string) {
    forall i :: 0 <= i < |s| ==> !IsWs(s[i])
  }

  predicate AllWs(s: string) {
    forall i :: 0 <= i < |s| ==> IsWs(s[i])
  }

  predicate IsDigit(c: char) {
    '0' <= c <= '9'
  }

  predicate AllDigits(s: string) {
    forall i :: 0 <= i < |s| ==> IsDigit(s[i])
  }

  /** `s.trimStart()`: drop leading whitespace. */
  function TrimStart(s: string): (r: string)
    ensures |r| <= |s|
  {
    if s == [] || !IsWs(s[0]) then s else TrimStart(s[1..])
  }

  /** `s.trimEnd()`: drop trailing whitespace. */
  function TrimEnd(s: string): (r: string)
    ensures |r| <= |s|
  {
    if s == [] || !IsWs(s[|s| - 1]) then s else TrimEnd(s[..|s| - 1])
  }

  /** `s.trim()`. */
  function Trim(s: string): string {
    TrimEnd(TrimStart(s))
  }

  /** `trimStart` removes a whitespace prefix and stops at the first
      non-whitespace character. */
  lemma {:induction false} TrimStartShape(s: string)
    ensures var r := TrimStart(s);
      r == s[|s| - |r|..] && AllWs(s[..|s| - |r|]) && (r == [] || !IsWs(r[0]))
  {
    if s != [] && IsWs(s[0]) {
      var t := s[1..];
      var r := TrimStart(t);
      TrimStartShape(t);
      var n := |s| - |r|;
      assert t[|t| - |r|..] == s[n..];
      forall k | 0 <= k < n ensures IsWs(s[..n][k]) {
        if k > 0 {
          assert s[..n][k] == t[..|t| - |r|][k - 1];
        }
      }
    }
  }

  /** `trimEnd` removes a whitespace suffix and stops at the last
      non-whitespace character. */
  lemma {:induction false} TrimEndShape(s: string)
    ensures var r := TrimEnd(s);
      r == s[..|r|] && AllWs(s[|r|..]) && (r == [] || !IsWs(r[|r| - 1]))
  {
    if s != [] && IsWs(s[|s| - 1]) {
      var t := s[..|s| - 1];
      var r := TrimEnd(t);
      TrimEndShape(t);
      assert t[..|r|] == s[..|r|];
      forall k | 0 <= k < |s| - |r| ensures IsWs(s[|r|..][k]) {
        if k < |t| - |r| {
          assert s[|r|..][k] == t[|r|..][k];
        }
      }
    }
  }

  /** A trimmed value is the slice of the input left between a whitespace
      prefix and a whitespace suffix, and has no whitespace at either end. */
  lemma TrimShape(s: string)
    ensures var i, r := |s| - |TrimStart(s)|, Trim(s);
      i + |r| <= |s| && r == s[i..i + |r|] && AllWs(s[..i]) && AllWs(s[i + |r|..]) &&
      (r == [] || (!IsWs(r[0]) && !IsWs(r[|r| - 1])))
  {
    var t := TrimStart(s);
    var r := TrimEnd(t);
    var i := |s| - |t|;
    TrimStartShape(s);
    TrimEndShape(t);
    assert t == s[i..];
    assert r == s[i..i + |r|];
    assert s[i + |r|..] == t[|r|..];
    if r != [] {
      assert r[0] == t[0];
    }
  }

  lemma {:induction false} TrimStartAllWs(s: string)
    requires AllWs(s)
    ensures TrimStart(s) == []
  {
    if s != [] {
      TrimStartAllWs(s[1..]);
    }
  }

  /** The trimmed value is empty exactly when the input is all whitespace:
      the "required field" test of every form on the site. */
  lemma TrimEmptyIffAllWs(s: string)
    ensures Trim(s) == [] <==> AllWs(s)
  {
    var t := TrimStart(s);
    if AllWs(s) {
      TrimStartAllWs(s);
    }
    if Trim(s) == [] {
      TrimStartShape(s);
      TrimEndShape(t);
      assert t[0..] == t;
      assert s == s[..|s| - |t|] + t;
    }
  }

  /** Trimming a value with non-blank ends changes nothing. */
  lemma TrimOfNonBlankEnds(s: string)
    requires s != [] && !IsWs(s[0]) && !IsWs(s[|s| - 1])
    ensures Trim(s) == s
  {
  }

  lemma {:induction false} TrimStartWsPrefix(a: string, s: string)
    requires AllWs(a)
    ensures TrimStart(a + s) == TrimStart(s)
  {
    if a != [] {
      assert (a + s)[1..] == a[1..] + s;
      TrimStartWsPrefix(a[1..], s);
    } else {
      assert a + s == s;
    }
  }

  lemma {:induction false} TrimStartAppend(v: string, b: string)
    requires !AllWs(v)
    ensures TrimStart(v + b) == TrimStart(v) + b
  {
    if IsWs(v[0]) {
      assert (v + b)[1..] == v[1..] + b;
      TrimStartAppend(v[1..], b);
    }
  }

  lemma {:induction false} TrimEndWsSuffix(x: string, b: string)
    requires AllWs(b)
    ensures TrimEnd(x + b) == TrimEnd(x)
    decreases |b|
  {
    if b != [] {
      var b' := b[..|b| - 1];
      assert (x + b)[..|x + b| - 1] == x + b';
      TrimEndWsSuffix(x, b');
    } else {
      assert x + b == x;
    }
  }

  /** Whitespace around a value never changes what `trim` returns, so every
      trimmed-length check ignores padding. */
  lemma TrimIgnoresPadding(a: string, v: string, b: string)
    requires AllWs(a) && AllWs(b)
    ensures Trim(a + v + b) == Trim(v)
  {
    assert a + v + b == a + (v + b);
    TrimStartWsPrefix(a, v + b);
    if AllWs(v) {
      assert AllWs(v + b);
      TrimStartAllWs(v + b);
      TrimStartAllWs(v);
    } else {
      TrimStartAppend(v, b);
      TrimEndWsSuffix(TrimStart(v), b);
    }
  }

  /** ASCII `toLowerCase`. */
  function LowerChar(c: char): (d: char)
    ensures 'A' <= c <= 'Z' ==> 'a' <= d <= 'z'
    ensures !('A' <= c <= 'Z') ==> d == c
  {
    if 'A' <= c <= 'Z' then (c as int + 32) as char else c
  }

  function ToLower(s: string): (r: string)
    ensures |r| == |s|
    ensures forall i :: 0 <= i < |s| ==> r[i] == LowerChar(s[i])
  {
    if s == [] then [] else [LowerChar(s[0])] + ToLower(s[1..])
  }

  predicate StartsWith(s: string, p: string) {
    |p| <= |s| && s[..|p|] == p
  }

  predicate EndsWith(s: string, p: string) {
    |p| <= |s| && s[|s| - |p|..] == p
  }

  /** `p` occurs in `s` starting at index `i`. */
  predicate OccursAt(s: string, p: string, i: int) {
    0 <= i <= |s| - |p| && s[i..i + |p|] == p
  }

  /** `s.includes(t)` as a search from the left. */
  predicate Contains(s: string, t: string)
    decreases |s|
  {
    StartsWith(s, t) || (s != [] && Contains(s[1..], t))
  }

  lemma OccursShift(s: string, p: string, i: int)
    requires s != [] && 0 <= i
    ensures OccursAt(s[1..], p, i) <==> OccursAt(s, p, i + 1)
  {
    if 0 <= i <= |s| - 1 - |p| {
      assert s[1..][i..i + |p|] == s[i + 1..i + 1 + |p|];
    }
  }

  /** `includes` agrees with "t occurs at some position of s". */
  lemma {:induction false} ContainsIffOccurs(s: string, t: string)
    ensures Contains(s, t) <==> exists i :: OccursAt(s, t, i)
    decreases |s|
  {
    if StartsWith(s, t) {
      assert OccursAt(s, t, 0);
    } else if s == [] {
    } else {
      ContainsIffOccurs(s[1..], t);
      if Contains(s[1..], t) {
        var i :| OccursAt(s[1..], t, i);
        OccursShift(s, t, i);
      } else if i :| OccursAt(s, t, i) {
        assert i != 0;
        OccursShift(s, t, i - 1);
        assert false;
      }
    }
  }

  /** Every string includes the empty string. */
  lemma ContainsEmpty(s: string)
    ensures Contains(s, [])
  {
  }

  /** Index of the first occurrence of `p` in `s`, or -1. */
  function IndexOf(s: string, p: string): (r: int)
    ensures r == -1 || OccursAt(s, p, r)
    ensures r >= 0 ==> forall j :: 0 <= j < r ==> !OccursAt(s, p, j)
    ensures r == -1 ==> forall j :: !OccursAt(s, p, j)
    decreases |s|
  {
    if |s| < |p| then -1
    else if s[..|p|] == p then 0
    else
      var k := IndexOf(s[1..], p);
      if k < 0 then
        assert forall j :: 1 <= j ==> !OccursAt(s, p, j) by {
          forall j | 1 <= j ensures !OccursAt(s, p, j) { OccursShift(s, p, j - 1); }
        }
        -1
      else
        assert forall j :: 1 <= j < k + 1 ==> !OccursAt(s, p, j) by {
          forall j | 1 <= j < k + 1 ensures !OccursAt(s, p, j) { OccursShift(s, p, j - 1); }
        }
        OccursShift(s, p, k);
        k + 1
  }

  /** `s.indexOf(c)` for a single character: the first index, or -1. */
  function IndexOfChar(s: string, c: char): (r: int)
    ensures -1 <= r < |s|
    ensures r >= 0 ==> s[r] == c && forall j :: 0 <= j < r ==> s[j] != c
    ensures r == -1 ==> forall j :: 0 <= j < |s| ==> s[j] != c
  {
    if s == [] then -1
    else if s[0] == c then 0
    else
      var k := IndexOfChar(s[1..], c);
      if k < 0 then -1 else k + 1
  }

  /** The first `c` of `e + r` is where `r` starts when `e` has none and
      `r` starts with one. */
  lemma IndexOfCharAppend(e: string, r: string, c: char)
    requires c !in e && r != [] && r[0] == c
    ensures IndexOfChar(e + r, c) == |e|
  {
    assert (e + r)[|e|] == c;
  }

  /** Splitting at the first `c`: if `e1 + r1 == e2 + r2` where neither
      `e` holds a `c` and both `r` start with one, the parts agree. */
  lemma SplitAtFirstChar(e1: string, r1: string, e2: string, r2: string, c: char)
    requires c !in e1 && r1 != [] && r1[0] == c
    requires c !in e2 && r2 != [] && r2[0] == c
    requires e1 + r1 == e2 + r2
    ensures e1 == e2 && r1 == r2
  {
    IndexOfCharAppend(e1, r1, c);
    IndexOfCharAppend(e2, r2, c);
    assert e1 == (e1 + r1)[..|e1|];
    assert e2 == (e2 + r2)[..|e2|];
    assert r1 == (e1 + r1)[|e1|..];
    assert r2 == (e2 + r2)[|e2|..];
  }

  /** `s.replace(p, x)` with a string pattern: only the first occurrence. */
  function ReplaceFirst(s: string, p: string, x: string): string {
    var k := IndexOf(s, p);
    if k < 0 then s else s[..k] + x + s[k + |p|..]
  }

  /** Replacing a placeholder whose first occurrence is at a known position. */
  lemma ReplaceAt(pre: string, p: string, post: string, x: string)
    requires forall j :: 0 <= j < |pre| ==> !OccursAt(pre + p + post, p, j)
    ensures ReplaceFirst(pre + p + post, p, x) == pre + x + post
  {
    var s := pre + p + post;
    assert s[|pre|..|pre| + |p|] == p;
    assert OccursAt(s, p, |pre|);
    var k := IndexOf(s, p);
    assert k == |pre|;
    assert s[..k] == pre;
    assert s[k + |p|..] == post;
  }

  function DigitChar(d: nat): char
    requires d < 10
  {
    ['0', '1', '2', '3', '4', '5', '6', '7', '8', '9'][d]
  }

  /** Decimal rendering of a natural number, as template literals print it. */
  function NatToString(n: nat): (r: string)
    ensures r != [] && AllDigits(r)
    ensures n < 10 ==> |r| == 1
    ensures n >= 10 ==> r[0] != '0'
  {
    if n < 10 then [DigitChar(n)]
    else NatToString(n / 10) + [DigitChar(n % 10)]
  }

  /** Value of a string of decimal digits. */
  function DigitsValue(s: string): nat
    requires AllDigits(s)
  {
    if s == [] then 0 else DigitsValue(s[..|s| - 1]) * 10 + (s[|s| - 1] as int - '0' as int)
  }

  /** Rendering is faithful: reading the digits back gives the number. */
  lemma {:induction false} NatToStringRoundTrip(n: nat)
    ensures DigitsValue(NatToString(n)) == n
  {
    if n >= 10 {
      NatToStringRoundTrip(n / 10);
      var r := NatToString(n);
      assert r[..|r| - 1] == NatToString(n / 10);
    }
  }

  /** `s.replace(/\s/g, '')`. */
  function RemoveWs(s: string): (r: string)
    ensures NoWs(r)
    ensures |r| <= |s|
  {
    if s == [] then []
    else if IsWs(s[0]) then RemoveWs(s[1..])
    else [s[0]] + RemoveWs(s[1..])
  }

  /** Removing whitespace keeps exactly the other characters. */
  lemma {:induction false} RemoveWsMembers(s: string)
    ensures forall c :: c in RemoveWs(s) <==> c in s && !IsWs(c)
  {
    if s != [] {
      RemoveWsMembers(s[1..]);
      assert forall c :: c in s <==> c == s[0] || c in s[1..];
    }
  }

  /** Removing whitespace keeps a whitespace-free string as it is. */
  lemma {:induction false} RemoveWsIdentity(s: string)
    requires NoWs(s)
    ensures RemoveWs(s) == s
  {
    if s != [] {
      RemoveWsIdentity(s[1..]);
    }
  }
}
