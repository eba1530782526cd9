/**
 * The Python string operations the scrapers use: `strip`, `lower`, `in`,
 * `find`, `rfind`, `split(c)[0]`, `split(c)[-1]`, `replace(p, '')` and
 * slicing `s[:n]`.
 */
module Text {

  /** Python's `str.isspace`: the characters `str.strip()` removes. */
  predicate IsSpace(c: char) {
    ('\t' <= c <= '\r') || ('\U{1C}' <= c <= '\U{1F}') || c == ' ' || c == '\U{85}' || c == '\U{A0}'
    || c == '\U{1680}' || ('\U{2000}' <= c <= '\U{200A}') || c == '\U{2028}' || c == '\U{2029}'
    || c == '\U{202F}' || c == '\U{205F}' || c == '\U{3000}'
  }

  function TrimLeft(s: string): (r: string)
    ensures |r| <= |s| && r == s[|s| - |r|..]
    ensures r == [] || !IsSpace(r[0])
    ensures forall k :: 0 <= k < |s| - |r| ==> IsSpace(s[k])
  {
    if |s| > 0 && IsSpace(s[0]) then TrimLeft(s[1..]) else s
  }

  function TrimRight(s: string): (r: string)
    ensures |r| <= |s| && r == s[..|r|]
    ensures r == [] || !IsSpace(r[|r| - 1])
    ensures forall k :: |r| <= k < |s| ==> IsSpace(s[k])
  {
    if |s| > 0 && IsSpace(s[|s| - 1]) then TrimRight(s[..|s| - 1]) else s
  }

  /** `s.strip()`: the longest infix of `s` that neither starts nor ends with whitespace. */
  function Strip(s: string): (r: string)
    ensures |r| <= |s|
    ensures forall c :: c in r ==> c in s
    ensures r == [] || (!IsSpace(r[0]) && !IsSpace(r[|r| - 1]))
    ensures (forall k :: 0 <= k < |s| ==> !IsSpace(s[k])) ==> r == s
    ensures r == [] <==> forall k :: 0 <= k < |s| ==> IsSpace(s[k])
  {
    var l := TrimLeft(s);
    var r := TrimRight(l);
    assert forall c :: c in r ==> c in l;
    assert forall c :: c in l ==> c in s;
    r
  }

  /** Trimming the left end removes only whitespace and keeps the rest as it stands. */
  lemma TrimLeftIsSuffix(s: string) returns (i: nat)
    ensures i <= |s| && TrimLeft(s) == s[i..]
    ensures forall k :: 0 <= k < i ==> IsSpace(s[k])
  {
    i := |s| - |TrimLeft(s)|;
  }

  /** Whitespace after the right-trimmed part of a suffix is whitespace of the whole text. */
  lemma TrimRightTail(s: string, i: nat)
    requires i <= |s|
    ensures i + |TrimRight(s[i..])| <= |s|
    ensures forall k :: i + |TrimRight(s[i..])| <= k < |s| ==> IsSpace(s[k])
  {
    var l := s[i..];
    var r := TrimRight(l);
    forall k | i + |r| <= k < |s| ensures IsSpace(s[k]) {
      assert s[k] == l[k - i];
    }
  }

  /** The strip is the middle of the text: only whitespace precedes and follows it. */
  lemma StripIsInfix(s: string) returns (i: nat)
    ensures i + |Strip(s)| <= |s| && Strip(s) == s[i..i + |Strip(s)|]
    ensures forall k :: 0 <= k < i ==> IsSpace(s[k])
    ensures forall k :: i + |Strip(s)| <= k < |s| ==> IsSpace(s[k])
  {
    i := TrimLeftIsSuffix(s);
    TrimRightTail(s, i);
    var r := TrimRight(s[i..]);
    assert Strip(s) == r;
    assert r == s[i..][..|r|];
    assert r == s[i..i + |r|];
  }

  /** Text that neither starts nor ends with whitespace is its own strip. */
  lemma StripKeepsTrimmed(s: string)
    requires s != [] && !IsSpace(s[0]) && !IsSpace(s[|s| - 1])
    ensures Strip(s) == s
  {
    assert TrimLeft(s) == s;
  }

  /** ASCII upper case to lower case; every other character is kept. */
  function LowerChar(c: char): char {
    if 'A' <= c <= 'Z' then (c as int + 32) as char else c
  }

  /** `s.lower()`, restricted to the ASCII letters. */
  function Lower(s: string): (r: string)
    ensures |r| == |s|
    ensures forall k :: 0 <= k < |s| ==> r[k] == LowerChar(s[k])
  {
    seq(|s|, k requires 0 <= k < |s| => LowerChar(s[k]))
  }

  /** `t` occurs in `s` starting at index `i`. */
  predicate OccursAt(s: string, t: string, i: nat) {
    i + |t| <= |s| && s[i..i + |t|] == t
  }

  /** `s.find(t, from)`: the lowest index at or after `from` where `t` occurs, or -1. */
  function Find(s: string, t: string, from: nat): (r: int)
    ensures r == -1 || (from <= r && OccursAt(s, t, r))
    ensures r == -1 ==> forall i: nat :: from <= i ==> !OccursAt(s, t, i)
    ensures r != -1 ==> forall i: nat :: from <= i < r ==> !OccursAt(s, t, i)
    decreases |s| - from
  {
    if from + |t| > |s| then -1
    else if OccursAt(s, t, from) then from
    else Find(s, t, from + 1)
  }

  /** `t in s` for strings. */
  predicate Contains(s: string, t: string) {
    Find(s, t, 0) != -1
  }

  lemma ContainsMeaning(s: string, t: string)
    ensures Contains(s, t) <==> exists i: nat :: OccursAt(s, t, i)
  {
    if !Contains(s, t) {
      forall i: nat ensures !OccursAt(s, t, i) { }
    }
  }

  /** `s.rfind(c, from)` for a single character and a non-negative `from`. */
  function RFindChar(s: string, c: char, from: nat): (r: int)
    ensures r == -1 || (from <= r < |s| && s[r] == c)
    ensures forall i :: from <= i < |s| && s[i] == c ==> i <= r
  {
    if |s| <= from then -1
    else if s[|s| - 1] == c then |s| - 1
    else RFindChar(s[..|s| - 1], c, from)
  }

  /** `s.split(c)[0]`: the text before the first `c`. */
  function BeforeFirst(s: string, c: char): (r: string)
    ensures r <= s
    ensures c !in r
    ensures r == s || s[|r|] == c
  {
    var i := Find(s, [c], 0);
    if i < 0 then
      assert forall k :: 0 <= k < |s| ==> s[k] != c by {
        forall k | 0 <= k < |s| ensures s[k] != c { assert !OccursAt(s, [c], k); }
      }
      s
    else
      assert OccursAt(s, [c], i);
      assert forall k :: 0 <= k < i ==> s[k] != c by {
        forall k | 0 <= k < i ensures s[k] != c { assert !OccursAt(s, [c], k); }
      }
      s[..i]
  }

  /** `s.split(c)[-1]`: the text after the last `c`. */
  function AfterLast(s: string, c: char): (r: string)
    ensures |r| <= |s| && r == s[|s| - |r|..]
    ensures c !in r
    ensures r == s || s[|s| - |r| - 1] == c
  {
    var i := RFindChar(s, c, 0);
    if i < 0 then s else s[i + 1..]
  }

  /** An occurrence in the tail of a text is an occurrence in the text. */
  lemma ContainsTail(s: string, t: string)
    requires s != []
    ensures Contains(s[1..], t) ==> Contains(s, t)
  {
    if Contains(s[1..], t) {
      var j := Find(s[1..], t, 0);
      assert s[1..][j..j + |t|] == s[j + 1..j + 1 + |t|];
      assert OccursAt(s, t, j + 1);
    }
  }

  /** `s.replace(p, '')`: every occurrence of `p`, scanning left to right, removed. */
  function RemoveAll(s: string, p: string): (r: string)
    ensures |r| <= |s|
    ensures p == [] ==> r == s
    ensures !Contains(s, p) ==> r == s
    decreases |s|
  {
    if p == [] || s == [] then s
    else if p <= s then RemoveAll(s[|p|..], p)
    else
      ContainsTail(s, p);
      [s[0]] + RemoveAll(s[1..], p)
  }

  lemma ConsAppend(a: string, r: string)
    requires a != []
    ensures [a[0]] + (a[1..] + r) == a + r
  {
    assert a == [a[0]] + a[1..];
  }

  /** Before the leftmost occurrence, `replace` keeps the first character and goes on with the rest. */
  lemma RemoveAllKeepsHead(a: string, p: string, b: string)
    requires p != [] && a != []
    requires forall i :: 0 <= i < |a| ==> !OccursAt(a + p + b, p, i)
    ensures RemoveAll(a + p + b, p) == [a[0]] + RemoveAll(a[1..] + p + b, p)
    ensures forall i :: 0 <= i < |a| - 1 ==> !OccursAt(a[1..] + p + b, p, i)
  {
    var s := a + p + b;
    assert !OccursAt(s, p, 0);
    assert !(p <= s);
    assert s[1..] == a[1..] + p + b;
    forall i | 0 <= i < |a| - 1 ensures !OccursAt(a[1..] + p + b, p, i) {
      assert (a[1..] + p + b)[i..i + |p|] == s[i + 1..i + 1 + |p|];
      assert !OccursAt(s, p, i + 1);
    }
  }

  /**
   * The leftmost occurrence of `p` is removed and the scan resumes right
   * after it: the text before it is kept as it stands.
   */
  lemma {:induction false} RemoveAllLeftmost(a: string, p: string, b: string)
    requires p != []
    requires forall i :: 0 <= i < |a| ==> !OccursAt(a + p + b, p, i)
    ensures RemoveAll(a + p + b, p) == a + RemoveAll(b, p)
    decreases |a|
  {
    var s := a + p + b;
    if a == [] {
      assert s == p + b;
      assert s[..|p|] == p && s[|p|..] == b;
      assert RemoveAll(s, p) == RemoveAll(b, p);
    } else {
      RemoveAllKeepsHead(a, p, b);
      var tail := a[1..];
      RemoveAllLeftmost(tail, p, b);
      ConsAppend(a, RemoveAll(b, p));
    }
  }

  /** `s[:n]`. */
  function Take(s: string, n: nat): (r: string)
    ensures r <= s
    ensures |r| == if |s| < n then |s| else n
  {
    if |s| <= n then s else s[..n]
  }
}
