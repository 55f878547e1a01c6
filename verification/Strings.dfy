/** Searching in strings, as Go's strings.Contains and strings.LastIndex do. */
module Strings {

  predicate MatchAt(s: string, sub: string, i: int) {
    0 <= i && i + |sub| <= |s| && s[i..i + |sub|] == sub
  }

  predicate Contains(s: string, sub: string) {
    exists i | 0 <= i <= |s| :: MatchAt(s, sub, i)
  }

  /** The last position of sub at or before n, -1 if there is none. */
  function LastMatch(s: string, sub: string, n: int): (i: int)
    requires n <= |s|
    ensures i == -1 || (0 <= i <= n && MatchAt(s, sub, i))
    ensures forall k | i < k <= n :: !MatchAt(s, sub, k)
    decreases n + 1
  {
    if n < 0 then -1
    else if MatchAt(s, sub, n) then n
    else LastMatch(s, sub, n - 1)
  }

  function LastIndex(s: string, sub: string): (i: int)
    ensures i == -1 <==> !Contains(s, sub)
    ensures i != -1 ==> MatchAt(s, sub, i)
    ensures forall k | k > i :: !MatchAt(s, sub, k)
  {
    LastMatch(s, sub, |s|)
  }

  /** A string contains another when it can be cut before and after it. */
  lemma ContainsIs(s: string, sub: string)
    ensures Contains(s, sub) <==> exists u, v :: s == u + sub + v
  {
    if Contains(s, sub) {
      var i :| 0 <= i <= |s| && MatchAt(s, sub, i);
      assert s == s[..i] + sub + s[i + |sub|..];
    }
    if u, v :| s == u + sub + v {
      assert s[|u|..|u| + |sub|] == sub;
      assert MatchAt(s, sub, |u|);
    }
  }

  lemma MatchAtIndex(s: string, sub: string, i: int, k: nat)
    requires MatchAt(s, sub, i) && k < |sub|
    ensures s[i + k] == sub[k]
  {
    assert s[i..i + |sub|][k] == sub[k];
  }

  /** A position is a match when every character agrees. */
  lemma MatchFromChars(s: string, sub: string, i: nat)
    requires i + |sub| <= |s| && forall k | 0 <= k < |sub| :: s[i + k] == sub[k]
    ensures MatchAt(s, sub, i)
  {
    assert s[i..i + |sub|] == sub;
  }

  lemma MatchInPart(a: string, b: string, sub: string, i: nat)
    requires i + |sub| <= |a|
    ensures MatchAt(a + b, sub, i) <==> MatchAt(a, sub, i)
  {
    assert (a + b)[i..i + |sub|] == a[i..i + |sub|];
  }

  lemma MatchInSuffix(a: string, b: string, sub: string, i: nat)
    ensures MatchAt(a + b, sub, |a| + i) <==> MatchAt(b, sub, i)
  {
    if i + |sub| <= |b| {
      assert (a + b)[|a| + i..|a| + i + |sub|] == b[i..i + |sub|];
    }
  }
}
