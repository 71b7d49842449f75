/** Substring tests on strings, as Go's strings.HasPrefix, strings.HasSuffix and strings.Contains. */
module Text {

  predicate HasPrefix(s: string, p: string) {
    |p| <= |s| && s[..|p|] == p
  }

  predicate HasSuffix(s: string, p: string) {
    |p| <= |s| && s[|s| - |p|..] == p
  }

  /** A non-empty suffix ends where the string ends. */
  lemma LastCharOfSuffix(s: string, p: string)
    requires |p| > 0 && HasSuffix(s, p)
    ensures s[|s| - 1] == p[|p| - 1]
  {
    assert s[|s| - |p|..][|p| - 1] == s[|s| - 1];
  }

  /** `p` occurs in `s` as a contiguous run of characters. */
  predicate Contains(s: string, p: string)
    decreases |s|
  {
    HasPrefix(s, p) || (|s| > 0 && Contains(s[1..], p))
  }

  /** An occurrence of `p` at position `i` is enough for `Contains`. */
  lemma {:induction false} ContainsAt(s: string, p: string, i: nat)
    requires i + |p| <= |s| && s[i..i + |p|] == p
    ensures Contains(s, p)
    decreases i
  {
    if i == 0 {
      assert HasPrefix(s, p);
    } else {
      assert s[1..][i - 1..i - 1 + |p|] == s[i..i + |p|];
      ContainsAt(s[1..], p, i - 1);
    }
  }

  /** Every string contains its own suffix `p`: how error messages are built. */
  lemma ContainsSuffix(a: string, p: string)
    ensures Contains(a + p, p)
  {
    assert (a + p)[|a|..|a| + |p|] == p;
    ContainsAt(a + p, p, |a|);
  }

  /** Every occurrence found by `Contains` sits at some position of `s`. */
  lemma {:induction false} ContainsWitness(s: string, p: string) returns (i: nat)
    requires Contains(s, p)
    ensures i + |p| <= |s| && s[i..i + |p|] == p
    decreases |s|
  {
    if HasPrefix(s, p) {
      i := 0;
    } else {
      var k := ContainsWitness(s[1..], p);
      assert s[1..][k..k + |p|] == s[k + 1..k + 1 + |p|];
      i := k + 1;
    }
  }
}
