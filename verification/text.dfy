/** The string tests the client performs on exception texts. */
module Text {

  /** `s` begins with `prefix`: the prefix test the contracts use to tell
      wrapped error texts apart. */
  predicate StartsWith(s: string, prefix: string)
  {
    |prefix| <= |s| && s[..|prefix|] == prefix
  }

  /** Python's substring test `sub in s`: `sub` begins at some position of `s`. */
  predicate Contains(s: string, sub: string)
    decreases |s|
  {
    StartsWith(s, sub) || (|s| > 0 && Contains(s[1..], sub))
  }

  /** `sub` occurs in `s` starting at index `i`. */
  predicate OccursAt(s: string, sub: string, i: int)
  {
    0 <= i && i + |sub| <= |s| && s[i..i + |sub|] == sub
  }

  /** An occurrence at any index is found by the scan. */
  lemma {:induction false} OccursAtContains(s: string, sub: string, i: int)
    requires OccursAt(s, sub, i)
    ensures Contains(s, sub)
    decreases i
  {
    if i == 0 {
      assert s[..|sub|] == s[0..|sub|];
    } else {
      assert s[1..][i - 1..i - 1 + |sub|] == s[i..i + |sub|];
      OccursAtContains(s[1..], sub, i - 1);
    }
  }

  /** What the scan finds is an occurrence at some index. */
  lemma {:induction false} ContainsOccurs(s: string, sub: string)
    requires Contains(s, sub)
    ensures exists i :: OccursAt(s, sub, i)
    decreases |s|
  {
    if StartsWith(s, sub) {
      assert OccursAt(s, sub, 0);
    } else {
      ContainsOccurs(s[1..], sub);
      var j :| OccursAt(s[1..], sub, j);
      assert s[1..][j..j + |sub|] == s[j + 1..j + 1 + |sub|];
      assert OccursAt(s, sub, j + 1);
    }
  }

  /** The scanning definition of `Contains` agrees with the positional one. */
  lemma ContainsIff(s: string, sub: string)
    ensures Contains(s, sub) <==> exists i :: OccursAt(s, sub, i)
  {
    if Contains(s, sub) {
      ContainsOccurs(s, sub);
    }
    forall i | OccursAt(s, sub, i)
      ensures Contains(s, sub)
    {
      OccursAtContains(s, sub, i);
    }
  }

  /** A text always contains what was appended to it. */
  lemma {:induction false} ContainsSuffix(prefix: string, tail: string)
    ensures Contains(prefix + tail, tail)
    decreases |prefix|
  {
    if prefix == [] {
      assert prefix + tail == tail;
      assert tail[..|tail|] == tail;
    } else {
      assert (prefix + tail)[1..] == prefix[1..] + tail;
      ContainsSuffix(prefix[1..], tail);
    }
  }

  /** A text that begins with `prefix` still does after anything is appended. */
  lemma StartsWithAppend(prefix: string, tail: string)
    ensures StartsWith(prefix + tail, prefix)
  {
  }

  /** A text lacking the first character of `sub` cannot contain `sub`. */
  lemma {:induction false} FirstCharAbsent(s: string, sub: string)
    requires |sub| > 0 && sub[0] !in s
    ensures !Contains(s, sub)
    decreases |s|
  {
    if |s| > 0 {
      assert s[0] != sub[0];
      assert forall c :: c in s[1..] ==> c in s;
      FirstCharAbsent(s[1..], sub);
    }
  }

  /** Texts that differ at an index below `|prefix|` do not share that prefix. */
  lemma DifferAt(s: string, prefix: string, k: nat)
    requires k < |prefix| && k < |s| && s[k] != prefix[k]
    ensures !StartsWith(s, prefix)
  {
  }

  /** A text beginning with `p` does not begin with a `q` that differs from `p`
      at an index below both lengths. */
  lemma PrefixesDiffer(p: string, q: string, tail: string, k: nat)
    requires k < |p| && k < |q| && p[k] != q[k]
    ensures !StartsWith(p + tail, q)
  {
  }
}
