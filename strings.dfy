/**
 * The two string operations of Python that the decision rules depend on:
 * `s.split(sep)[0]` (the text before the first separator) and `t in s`
 * (substring containment).
 */
module Strings {

  /** `p` is a prefix of `s`. */
  predicate IsPrefix(p: string, s: string)
  {
    |p| <= |s| && s[..|p|] == p
  }

  /**
   * The position of the first `sep` at or after position `i`, or `|s|` when
   * there is none.
   */
  function FirstIndexFrom(s: string, sep: char, i: nat): (k: nat)
    requires i <= |s|
    ensures i <= k <= |s|
    decreases |s| - i
  {
    if i == |s| || s[i] == sep then i else FirstIndexFrom(s, sep, i + 1)
  }

  /** `FirstIndexFrom` stops at the first `sep` and skips nothing but other characters. */
  lemma {:induction false} FirstIndexFromIsFirst(s: string, sep: char, i: nat)
    requires i <= |s|
    ensures var k := FirstIndexFrom(s, sep, i);
      (k == |s| || s[k] == sep) && forall j :: i <= j < k ==> s[j] != sep
    decreases |s| - i
  {
    if i < |s| && s[i] != sep {
      FirstIndexFromIsFirst(s, sep, i + 1);
    }
  }

  /**
   * Python's `s.split(sep)[0]`: everything before the first `sep`, or the
   * whole of `s` when `sep` does not occur in it.
   */
  function BeforeFirst(s: string, sep: char): (head: string)
    ensures IsPrefix(head, s)
    ensures sep !in head
    ensures |head| == |s| || s[|head|] == sep
  {
    FirstIndexFromIsFirst(s, sep, 0);
    s[..FirstIndexFrom(s, sep, 0)]
  }

  /**
   * The three postconditions of `BeforeFirst` determine its result: a prefix
   * free of `sep` that ends where `s` ends or at a `sep` is the head.
   */
  lemma BeforeFirstIs(s: string, sep: char, key: string)
    requires IsPrefix(key, s) && sep !in key
    requires |key| == |s| || s[|key|] == sep
    ensures BeforeFirst(s, sep) == key
  {
  }

  /** Python's `t in s`: `t` occurs somewhere in `s` as a contiguous block. */
  predicate Contains(s: string, t: string)
    decreases |s|
  {
    IsPrefix(t, s) || (s != [] && Contains(s[1..], t))
  }

  /** `t` occurs in `s` starting at position `i`. */
  predicate OccursAt(s: string, t: string, i: int)
  {
    0 <= i <= |s| - |t| && s[i..i + |t|] == t
  }

  /** `Contains` agrees with the positional definition of a substring. */
  lemma {:induction false} ContainsAt(s: string, t: string)
    ensures Contains(s, t) <==> exists i :: OccursAt(s, t, i)
    decreases |s|
  {
    if IsPrefix(t, s) {
      assert OccursAt(s, t, 0);
    } else if s != [] {
      ContainsAt(s[1..], t);
      if Contains(s[1..], t) {
        var i :| OccursAt(s[1..], t, i);
        assert s[i + 1..i + 1 + |t|] == s[1..][i..i + |t|];
        assert OccursAt(s, t, i + 1);
      } else {
        forall i | OccursAt(s, t, i)
          ensures false
        {
          assert OccursAt(s[1..], t, i - 1) by {
            assert s[1..][i - 1..i - 1 + |t|] == s[i..i + |t|];
          }
        }
      }
    }
  }

  /** A string containing `t` contains every prefix of `t` as well. */
  lemma {:induction false} ContainsPrefixOf(s: string, t: string, u: string)
    requires Contains(s, t) && IsPrefix(u, t)
    ensures Contains(s, u)
    decreases |s|
  {
    if IsPrefix(t, s) {
      assert s[..|u|] == t[..|u|];
    } else {
      ContainsPrefixOf(s[1..], t, u);
    }
  }

  /** A non-empty `t` can only occur in `s` where the first character of `t` does. */
  lemma {:induction false} ContainsFirstChar(s: string, t: string)
    requires t != [] && Contains(s, t)
    ensures t[0] in s
    decreases |s|
  {
    if IsPrefix(t, s) {
      assert s[0] == t[0];
    } else {
      ContainsFirstChar(s[1..], t);
    }
  }

  /**
   * When the first character of `t` appears in `s` only at position 0,
   * `t` occurs in `s` exactly when it is a prefix of `s`.
   */
  lemma ContainsOnlyAsPrefix(s: string, t: string)
    requires s != [] && t != [] && t[0] !in s[1..]
    ensures Contains(s, t) <==> IsPrefix(t, s)
  {
    if Contains(s, t) && !IsPrefix(t, s) {
      ContainsFirstChar(s[1..], t);
    }
  }
}
