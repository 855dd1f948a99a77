/**
 * Substring search. Every pattern the message handler tests (`/help/`, `/pause|play/`,
 * the mention token `<@(!|)ID>`) is a literal or an alternation of literals, without
 * anchors, so `RegExp.prototype.test` on one literal succeeds exactly when it occurs
 * somewhere in the message content, and an alternation is the disjunction of its literals.
 */
module Text {

  predicate StartsWith(s: string, prefix: string) {
    |prefix| <= |s| && s[..|prefix|] == prefix
  }

  /** The search: `pattern` starts at the front of `s` or somewhere in its tail. */
  predicate Contains(s: string, pattern: string)
    decreases |s|
  {
    StartsWith(s, pattern) || (|s| > 0 && Contains(s[1..], pattern))
  }

  /** `pattern` occurs in `s` starting at position `i`. */
  predicate OccursAt(s: string, pattern: string, i: nat) {
    i + |pattern| <= |s| && s[i..i + |pattern|] == pattern
  }

  /** `pattern` occurs somewhere in `s` (the empty pattern occurs everywhere). */
  ghost predicate Occurs(s: string, pattern: string) {
    exists i: nat :: OccursAt(s, pattern, i)
  }

  /** An occurrence at position `i` is found by the search. */
  lemma {:induction false} ContainsAt(s: string, pattern: string, i: nat)
    requires OccursAt(s, pattern, i)
    ensures Contains(s, pattern)
    decreases i
  {
    if i == 0 {
      assert s[..|pattern|] == pattern;
    } else {
      assert s[1..][i - 1..i - 1 + |pattern|] == s[i..i + |pattern|];
      ContainsAt(s[1..], pattern, i - 1);
    }
  }

  /** The search succeeds only when the pattern really occurs. */
  lemma {:induction false} ContainsWitness(s: string, pattern: string)
    requires Contains(s, pattern)
    ensures exists i: nat :: OccursAt(s, pattern, i)
    decreases |s|
  {
    if StartsWith(s, pattern) {
      assert OccursAt(s, pattern, 0);
    } else {
      ContainsWitness(s[1..], pattern);
      var i: nat :| OccursAt(s[1..], pattern, i);
      assert s[1..][i..i + |pattern|] == s[i + 1..i + 1 + |pattern|];
      assert OccursAt(s, pattern, i + 1);
    }
  }

  /** The search succeeds exactly when the pattern occurs. */
  lemma ContainsIffOccurs(s: string, pattern: string)
    ensures Contains(s, pattern) <==> Occurs(s, pattern)
  {
    if Contains(s, pattern) {
      ContainsWitness(s, pattern);
    }
    if Occurs(s, pattern) {
      var i: nat :| OccursAt(s, pattern, i);
      ContainsAt(s, pattern, i);
    }
  }

  /** Whatever surrounds it, a pattern written into a string is found there. */
  lemma ContainsInfix(before: string, pattern: string, after: string)
    ensures Contains(before + pattern + after, pattern)
  {
    var s := before + pattern + after;
    assert s[|before|..|before| + |pattern|] == pattern;
    ContainsAt(s, pattern, |before|);
  }
}
