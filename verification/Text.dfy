/** Substrings. */
module Text {
  predicate OccursAt(s: string, t: string, i: nat) {
    i + |t| <= |s| && s[i..i + |t|] == t
  }

  predicate Contains(s: string, t: string) {
    exists i: nat :: i <= |s| && OccursAt(s, t, i)
  }

  lemma OccurrenceLetter(s: string, t: string, i: nat, k: nat)
    requires OccursAt(s, t, i) && k < |t|
    ensures s[i + k] in t
  {
    assert t[k] == s[i..i + |t|][k];
  }

  /** An occurrence in `a + "=" + b` of a text without '=' lies in `a` or in `b`. */
  lemma NoStraddling(a: string, b: string, t: string)
    requires '=' !in t && t != ""
    ensures Contains(a + "=" + b, t) <==> Contains(a, t) || Contains(b, t)
  {
    var s := a + "=" + b;
    assert s[|a|] == '=';
    forall i: nat | i <= |s| && OccursAt(s, t, i) ensures Contains(a, t) || Contains(b, t) {
      if i + |t| <= |a| {
        assert s[i..i + |t|] == a[i..i + |t|];
        assert OccursAt(a, t, i);
      } else if i > |a| {
        var j := i - |a| - 1;
        assert s[i..i + |t|] == b[j..j + |t|];
        assert OccursAt(b, t, j);
      } else {
        OccurrenceLetter(s, t, i, |a| - i);
        assert false;
      }
    }
    if Contains(a, t) {
      var i: nat :| i <= |a| && OccursAt(a, t, i);
      assert s[i..i + |t|] == a[i..i + |t|];
      assert OccursAt(s, t, i);
    }
    if Contains(b, t) {
      var j: nat :| j <= |b| && OccursAt(b, t, j);
      var i := j + |a| + 1;
      assert s[i..i + |t|] == b[j..j + |t|];
      assert OccursAt(s, t, i);
    }
  }

  lemma ContainsItself(t: string)
    ensures Contains(t, t)
  {
    assert t[0..|t|] == t;
    assert OccursAt(t, t, 0);
  }
}
