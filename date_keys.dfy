/**
 * The order on date keys used to sort the daily series. The source compares
 * the parsed times of `YYYY-MM-DD` strings; for that fixed-width format this
 * is the lexicographic order of the strings, which is what is modelled here.
 */
module DateKeys {
  import opened Types

  /**
   * `a` comes strictly before `b` in lexicographic order; in particular a
   * proper prefix comes before every extension of it.
   */
  predicate Before(a: Date, b: Date)
    ensures |a| < |b| && a == b[..|a|] ==> Before(a, b)
    decreases |a|
  {
    if |a| == 0 then |b| > 0
    else if |b| == 0 then false
    else a[0] < b[0] || (a[0] == b[0] && Before(a[1..], b[1..]))
  }

  lemma {:induction false} BeforeIrreflexive(a: Date)
    ensures !Before(a, a)
    decreases |a|
  {
    if |a| > 0 {
      BeforeIrreflexive(a[1..]);
    }
  }

  lemma {:induction false} BeforeTransitive(a: Date, b: Date, c: Date)
    requires Before(a, b) && Before(b, c)
    ensures Before(a, c)
    decreases |a|
  {
    if |a| > 0 && a[0] == b[0] && b[0] == c[0] {
      BeforeTransitive(a[1..], b[1..], c[1..]);
    }
  }

  lemma BeforeAsymmetric(a: Date, b: Date)
    requires Before(a, b)
    ensures !Before(b, a)
  {
    if Before(b, a) {
      BeforeTransitive(a, b, a);
      BeforeIrreflexive(a);
    }
  }

  /** Any two different dates are ordered one way or the other. */
  lemma {:induction false} BeforeTotal(a: Date, b: Date)
    ensures a == b || Before(a, b) || Before(b, a)
    decreases |a|
  {
    if |a| > 0 && |b| > 0 && a[0] == b[0] {
      BeforeTotal(a[1..], b[1..]);
      assert a == [a[0]] + a[1..];
      assert b == [b[0]] + b[1..];
    }
  }

  /** Strings that agree up to position `k` and differ there are ordered by that character. */
  lemma {:induction false} BeforeAt(a: Date, b: Date, k: nat)
    requires k < |a| && k < |b| && a[..k] == b[..k] && a[k] < b[k]
    ensures Before(a, b)
    decreases k
  {
    if k > 0 {
      assert a[0] == a[..k][0] == b[..k][0] == b[0];
      assert a[1..][..k - 1] == a[1..k] == a[..k][1..];
      assert b[1..][..k - 1] == b[1..k] == b[..k][1..];
      BeforeAt(a[1..], b[1..], k - 1);
    }
  }
}
