/**
 * The order in which a feature vector ranks its terms when it is pruned:
 * higher weight first, and among equal weights the lexicographically
 * smaller term first (Java's String.compareTo on the characters).
 */
module TermOrder {

  /** Strict lexicographic order on strings (a proper prefix comes first). */
  predicate LexLess(a: string, b: string)
    decreases |a|
  {
    if |a| == 0 then |b| > 0
    else if |b| == 0 then false
    else if a[0] == b[0] then LexLess(a[1..], b[1..])
    else a[0] < b[0]
  }

  lemma {:induction false} LexLessIrreflexive(a: string)
    ensures !LexLess(a, a)
    decreases |a|
  {
    if |a| > 0 {
      LexLessIrreflexive(a[1..]);
    }
  }

  lemma {:induction false} LexLessTransitive(a: string, b: string, c: string)
    requires LexLess(a, b) && LexLess(b, c)
    ensures LexLess(a, c)
    decreases |a|
  {
    if |a| > 0 && a[0] == b[0] && b[0] == c[0] {
      LexLessTransitive(a[1..], b[1..], c[1..]);
    }
  }

  lemma {:induction false} LexLessTotal(a: string, b: string)
    requires a != b
    ensures LexLess(a, b) || LexLess(b, a)
    decreases |a|
  {
    if |a| > 0 && |b| > 0 && a[0] == b[0] {
      assert a == [a[0]] + a[1..] && b == [b[0]] + b[1..];
      LexLessTotal(a[1..], b[1..]);
    }
  }

  /** Term t with weight wt comes before term u with weight wu in the pruning order. */
  predicate Outranks(t: string, wt: real, u: string, wu: real)
  {
    wt > wu || (wt == wu && LexLess(t, u))
  }

  lemma OutranksIrreflexive(t: string, w: real)
    ensures !Outranks(t, w, t, w)
  {
    LexLessIrreflexive(t);
  }

  lemma OutranksTransitive(a: string, wa: real, b: string, wb: real, c: string, wc: real)
    requires Outranks(a, wa, b, wb) && Outranks(b, wb, c, wc)
    ensures Outranks(a, wa, c, wc)
  {
    if wa == wb && wb == wc {
      LexLessTransitive(a, b, c);
    }
  }

  lemma OutranksTotal(a: string, wa: real, b: string, wb: real)
    requires a != b
    ensures Outranks(a, wa, b, wb) || Outranks(b, wb, a, wa)
  {
    LexLessTotal(a, b);
  }

  lemma OutranksAsymmetric(a: string, wa: real, b: string, wb: real)
    requires Outranks(a, wa, b, wb)
    ensures !Outranks(b, wb, a, wa)
  {
    if Outranks(b, wb, a, wa) {
      OutranksTransitive(a, wa, b, wb, a, wa);
      OutranksIrreflexive(a, wa);
    }
  }
}
