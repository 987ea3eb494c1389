/**
 * The order `localeCompare` puts day keys in, taken as code-point
 * lexicographic order (for keys of the form `YYYY-MM-DD` the two agree).
 */
module Lex {

  /** a comes strictly before b. */
  predicate LexLess(a: string, b: string)
    decreases |a|
  {
    if |a| == 0 then |b| > 0
    else if |b| == 0 then false
    else if a[0] != b[0] then a[0] < b[0]
    else LexLess(a[1..], b[1..])
  }

  /** `a.localeCompare(b)`: negative, zero or positive. */
  function LexCompare(a: string, b: string): int {
    if LexLess(a, b) then -1 else if LexLess(b, a) then 1 else 0
  }

  lemma {:induction false} LexIrreflexive(a: string)
    ensures !LexLess(a, a)
  {
    if |a| > 0 {
      LexIrreflexive(a[1..]);
    }
  }

  lemma {:induction false} LexTransitive(a: string, b: string, c: string)
    requires LexLess(a, b) && LexLess(b, c)
    ensures LexLess(a, c)
  {
    if |a| > 0 && a[0] == b[0] && b[0] == c[0] {
      LexTransitive(a[1..], b[1..], c[1..]);
    }
  }

  lemma {:induction false} LexTotal(a: string, b: string)
    requires a != b
    ensures LexLess(a, b) || LexLess(b, a)
  {
    if |a| > 0 && |b| > 0 && a[0] == b[0] {
      assert a == [a[0]] + a[1..] && b == [b[0]] + b[1..];
      LexTotal(a[1..], b[1..]);
    }
  }

  lemma {:induction false} LexAsymmetric(a: string, b: string)
    requires LexLess(a, b)
    ensures !LexLess(b, a)
  {
    if |a| > 0 && a[0] == b[0] {
      LexAsymmetric(a[1..], b[1..]);
    }
  }

  /** The comparator is a three-way comparison: zero exactly on equal keys. */
  lemma LexCompareMeaning(a: string, b: string)
    ensures LexCompare(a, b) < 0 <==> LexLess(a, b)
    ensures LexCompare(a, b) > 0 <==> LexLess(b, a)
    ensures LexCompare(a, b) == 0 <==> a == b
  {
    LexIrreflexive(a);
    if LexLess(a, b) {
      LexAsymmetric(a, b);
    }
    if a != b {
      LexTotal(a, b);
    }
  }
}
