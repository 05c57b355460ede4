/**
 * The weighted edit distance of the `Levenshtein` package, `Levenshtein.distance(a, b,
 * weights=(insertion, deletion, substitution))`: the cheapest way to turn `a` into `b`
 * by inserting, deleting and substituting characters at the given costs.
 */
module Levenshtein {

  datatype Weights = Weights(insertion: nat, deletion: nat, substitution: nat)

  /** `weights=(0, 1, 1)`: inserting into the query is free. */
  const InsertFree := Weights(0, 1, 1)
  /** `weights=(1, 0, 1)`: deleting from the query is free. */
  const DeleteFree := Weights(1, 0, 1)
  /** `weights=(1, 1, 1)`: the plain Levenshtein distance. */
  const Uniform := Weights(1, 1, 1)

  function Min(x: nat, y: nat): nat { if x <= y then x else y }

  function Min3(x: nat, y: nat, z: nat): (r: nat)
    ensures r <= x && r <= y && r <= z
    ensures r == x || r == y || r == z
  {
    Min(x, Min(y, z))
  }

  /**
   * Never more than deleting all of `a` and inserting all of `b`, and for strings of equal
   * length never more than substituting every position.
   */
  function Distance(a: string, b: string, w: Weights): (d: nat)
    ensures d <= |a| * w.deletion + |b| * w.insertion
    ensures |a| == |b| ==> d <= |a| * w.substitution
    decreases |a| + |b|
  {
    if |a| == 0 then |b| * w.insertion
    else if |b| == 0 then |a| * w.deletion
    else
      MulStep(|a|, w.deletion);
      MulStep(|b|, w.insertion);
      MulStep(|a|, w.substitution);
      Min3(Distance(a[1..], b, w) + w.deletion,
           Distance(a, b[1..], w) + w.insertion,
           Distance(a[1..], b[1..], w) + (if a[0] == b[0] then 0 else w.substitution))
  }

  lemma MulStep(n: nat, k: nat)
    requires n > 0
    ensures (n - 1) * k + k == n * k
  {
  }

  /** A string is at distance 0 from itself, under any weights. */
  lemma {:induction false} DistanceToSelf(a: string, w: Weights)
    ensures Distance(a, a, w) == 0
  {
    if |a| > 0 {
      DistanceToSelf(a[1..], w);
    }
  }

  /** With free insertion, `a` is at distance 0 from `a + y`. */
  lemma {:induction false} ExtensionIsFree(a: string, y: string, w: Weights)
    requires w.insertion == 0
    ensures Distance(a, a + y, w) == 0
  {
    if |a| > 0 {
      assert (a + y)[1..] == a[1..] + y;
      ExtensionIsFree(a[1..], y, w);
    }
  }

  /**
   * With free insertion, a query is at distance 0 from every string that contains it:
   * the matching is substring-tolerant.
   */
  lemma {:induction false} ContainedIsFree(a: string, x: string, y: string, w: Weights)
    requires w.insertion == 0
    ensures Distance(a, x + a + y, w) == 0
  {
    if |x| == 0 {
      assert x + a + y == a + y;
      ExtensionIsFree(a, y, w);
    } else if |a| == 0 {
    } else {
      assert (x + a + y)[1..] == x[1..] + a + y;
      ContainedIsFree(a, x[1..], y, w);
    }
  }

  /** With free deletion, `a + y` is at distance 0 from `a`. */
  lemma {:induction false} TruncationIsFree(a: string, y: string, w: Weights)
    requires w.deletion == 0
    ensures Distance(a + y, a, w) == 0
  {
    if |a| > 0 {
      assert (a + y)[1..] == a[1..] + y;
      TruncationIsFree(a[1..], y, w);
    }
  }

  /** With free deletion, every string containing `b` is at distance 0 from `b`. */
  lemma {:induction false} ContainingIsFree(b: string, x: string, y: string, w: Weights)
    requires w.deletion == 0
    ensures Distance(x + b + y, b, w) == 0
  {
    if |x| == 0 {
      assert x + b + y == b + y;
      TruncationIsFree(b, y, w);
    } else if |b| == 0 {
    } else {
      assert (x + b + y)[1..] == x[1..] + b + y;
      ContainingIsFree(b, x[1..], y, w);
    }
  }

  /** Changing one character costs at most one substitution. */
  lemma {:induction false} OneSubstitution(p: string, c: char, d: char, s: string, w: Weights)
    ensures Distance(p + [c] + s, p + [d] + s, w) <= w.substitution
  {
    if |p| == 0 {
      assert p + [c] + s == [c] + s && ([c] + s)[1..] == s;
      assert p + [d] + s == [d] + s && ([d] + s)[1..] == s;
      DistanceToSelf(s, w);
    } else {
      assert (p + [c] + s)[1..] == p[1..] + [c] + s;
      assert (p + [d] + s)[1..] == p[1..] + [d] + s;
      OneSubstitution(p[1..], c, d, s, w);
    }
  }

  /** How many characters of `a` occur nowhere in `b`. */
  function Missing(a: string, b: string): (r: nat)
    ensures r <= |a|
  {
    if a == [] then 0 else (if a[0] in b then 0 else 1) + Missing(a[1..], b)
  }

  lemma {:induction false} MissingShrinks(a: string, b: string)
    requires |b| > 0
    ensures Missing(a, b[1..]) >= Missing(a, b)
  {
    if a != [] {
      MissingShrinks(a[1..], b);
    }
  }

  /**
   * When deleting and substituting each cost at least 1, every character of `a` that
   * occurs nowhere in `b` costs at least 1.
   */
  lemma {:induction false} MissingFromTargetBound(a: string, b: string, w: Weights)
    requires w.deletion >= 1 && w.substitution >= 1
    ensures Distance(a, b, w) >= Missing(a, b)
    decreases |a| + |b|
  {
    if |a| == 0 {
    } else if |b| == 0 {
      assert Missing(a, b) <= |a| <= |a| * w.deletion;
    } else {
      MissingFromTargetBound(a[1..], b, w);
      MissingFromTargetBound(a, b[1..], w);
      MissingFromTargetBound(a[1..], b[1..], w);
      MissingShrinks(a, b);
      MissingShrinks(a[1..], b);
      assert a[0] !in b ==> a[0] != b[0];
    }
  }

  /**
   * When inserting and substituting each cost at least 1, every character of `b` that
   * occurs nowhere in `a` costs at least 1.
   */
  lemma {:induction false} MissingFromSourceBound(a: string, b: string, w: Weights)
    requires w.insertion >= 1 && w.substitution >= 1
    ensures Distance(a, b, w) >= Missing(b, a)
    decreases |a| + |b|
  {
    if |b| == 0 {
    } else if |a| == 0 {
      assert Missing(b, a) <= |b| <= |b| * w.insertion;
    } else {
      MissingFromSourceBound(a[1..], b, w);
      MissingFromSourceBound(a, b[1..], w);
      MissingFromSourceBound(a[1..], b[1..], w);
      MissingShrinks(b, a);
      MissingShrinks(b[1..], a);
      assert b[0] !in a ==> a[0] != b[0];
    }
  }
}
