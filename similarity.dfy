/** The cosine similarity of `find_similar_cases` (ctgenie/backend/main.py):
    both vectors are laid out on the query's keys in sorted order, a key the
    case lacks counts as 0, and a zero norm gives similarity 0.

    There is no square root over the reals here, so the model never forms
    the cosine itself. It keeps the dot product and the squared norms, and
    ranks by the signed square of the cosine, dot * |dot| / (|q|^2 * |c|^2).
    x |-> x * |x| is strictly increasing, so this key orders cases exactly as
    the cosine does, ties included (`SignedSquareOrder`, `KeyIsSignedCosine`). */
module Similarity {
  import opened Ranking

  // ---- sorted(keys): Python's order on str ----

  /** Python's `<` on str: code points compared left to right, and a proper
      prefix before the longer string. */
  predicate LexLess(a: string, b: string)
    decreases |a|
  {
    if |a| == 0 then |b| > 0
    else if |b| == 0 then false
    else a[0] < b[0] || (a[0] == b[0] && LexLess(a[1..], b[1..]))
  }

  lemma {:induction false} LexAsymmetric(a: string, b: string)
    ensures !(LexLess(a, b) && LexLess(b, a))
    decreases |a|
  {
    if |a| > 0 && |b| > 0 && a[0] == b[0] {
      LexAsymmetric(a[1..], b[1..]);
    }
  }

  lemma {:induction false} LexTotal(a: string, b: string)
    ensures a == b || LexLess(a, b) || LexLess(b, a)
    decreases |a|
  {
    if |a| > 0 && |b| > 0 && a[0] == b[0] {
      LexTotal(a[1..], b[1..]);
      assert a == [a[0]] + a[1..] && b == [b[0]] + b[1..];
    }
  }

  lemma {:induction false} LexTransitive(a: string, b: string, c: string)
    requires LexLess(a, b) && LexLess(b, c)
    ensures LexLess(a, c)
    decreases |a|
  {
    if |a| > 0 && a[0] == b[0] && b[0] == c[0] {
      LexTransitive(a[1..], b[1..], c[1..]);
    }
  }

  /** Every non-empty set of strings has a least element. */
  lemma {:induction false} LeastExists(s: set<string>)
    requires s != {}
    ensures exists m :: m in s && forall y :: y in s && y != m ==> LexLess(m, y)
    decreases |s|
  {
    hide LexLess;
    var x :| x in s;
    var rest := s - {x};
    assert forall y :: y in s ==> y == x || y in rest;
    if rest == {} {
      assert forall y :: y in s && y != x ==> LexLess(x, y);
    } else {
      LeastExists(rest);
      var m :| m in rest && forall y :: y in rest && y != m ==> LexLess(m, y);
      if LexLess(x, m) {
        forall y | y in s && y != x
          ensures LexLess(x, y)
        {
          if y != m {
            LexTransitive(x, m, y);
          }
        }
      } else {
        LexTotal(x, m);
        assert LexLess(m, x);
        assert forall y :: y in s && y != m ==> LexLess(m, y);
      }
    }
  }

  lemma LexAsymmetricAll()
    ensures forall a: string, b: string :: !(LexLess(a, b) && LexLess(b, a))
  {
    forall a: string, b: string
      ensures !(LexLess(a, b) && LexLess(b, a))
    {
      LexAsymmetric(a, b);
    }
  }

  /** The least key of a non-empty set. */
  function Least(s: set<string>): (m: string)
    requires s != {}
    ensures m in s && forall y :: y in s && y != m ==> LexLess(m, y)
  {
    LeastExists(s);
    LexAsymmetricAll();
    var m :| m in s && forall y :: y in s && y != m ==> LexLess(m, y);
    m
  }

  /** `sorted(keys)`: every key once, in increasing order. */
  function SortedKeys(s: set<string>): (r: seq<string>)
    ensures |r| == |s|
    ensures forall k :: k in r <==> k in s
    ensures forall i, j :: 0 <= i < j < |r| ==> LexLess(r[i], r[j])
    decreases |s|
  {
    if s == {} then []
    else
      var m := Least(s);
      var rest := SortedKeys(s - {m});
      assert forall k :: k in rest ==> k in s && k != m;
      [m] + rest
  }

  // ---- the vectors ----

  /** `[d.get(k, 0) for k in keys]`. */
  function Align(keys: seq<string>, d: map<string, real>): (v: seq<real>)
    ensures |v| == |keys|
    ensures forall i :: 0 <= i < |keys| ==> v[i] == if keys[i] in d then d[keys[i]] else 0.0
  {
    seq(|keys|, i requires 0 <= i < |keys| => if keys[i] in d then d[keys[i]] else 0.0)
  }

  function Dot(a: seq<real>, b: seq<real>): real
    requires |a| == |b|
  {
    if |a| == 0 then 0.0 else a[0] * b[0] + Dot(a[1..], b[1..])
  }

  /** The squared Euclidean norm. */
  function NormSq(a: seq<real>): (r: real)
    ensures r >= 0.0
  {
    if |a| == 0 then 0.0 else a[0] * a[0] + NormSq(a[1..])
  }

  lemma {:induction false} NormSqIsDot(a: seq<real>)
    ensures NormSq(a) == Dot(a, a)
  {
    if |a| > 0 {
      NormSqIsDot(a[1..]);
    }
  }

  /** The vector x * b - y * a, component by component. */
  function Combine(x: real, y: real, a: seq<real>, b: seq<real>): (r: seq<real>)
    requires |a| == |b|
    ensures |r| == |a|
  {
    if |a| == 0 then [] else [x * b[0] - y * a[0]] + Combine(x, y, a[1..], b[1..])
  }

  lemma SquareExpand(x: real, y: real, u: real, v: real)
    ensures (x * v - y * u) * (x * v - y * u) == x * x * (v * v) + y * y * (u * u) - 2.0 * x * y * (u * v)
  {
  }

  lemma NormSqCons(a: seq<real>)
    requires |a| > 0
    ensures NormSq(a) == a[0] * a[0] + NormSq(a[1..])
  {
  }

  lemma DotCons(a: seq<real>, b: seq<real>)
    requires |a| == |b| > 0
    ensures Dot(a, b) == a[0] * b[0] + Dot(a[1..], b[1..])
  {
  }

  lemma CombineCons(x: real, y: real, a: seq<real>, b: seq<real>)
    requires |a| == |b| > 0
    ensures var t := Combine(x, y, a, b);
      |t| > 0 && t[0] == x * b[0] - y * a[0] && t[1..] == Combine(x, y, a[1..], b[1..])
  {
  }

  /** x^2 nb + y^2 na - 2 x y d: the expansion of |x b - y a|^2 in terms of
      na = |a|^2, nb = |b|^2 and d = a . b. */
  function Expansion(x: real, y: real, na: real, nb: real, d: real): real
  {
    x * x * nb + y * y * na - 2.0 * x * y * d
  }

  /** Adding the components (u, v) to the sums a = |a'|^2, b = |b'|^2 and
      c = a' . b' keeps the identity of `CombineNormSq`. */
  lemma CombineStep(x: real, y: real, u: real, v: real, a: real, b: real, c: real, e: real,
                    t: real, nt: real, na: real, nb: real, d: real)
    requires e == Expansion(x, y, a, b, c)
    requires t == x * v - y * u && nt == t * t + e
    requires na == u * u + a && nb == v * v + b && d == u * v + c
    ensures nt == Expansion(x, y, na, nb, d)
  {
    SquareExpand(x, y, u, v);
    assert x * x * (v * v + b) == x * x * (v * v) + x * x * b;
    assert y * y * (u * u + a) == y * y * (u * u) + y * y * a;
    assert 2.0 * x * y * (u * v + c) == 2.0 * x * y * (u * v) + 2.0 * x * y * c;
  }

  lemma CombineNormSqNil(x: real, y: real, a: seq<real>, b: seq<real>)
    requires |a| == |b| == 0
    ensures NormSq(Combine(x, y, a, b)) == Expansion(x, y, NormSq(a), NormSq(b), Dot(a, b))
  {
    assert Combine(x, y, a, b) == [];
  }

  /** |x b - y a|^2 = x^2 |b|^2 + y^2 |a|^2 - 2 x y (a . b). */
  lemma {:induction false} CombineNormSq(x: real, y: real, a: seq<real>, b: seq<real>)
    requires |a| == |b|
    ensures NormSq(Combine(x, y, a, b)) == Expansion(x, y, NormSq(a), NormSq(b), Dot(a, b))
  {
    hide NormSq, Dot, Combine, Expansion;
    if |a| == 0 {
      CombineNormSqNil(x, y, a, b);
    } else {
      var a', b' := a[1..], b[1..];
      var t := Combine(x, y, a, b);
      CombineCons(x, y, a, b);
      NormSqCons(t);
      NormSqCons(a);
      NormSqCons(b);
      DotCons(a, b);
      CombineNormSq(x, y, a', b');
      CombineStep(x, y, a[0], b[0], NormSq(a'), NormSq(b'), Dot(a', b'), NormSq(t[1..]),
                  t[0], NormSq(t), NormSq(a), NormSq(b), Dot(a, b));
    }
  }

  /** One step of Cauchy-Schwarz: with sums A, B, C such that C^2 <= A * B,
      and E = x^2 B + y^2 A - 2 x y C non-negative, adding the pair (x, y)
      keeps the inequality. */
  lemma CauchyStep(x: real, y: real, a: real, b: real, c: real, e: real, d: real, na: real, nb: real)
    requires c * c <= a * b
    requires e >= 0.0 && e == Expansion(x, y, a, b, c)
    requires d == x * y + c && na == x * x + a && nb == y * y + b
    ensures d * d <= na * nb
  {
    assert (x * y + c) * (x * y + c) == x * x * (y * y) + 2.0 * x * y * c + c * c;
    assert (x * x + a) * (y * y + b) == x * x * (y * y) + x * x * b + y * y * a + a * b;
  }

  lemma PositiveFactor(a: real, e: real)
    requires a > 0.0 && a * e >= 0.0
    ensures e >= 0.0
  {
  }

  lemma SquareNonNegative(t: real)
    ensures t * t >= 0.0
  {
    if t < 0.0 {
      MulPositive(-t, -t);
    } else if t > 0.0 {
      MulPositive(t, t);
    }
  }

  lemma MulPositive(a: real, b: real)
    requires a > 0.0 && b > 0.0
    ensures a * b > 0.0
  {
  }

  lemma CauchySchwarzNil(a: seq<real>, b: seq<real>)
    requires |a| == |b| == 0
    ensures Dot(a, b) * Dot(a, b) <= NormSq(a) * NormSq(b)
  {
    assert Dot(a, b) == 0.0 && NormSq(a) == 0.0 && NormSq(b) == 0.0;
  }

  /** Cauchy-Schwarz on squared quantities: dot^2 <= |a|^2 * |b|^2. */
  lemma {:induction false} CauchySchwarz(a: seq<real>, b: seq<real>)
    requires |a| == |b|
    ensures Dot(a, b) * Dot(a, b) <= NormSq(a) * NormSq(b)
  {
    hide NormSq, Dot, Combine, Expansion;
    if |a| == 0 {
      CauchySchwarzNil(a, b);
    } else {
      var x, y, a', b' := a[0], b[0], a[1..], b[1..];
      NormSqCons(a);
      NormSqCons(b);
      DotCons(a, b);
      CauchySchwarz(a', b');
      CombineNormSq(x, y, a', b');
      CauchyStep(x, y, NormSq(a'), NormSq(b'), Dot(a', b'), NormSq(Combine(x, y, a', b')),
                 Dot(a, b), NormSq(a), NormSq(b));
    }
  }

  // ---- the ranking key ----

  /** x * |x|: strictly increasing, and the square of x with x's sign. */
  function SignedSq(x: real): real
  {
    x * Abs(x)
  }

  lemma SignedSqOfNonNegative(x: real)
    requires x >= 0.0
    ensures SignedSq(x) == x * x
  {
  }

  /** The signed square of the cosine of `q` and `c`, or 0 when either norm
      is 0. */
  function Key(q: seq<real>, c: seq<real>): real
    requires |q| == |c|
  {
    if NormSq(q) > 0.0 && NormSq(c) > 0.0 then SignedSq(Dot(q, c)) / NormSq(q) / NormSq(c)
    else 0.0
  }

  lemma DivDiv(t: real, a: real, b: real)
    requires a > 0.0 && b > 0.0
    ensures t / a / b == t / (a * b)
  {
    MulPositive(a, b);
    var u := t / a / b;
    assert u * b == t / a;
    assert u * b * a == t;
    assert u * (a * b) == t;
  }

  lemma DivCancel(u: real, p: real)
    requires p > 0.0
    ensures (u * p) / p == u
  {
  }

  lemma NonPositiveFactor(a: real, e: real)
    requires a > 0.0 && a * e <= 0.0
    ensures e <= 0.0
  {
  }

  lemma UnitRatio(t: real, p: real)
    requires p > 0.0 && -p <= t <= p
    ensures -1.0 <= t / p <= 1.0
  {
    var q := t / p;
    assert p * (q - 1.0) == t - p;
    NonPositiveFactor(p, q - 1.0);
    assert p * (-1.0 - q) == -p - t;
    NonPositiveFactor(p, -1.0 - q);
  }

  lemma SignedSqBound(d: real, p: real)
    requires d * d <= p
    ensures -p <= SignedSq(d) <= p
  {
    if d < 0.0 {
      assert SignedSq(d) == -(d * d);
    } else {
      assert SignedSq(d) == d * d;
    }
  }

  /** The key lies in [-1, 1], as the cosine does, and is 0 when either
      vector is zero. */
  lemma KeyBounds(q: seq<real>, c: seq<real>)
    requires |q| == |c|
    ensures -1.0 <= Key(q, c) <= 1.0
    ensures NormSq(q) == 0.0 || NormSq(c) == 0.0 ==> Key(q, c) == 0.0
  {
    if NormSq(q) > 0.0 && NormSq(c) > 0.0 {
      NonZeroKeyBounds(q, c);
    }
  }

  lemma NonZeroKeyBounds(q: seq<real>, c: seq<real>)
    requires |q| == |c|
    requires NormSq(q) > 0.0 && NormSq(c) > 0.0
    ensures -1.0 <= Key(q, c) <= 1.0
  {
    hide Key, Dot, NormSq, SignedSq;
    KeyValue(q, c);
    CauchySchwarz(q, c);
    RatioBounds(Dot(q, c), NormSq(q), NormSq(c));
  }

  /** With d^2 <= a * b, the ratio d |d| / a / b lies in [-1, 1]. */
  lemma RatioBounds(d: real, a: real, b: real)
    requires a > 0.0 && b > 0.0 && d * d <= a * b
    ensures -1.0 <= SignedSq(d) / a / b <= 1.0
  {
    SignedSqBound(d, a * b);
    hide SignedSq;
    MulPositive(a, b);
    DivDiv(SignedSq(d), a, b);
    UnitRatio(SignedSq(d), a * b);
  }

  lemma KeyValue(q: seq<real>, c: seq<real>)
    requires |q| == |c|
    requires NormSq(q) > 0.0 && NormSq(c) > 0.0
    ensures Key(q, c) == SignedSq(Dot(q, c)) / NormSq(q) / NormSq(c)
  {
  }

  lemma KeyZero(q: seq<real>, c: seq<real>)
    requires |q| == |c|
    requires NormSq(q) == 0.0 || NormSq(c) == 0.0
    ensures Key(q, c) == 0.0
  {
  }

  lemma {:induction false} DotSymmetric(a: seq<real>, b: seq<real>)
    requires |a| == |b|
    ensures Dot(a, b) == Dot(b, a)
  {
    if |a| > 0 {
      DotSymmetric(a[1..], b[1..]);
    }
  }

  lemma DivSwap(t: real, a: real, b: real)
    requires a > 0.0 && b > 0.0
    ensures t / a / b == t / b / a
  {
    DivDiv(t, a, b);
    DivDiv(t, b, a);
    assert a * b == b * a;
  }

  /** The similarity does not depend on which vector is the query. */
  lemma KeySymmetric(q: seq<real>, c: seq<real>)
    requires |q| == |c|
    ensures Key(q, c) == Key(c, q)
  {
    hide Key, Dot, NormSq, SignedSq;
    DotSymmetric(q, c);
    if NormSq(q) > 0.0 && NormSq(c) > 0.0 {
      KeyValue(q, c);
      KeyValue(c, q);
      DivSwap(SignedSq(Dot(q, c)), NormSq(q), NormSq(c));
    } else {
      KeyZero(q, c);
      KeyZero(c, q);
    }
  }

  lemma SquareLess(x: real, y: real)
    requires 0.0 <= x < y
    ensures x * x < y * y
  {
    assert y * y - x * x == (y - x) * (y + x);
    MulPositive(y - x, y + x);
  }

  /** x * |x| is strictly increasing, so it keeps both order and ties. */
  lemma SignedSquareOrder(x: real, y: real)
    ensures x < y <==> SignedSq(x) < SignedSq(y)
    ensures x == y <==> SignedSq(x) == SignedSq(y)
  {
    if x < y {
      SignedSquareLess(x, y);
    } else if y < x {
      SignedSquareLess(y, x);
    }
  }

  lemma SignedSquareLess(x: real, y: real)
    requires x < y
    ensures SignedSq(x) < SignedSq(y)
  {
    if 0.0 <= x {
      SquareLess(x, y);
    } else if y <= 0.0 {
      SquareLess(-y, -x);
      assert (-y) * (-y) == y * y && (-x) * (-x) == x * x;
    } else {
      MulPositive(-x, -x);
      SquareNonNegative(y);
    }
  }

  lemma AbsScale(x: real, r: real)
    requires r > 0.0
    ensures Abs(x * r) == Abs(x) * r
  {
    if x < 0.0 {
      assert x * r < 0.0;
    } else {
      assert x * r >= 0.0;
    }
  }

  lemma SignedCosineAlgebra(d: real, r: real, p: real)
    requires r > 0.0 && p > 0.0 && r * r == p
    ensures SignedSq(d) / p == SignedSq(d / r)
  {
    var cos := d / r;
    assert d == cos * r;
    AbsScale(cos, r);
    assert SignedSq(d) == SignedSq(cos) * p;
    DivCancel(SignedSq(cos), p);
  }

  /** The key is the signed square of the cosine: for the positive `r` with
      r^2 = |q|^2 |c|^2 (r is the product of the two norms), it equals
      SignedSq(dot / r). So ranking by the key is ranking by the cosine. */
  lemma KeyIsSignedCosine(q: seq<real>, c: seq<real>, r: real)
    requires |q| == |c|
    requires NormSq(q) > 0.0 && NormSq(c) > 0.0
    requires r > 0.0 && r * r == NormSq(q) * NormSq(c)
    ensures Key(q, c) == SignedSq(Dot(q, c) / r)
  {
    hide Key, Dot, NormSq, SignedSq;
    KeyValue(q, c);
    var d, a, b := Dot(q, c), NormSq(q), NormSq(c);
    MulPositive(a, b);
    DivDiv(SignedSq(d), a, b);
    SignedCosineAlgebra(d, r, a * b);
  }

  lemma SquareOverSquare(n: real)
    requires n > 0.0
    ensures n * n / n / n == 1.0
  {
    assert n * n / n == n;
    assert n / n == 1.0;
  }

  /** A case identical to the query on the query's keys scores the maximum, 1. */
  lemma SelfKey(q: seq<real>)
    requires NormSq(q) > 0.0
    ensures Key(q, q) == 1.0
    ensures forall c :: |c| == |q| ==> Key(q, c) <= Key(q, q)
  {
    hide Key, Dot, NormSq, SignedSq;
    NormSqIsDot(q);
    KeyValue(q, q);
    var n := NormSq(q);
    SignedSqOfNonNegative(n);
    SquareOverSquare(n);
    forall c | |c| == |q| ensures Key(q, c) <= 1.0 {
      KeyBounds(q, c);
    }
  }

  /** Only the query's keys shape the case vector: a key that is not among
      them, whatever its value, leaves it unchanged. */
  lemma CaseOnlyKeysIgnored(keys: seq<string>, d: map<string, real>, k: string, v: real)
    requires k !in keys
    ensures Align(keys, d[k := v]) == Align(keys, d)
  {
    assert forall i :: 0 <= i < |keys| ==> keys[i] != k;
  }

  /** A key the case lacks counts as 0: adding it with value 0 changes nothing. */
  lemma MissingCountsAsZero(keys: seq<string>, d: map<string, real>, k: string)
    requires k !in d
    ensures Align(keys, d[k := 0.0]) == Align(keys, d)
  {
  }
}
