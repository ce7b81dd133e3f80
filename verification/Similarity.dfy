/** Cosine similarity over exact reals. */
module Similarity {

  /** A square root on the non-negative reals, as `x ** 0.5` computes. */
  ghost predicate IsRoot(root: real -> real) {
    forall x: real :: x >= 0.0 ==> root(x) >= 0.0 && root(x) * root(x) == x
  }

  function Dot(a: seq<real>, b: seq<real>): real
    requires |a| == |b|
  {
    if a == [] then 0.0 else Dot(a[..|a| - 1], b[..|b| - 1]) + a[|a| - 1] * b[|b| - 1]
  }

  /** The dot product over both norms, 0 when a norm is. */
  function Ratio(root: real -> real, dot: real, na: real, nb: real): real {
    if na == 0.0 || nb == 0.0 then 0.0
    else
      var d := root(na) * root(nb);
      if d == 0.0 then 0.0 else dot / d
  }

  /** `cosine_similarity`: 0 for empty, mismatched or zero vectors. */
  function Cosine(root: real -> real, a: seq<real>, b: seq<real>): real {
    if a == [] || b == [] || |a| != |b| then 0.0 else Ratio(root, Dot(a, b), Dot(a, a), Dot(b, b))
  }

  lemma SquareNonNegative(x: real)
    ensures x * x >= 0.0
  {
  }

  lemma SquareLess(u: real, v: real)
    requires 0.0 <= u < v
    ensures u * u < v * v
  {
    Positive(v - u, v + u);
    assert (v - u) * (v + u) == v * v - u * u;
  }

  /** If v^2 <= u^2 and u >= 0 then v <= u. */
  lemma SquareOrder(u: real, v: real)
    requires u >= 0.0 && v * v <= u * u
    ensures v <= u
  {
    if v > u {
      SquareLess(u, v);
    }
  }

  lemma Positive(x: real, y: real)
    requires x > 0.0 && y > 0.0
    ensures x * y > 0.0
  {
  }

  lemma NonNegativeProduct(x: real, y: real)
    requires x >= 0.0 && y >= 0.0
    ensures x * y >= 0.0
  {
  }

  lemma Scale(x: real, y: real, z: real)
    requires x <= y && z >= 0.0
    ensures x * z <= y * z
  {
  }

  /** (p + q)^2 >= 4 p q. */
  lemma MeanSquare(p: real, q: real)
    ensures 4.0 * (p * q) <= (p + q) * (p + q)
  {
    SquareNonNegative(p - q);
    assert (p - q) * (p - q) == p * p - 2.0 * (p * q) + q * q;
    assert (p + q) * (p + q) == p * p + 2.0 * (p * q) + q * q;
  }

  lemma SquareOfProduct(x: real, y: real)
    ensures (x * y) * (x * y) == (x * x) * (y * y)
  {
  }

  lemma SquareOfDouble(d: real, p: real)
    ensures (2.0 * d * p) * (2.0 * d * p) == 4.0 * ((d * d) * (p * p))
  {
    SquareOfProduct(2.0 * d, p);
  }

  lemma PairProducts(a: real, b: real, x: real, y: real)
    ensures (a * b) * (x * y) == (a * y) * (b * x)
  {
  }

  lemma ExpandSquare(d: real, p: real)
    ensures (d + p) * (d + p) == d * d + 2.0 * d * p + p * p
  {
  }

  lemma ExpandProduct(a: real, b: real, x: real, y: real)
    ensures (a + x) * (b + y) == a * b + a * y + b * x + x * y
  {
  }

  /** The mixed term of one accumulation step. */
  lemma MixedTerm(d: real, na: real, nb: real, x: real, y: real)
    requires na >= 0.0 && nb >= 0.0 && d * d <= na * nb
    ensures 2.0 * d * (x * y) <= na * (y * y) + nb * (x * x)
  {
    var p, q, v := na * (y * y), nb * (x * x), 2.0 * d * (x * y);
    SquareNonNegative(x);
    SquareNonNegative(y);
    NonNegativeProduct(na, y * y);
    NonNegativeProduct(nb, x * x);
    NonNegativeProduct(x * x, y * y);
    SquareOfDouble(d, x * y);
    SquareOfProduct(x, y);
    Scale(d * d, na * nb, (x * x) * (y * y));
    PairProducts(na, nb, x * x, y * y);
    MeanSquare(p, q);
    SquareOrder(p + q, v);
  }

  /** One step of the accumulation keeps dot^2 <= na * nb. */
  lemma CauchyStep(d: real, na: real, nb: real, x: real, y: real)
    requires na >= 0.0 && nb >= 0.0 && d * d <= na * nb
    ensures (d + x * y) * (d + x * y) <= (na + x * x) * (nb + y * y)
  {
    MixedTerm(d, na, nb, x, y);
    ExpandSquare(d, x * y);
    SquareOfProduct(x, y);
    ExpandProduct(na, nb, x * x, y * y);
  }

  lemma {:induction false} NormNonNegative(a: seq<real>)
    ensures Dot(a, a) >= 0.0
  {
    if a != [] {
      NormNonNegative(a[..|a| - 1]);
      SquareNonNegative(a[|a| - 1]);
    }
  }

  /** Cauchy-Schwarz for vectors of any length. */
  lemma {:induction false} CauchySchwarz(a: seq<real>, b: seq<real>)
    requires |a| == |b|
    ensures Dot(a, b) * Dot(a, b) <= Dot(a, a) * Dot(b, b)
  {
    if a != [] {
      var n := |a| - 1;
      CauchySchwarz(a[..n], b[..n]);
      NormNonNegative(a[..n]);
      NormNonNegative(b[..n]);
      CauchyStep(Dot(a[..n], b[..n]), Dot(a[..n], a[..n]), Dot(b[..n], b[..n]), a[n], b[n]);
    }
  }

  lemma RootPositive(root: real -> real, x: real)
    requires IsRoot(root) && x > 0.0
    ensures root(x) > 0.0 && root(x) * root(x) == x
  {
    var r := root(x);
    assert r == 0.0 ==> r * r == 0.0;
  }

  lemma QuotientBounds(q: real, d: real)
    requires d > 0.0 && -d <= q * d <= d
    ensures -1.0 <= q <= 1.0
  {
    if q > 1.0 { Positive(q - 1.0, d); }
    if q < -1.0 { Positive(-1.0 - q, d); }
  }

  lemma DivBounds(x: real, d: real)
    requires d > 0.0 && -d <= x <= d
    ensures -1.0 <= x / d <= 1.0
  {
    var q := x / d;
    assert q * d == x;
    QuotientBounds(q, d);
  }

  lemma RatioBounded(dot: real, na: real, nb: real, ra: real, rb: real)
    requires ra > 0.0 && rb > 0.0 && ra * ra == na && rb * rb == nb && dot * dot <= na * nb
    ensures ra * rb > 0.0 && -1.0 <= dot / (ra * rb) <= 1.0
  {
    var d := ra * rb;
    Positive(ra, rb);
    assert d * d == na * nb by {
      assert d * d == (ra * ra) * (rb * rb);
    }
    SquareOrder(d, dot);
    assert (-dot) * (-dot) == dot * dot;
    SquareOrder(d, -dot);
    DivBounds(dot, d);
  }

  lemma RatioIs(root: real -> real, dot: real, na: real, nb: real, ra: real, rb: real)
    requires na != 0.0 && nb != 0.0 && ra == root(na) && rb == root(nb) && ra * rb != 0.0
    ensures Ratio(root, dot, na, nb) == dot / (ra * rb)
  {
  }

  lemma RootRatio(root: real -> real, dot: real, na: real, nb: real)
    requires IsRoot(root) && na >= 0.0 && nb >= 0.0 && dot * dot <= na * nb
    ensures -1.0 <= Ratio(root, dot, na, nb) <= 1.0
  {
    if na != 0.0 && nb != 0.0 {
      RootPositive(root, na);
      RootPositive(root, nb);
      RatioBounded(dot, na, nb, root(na), root(nb));
      RatioIs(root, dot, na, nb, root(na), root(nb));
    }
  }

  /** The similarity of any two vectors lies in [-1, 1]. */
  lemma CosineBounded(root: real -> real, a: seq<real>, b: seq<real>)
    requires IsRoot(root)
    ensures -1.0 <= Cosine(root, a, b) <= 1.0
  {
    if a != [] && b != [] && |a| == |b| {
      NormNonNegative(a);
      NormNonNegative(b);
      CauchySchwarz(a, b);
      RootRatio(root, Dot(a, b), Dot(a, a), Dot(b, b));
    }
  }

  lemma {:induction false} DotSymmetric(a: seq<real>, b: seq<real>)
    requires |a| == |b|
    ensures Dot(a, b) == Dot(b, a)
  {
    if a != [] {
      DotSymmetric(a[..|a| - 1], b[..|b| - 1]);
    }
  }

  lemma SelfRatio(n: real, d: real)
    requires n != 0.0 && d == n
    ensures n / d == 1.0
  {
  }

  lemma SelfQuotient(root: real -> real, n: real)
    requires IsRoot(root) && n > 0.0
    ensures Ratio(root, n, n, n) == 1.0
  {
    RootPositive(root, n);
    SelfRatio(n, root(n) * root(n));
  }

  /** A non-zero vector has similarity 1 with itself, and the zero vector 0. */
  lemma CosineSelf(root: real -> real, a: seq<real>)
    requires IsRoot(root)
    ensures Cosine(root, a, a) == if a == [] || Dot(a, a) == 0.0 then 0.0 else 1.0
  {
    if a != [] && Dot(a, a) != 0.0 {
      NormNonNegative(a);
      SelfQuotient(root, Dot(a, a));
    }
  }

  /** The accumulation loop over both vectors at once. */
  method CosineSimilarity(root: real -> real, a: seq<real>, b: seq<real>) returns (similarity: real)
    requires IsRoot(root)
    ensures similarity == Cosine(root, a, b)
  {
    if a == [] || b == [] || |a| != |b| {
      return 0.0;
    }
    var dot, normA, normB := 0.0, 0.0, 0.0;
    for i := 0 to |a|
      invariant dot == Dot(a[..i], b[..i]) && normA == Dot(a[..i], a[..i]) && normB == Dot(b[..i], b[..i])
    {
      assert a[..i + 1][..i] == a[..i] && b[..i + 1][..i] == b[..i];
      var x, y := a[i], b[i];
      dot := dot + x * y;
      normA := normA + x * x;
      normB := normB + y * y;
    }
    assert a[..|a|] == a && b[..|b|] == b;
    if normA == 0.0 || normB == 0.0 {
      return 0.0;
    }
    NormNonNegative(a);
    NormNonNegative(b);
    RootPositive(root, normA);
    RootPositive(root, normB);
    Positive(root(normA), root(normB));
    return dot / (root(normA) * root(normB));
  }
}
