/** `_cosine_similarity` of app/infrastructure/vector/memory_store.py over exact reals. The square root
    is a parameter, known only by what defines it. */
module Cosine {
  import opened Sequences

  function Times(x: real, y: real): real { x * y }

  /** What `x ** 0.5` is known for. */
  ghost predicate RootAt(root: real -> real, x: real) {
    0.0 <= root(x) && Times(root(x), root(x)) == x
  }

  ghost predicate IsRoot(root: real -> real) {
    forall x: real :: 0.0 <= x ==> RootAt(root, x)
  }

  /** `sum(a * b for a, b in zip(left, right))` for vectors of one length. */
  function Dot(a: Vector, b: Vector): real
    requires |a| == |b|
  {
    if a == [] then 0.0 else Times(a[0], b[0]) + Dot(a[1..], b[1..])
  }

  function Similarity(root: real -> real, left: Vector, right: Vector): real {
    if left == [] || right == [] || |left| != |right| then 0.0
    else
      var numerator := Dot(left, right);
      var leftNorm := root(Dot(left, left));
      var rightNorm := root(Dot(right, right));
      if leftNorm == 0.0 || rightNorm == 0.0 then 0.0
      else
        NotZero(leftNorm, rightNorm);
        numerator / Times(leftNorm, rightNorm)
  }

  // ---- products ----

  lemma Positive(x: real, y: real)
    requires 0.0 < x && 0.0 < y
    ensures 0.0 < Times(x, y)
  {
  }

  lemma Signs(x: real, y: real)
    ensures Times(-x, y) == -Times(x, y) && Times(x, -y) == -Times(x, y)
    ensures Times(x, y) == Times(y, x)
    ensures x == 0.0 ==> Times(x, y) == 0.0
  {
  }

  lemma NotNegative(x: real, y: real)
    requires 0.0 <= x && 0.0 <= y
    ensures 0.0 <= Times(x, y)
  {
  }

  lemma NotZero(x: real, y: real)
    requires x != 0.0 && y != 0.0
    ensures Times(x, y) != 0.0
  {
    Signs(x, y);
    Signs(x, -y);
    if 0.0 < x && 0.0 < y { Positive(x, y); }
    else if 0.0 < x { Positive(x, -y); }
    else if 0.0 < y { Positive(-x, y); }
    else { Positive(-x, -y); }
  }

  lemma Square(x: real)
    ensures 0.0 <= Times(x, x)
    ensures Times(x, x) == 0.0 <==> x == 0.0
    ensures Times(-x, -x) == Times(x, x)
  {
    Signs(x, x);
    Signs(x, -x);
    if 0.0 < x { Positive(x, x); } else if x < 0.0 { Positive(-x, -x); }
  }

  lemma Distribute(x: real, y: real, z: real)
    ensures Times(x + y, z) == Times(x, z) + Times(y, z)
    ensures Times(z, x + y) == Times(z, x) + Times(z, y)
    ensures Times(x - y, z) == Times(x, z) - Times(y, z)
    ensures Times(z, x - y) == Times(z, x) - Times(z, y)
  {
  }

  lemma Associate(x: real, y: real, z: real)
    ensures Times(Times(x, y), z) == Times(x, Times(y, z))
  {
  }

  /** `(w x)(y z) == (w y)(x z)`. */
  lemma Exchange(w: real, x: real, y: real, z: real)
    ensures Times(Times(w, x), Times(y, z)) == Times(Times(w, y), Times(x, z))
  {
    Associate(w, x, Times(y, z));
    Associate(x, y, z);
    Associate(y, x, z);
    Signs(x, y);
    Associate(w, y, Times(x, z));
  }

  lemma MulMono(a: real, b: real, c: real)
    requires 0.0 <= c && a <= b
    ensures Times(a, c) <= Times(b, c)
  {
    NotNegative(b - a, c);
    Distribute(b, a, c);
  }

  lemma SquareGrows(v: real, u: real)
    requires 0.0 <= v < u
    ensures Times(v, v) < Times(u, u)
  {
    MulMono(v, u, v);
    Signs(u, v);
    Positive(u - v, u);
    Distribute(u, v, u);
  }

  lemma BoundBySquares(u: real, v: real)
    requires 0.0 <= v && Times(u, u) <= Times(v, v)
    ensures -v <= u <= v
  {
    Square(u);
    if u > v {
      SquareGrows(v, u);
    } else if u < -v {
      SquareGrows(v, -u);
    }
  }

  /** `(s + t)^2 - 4 s t` is a square. */
  lemma SumSquared(s: real, t: real)
    ensures 4.0 * Times(s, t) <= Times(s + t, s + t)
  {
    Square(s - t);
    Distribute(s, t, s - t);
    Distribute(s, t, s);
    Distribute(s, t, t);
    Distribute(s, t, s + t);
    Signs(s, t);
  }

  // ---- the inner product ----

  lemma {:induction false} DotSymmetric(a: Vector, b: Vector)
    requires |a| == |b|
    ensures Dot(a, b) == Dot(b, a)
  {
    if a != [] {
      Signs(a[0], b[0]);
      DotSymmetric(a[1..], b[1..]);
    }
  }

  ghost predicate AllZero(a: Vector) {
    forall i :: 0 <= i < |a| ==> a[i] == 0.0
  }

  lemma {:induction false} SelfDot(a: Vector)
    ensures 0.0 <= Dot(a, a)
    ensures Dot(a, a) == 0.0 <==> AllZero(a)
  {
    if a != [] {
      Square(a[0]);
      SelfDot(a[1..]);
      assert AllZero(a) <==> a[0] == 0.0 && AllZero(a[1..]) by {
        assert a == [a[0]] + a[1..];
      }
    }
  }

  /** Twice `c x y` is at most `p y y + q x x` when `c c <= p q`: the step of Cauchy-Schwarz. */
  lemma CrossTerm(c: real, p: real, q: real, x: real, y: real)
    requires 0.0 <= p && 0.0 <= q && Times(c, c) <= Times(p, q)
    ensures 2.0 * Times(c, Times(x, y)) <= Times(p, Times(y, y)) + Times(q, Times(x, x))
  {
    var s, t := Times(p, Times(y, y)), Times(q, Times(x, x));
    Square(x);
    Square(y);
    NotNegative(p, Times(y, y));
    NotNegative(q, Times(x, x));
    var z := Times(x, y);
    var u := Times(c, z);
    Square(z);
    MulMono(Times(c, c), Times(p, q), Times(z, z));
    assert Times(u, u) == Times(Times(c, c), Times(z, z)) by { Exchange(c, z, c, z); }
    assert Times(s, t) == Times(Times(p, q), Times(z, z)) by {
      Exchange(p, Times(y, y), q, Times(x, x));
      Exchange(y, y, x, x);
      Signs(x, y);
    }
    SumSquared(s, t);
    assert Times(2.0 * u, 2.0 * u) == 4.0 * Times(u, u) by {
      Distribute(u, u, u + u);
      Distribute(u, u, u);
    }
    BoundBySquares(2.0 * u, s + t);
  }

  lemma {:induction false} CauchySchwarz(a: Vector, b: Vector)
    requires |a| == |b|
    ensures Times(Dot(a, b), Dot(a, b)) <= Times(Dot(a, a), Dot(b, b))
  {
    if a == [] {
      Signs(0.0, 0.0);
    } else {
      var x, y := a[0], b[0];
      var c, p, q := Dot(a[1..], b[1..]), Dot(a[1..], a[1..]), Dot(b[1..], b[1..]);
      CauchySchwarz(a[1..], b[1..]);
      SelfDot(a[1..]);
      SelfDot(b[1..]);
      CrossTerm(c, p, q, x, y);
      Expand(c, p, q, x, y);
    }
  }

  lemma Expand(c: real, p: real, q: real, x: real, y: real)
    ensures Times(Times(x, x) + p, Times(y, y) + q) - Times(Times(x, y) + c, Times(x, y) + c)
            == (Times(p, q) - Times(c, c)) + (Times(p, Times(y, y)) + Times(q, Times(x, x)) - 2.0 * Times(c, Times(x, y)))
  {
    var xx, yy, xy := Times(x, x), Times(y, y), Times(x, y);
    Distribute(xx, p, yy + q);
    Distribute(yy, q, xx);
    Distribute(yy, q, p);
    Distribute(xy, c, xy + c);
    Distribute(xy, c, xy);
    Distribute(xy, c, c);
    Signs(xx, q);
    Signs(xy, c);
    Exchange(x, x, y, y);
  }

  // ---- the similarity ----

  lemma Quotient(num: real, den: real)
    requires 0.0 < den && -den <= num <= den
    ensures -1.0 <= num / den <= 1.0
  {
    var r := num / den;
    assert Times(r, den) == num;
    Distribute(r, 1.0, den);
    Distribute(-1.0, r, den);
    assert Times(1.0, den) == den && Times(-1.0, den) == -den;
    if r > 1.0 {
      Positive(r - 1.0, den);
    } else if r < -1.0 {
      Positive(-1.0 - r, den);
    }
  }

  lemma SimilarityOf(root: real -> real, left: Vector, right: Vector)
    requires left != [] && |left| == |right|
    ensures var ln, rn := root(Dot(left, left)), root(Dot(right, right));
            if ln == 0.0 || rn == 0.0 then Similarity(root, left, right) == 0.0
            else Times(ln, rn) != 0.0 && Similarity(root, left, right) == Dot(left, right) / Times(ln, rn)
  {
    var ln, rn := root(Dot(left, left)), root(Dot(right, right));
    if ln != 0.0 && rn != 0.0 { NotZero(ln, rn); }
  }

  lemma NormalisedBound(num: real, p: real, q: real, ln: real, rn: real)
    requires 0.0 < ln && 0.0 < rn && Times(ln, ln) == p && Times(rn, rn) == q
    requires Times(num, num) <= Times(p, q)
    ensures 0.0 < Times(ln, rn) && -1.0 <= num / Times(ln, rn) <= 1.0
  {
    Positive(ln, rn);
    Exchange(ln, rn, ln, rn);
    BoundBySquares(num, Times(ln, rn));
    Quotient(num, Times(ln, rn));
  }

  /** For vectors of any lengths, empty, zero and mismatched ones included, the similarity lies in
      [-1, 1] and does not depend on the order of the two. */
  lemma SimilarityBounded(root: real -> real, left: Vector, right: Vector)
    requires IsRoot(root)
    ensures -1.0 <= Similarity(root, left, right) <= 1.0
    ensures Similarity(root, left, right) == Similarity(root, right, left)
  {
    if left != [] && |left| == |right| {
      SelfDot(left);
      SelfDot(right);
      assert RootAt(root, Dot(left, left)) && RootAt(root, Dot(right, right));
      BoundedGivenRoots(root, left, right);
    }
  }

  lemma BoundedGivenRoots(root: real -> real, left: Vector, right: Vector)
    requires left != [] && |left| == |right|
    requires RootAt(root, Dot(left, left)) && RootAt(root, Dot(right, right))
    ensures -1.0 <= Similarity(root, left, right) <= 1.0
    ensures Similarity(root, left, right) == Similarity(root, right, left)
  {
    var num, p, q := Dot(left, right), Dot(left, left), Dot(right, right);
    var ln, rn := root(p), root(q);
    CauchySchwarz(left, right);
    DotSymmetric(left, right);
    SimilarityOf(root, left, right);
    SimilarityOf(root, right, left);
    if ln != 0.0 && rn != 0.0 {
      NormalisedBound(num, p, q, ln, rn);
      Signs(ln, rn);
    }
  }

  /** A vector that is not zero is as similar as can be to itself. */
  lemma SelfSimilarity(root: real -> real, v: Vector)
    requires IsRoot(root)
    ensures Similarity(root, v, v) == if AllZero(v) then 0.0 else 1.0
  {
    SelfDot(v);
    assert RootAt(root, Dot(v, v));
    Square(root(Dot(v, v)));
    if v != [] {
      SimilarityOf(root, v, v);
      if !AllZero(v) { WholeOverWhole(Dot(v, v), Times(root(Dot(v, v)), root(Dot(v, v)))); }
    }
  }

  lemma WholeOverWhole(d: real, e: real)
    requires d == e && e != 0.0
    ensures d / e == 1.0
  {
  }

  // ---- the definition by sums ----

  function Sum(xs: seq<real>): real {
    if xs == [] then 0.0 else Sum(xs[..|xs| - 1]) + xs[|xs| - 1]
  }

  function Products(a: Vector, b: Vector): (r: seq<real>)
    requires |a| == |b|
    ensures |r| == |a| && forall i :: 0 <= i < |a| ==> r[i] == Times(a[i], b[i])
  {
    seq(|a|, i requires 0 <= i < |a| => Times(a[i], b[i]))
  }

  lemma {:induction false} SumFromFront(xs: seq<real>)
    requires xs != []
    ensures Sum(xs) == xs[0] + Sum(xs[1..])
  {
    if |xs| > 1 {
      var n := |xs| - 1;
      SumFromFront(xs[..n]);
      assert xs[1..][..n - 1] == xs[..n][1..];
    }
  }

  lemma {:induction false} DotIsSum(a: Vector, b: Vector)
    requires |a| == |b|
    ensures Dot(a, b) == Sum(Products(a, b))
  {
    if a != [] {
      DotIsSum(a[1..], b[1..]);
      assert Products(a, b)[1..] == Products(a[1..], b[1..]);
      SumFromFront(Products(a, b));
    }
  }

  /** The similarity times the two lengths is the sum of the products, coordinate by coordinate; and it is zero if
      there is no such sum or one of the vectors is zero. */
  lemma SimilarityIs(root: real -> real, left: Vector, right: Vector)
    requires IsRoot(root)
    ensures |left| != |right| || AllZero(left) || AllZero(right) ==> Similarity(root, left, right) == 0.0
    ensures |left| == |right| ==>
              Times(Similarity(root, left, right), Times(root(Sum(Products(left, left))), root(Sum(Products(right, right)))))
              == Sum(Products(left, right))
  {
    if |left| == |right| {
      DotIsSum(left, right);
      DotIsSum(left, left);
      DotIsSum(right, right);
      SelfDot(left);
      SelfDot(right);
      assert RootAt(root, Dot(left, left)) && RootAt(root, Dot(right, right));
      SimilarityGivenRoots(root, left, right);
    }
  }

  lemma SimilarityGivenRoots(root: real -> real, left: Vector, right: Vector)
    requires |left| == |right| && RootAt(root, Dot(left, left)) && RootAt(root, Dot(right, right))
    ensures AllZero(left) || AllZero(right) ==> Similarity(root, left, right) == 0.0
    ensures Times(Similarity(root, left, right), Times(root(Dot(left, left)), root(Dot(right, right)))) == Dot(left, right)
  {
    var ln, rn := root(Dot(left, left)), root(Dot(right, right));
    SelfDot(left);
    SelfDot(right);
    Square(ln);
    Square(rn);
    if left != [] {
      SimilarityOf(root, left, right);
      if ln == 0.0 || rn == 0.0 { ZeroDot(left, right); } else { TimesQuotient(Dot(left, right), Times(ln, rn)); }
    }
  }

  lemma TimesQuotient(x: real, y: real)
    requires y != 0.0
    ensures Times(x / y, y) == x
  {
  }

  lemma ZeroDot(a: Vector, b: Vector)
    requires |a| == |b| && (AllZero(a) || AllZero(b))
    ensures Dot(a, b) == 0.0
  {
    if a != [] { ZeroDot(a[1..], b[1..]); }
  }
}
