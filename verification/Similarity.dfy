/** Cosine similarity over the reals: its range, and what it comes to for sets of words. */
module Similarity {

  type Vector = map<string, real>

  ghost predicate Lists(tokens: seq<string>, left: Vector, right: Vector) {
    && (forall t :: t in tokens <==> t in left || t in right)
    && (forall i, j :: 0 <= i < j < |tokens| ==> tokens[i] != tokens[j])
  }

  function Weight(v: Vector, t: string): real {
    if t in v then v[t] else 0.0
  }

  function Product(x: real, y: real): real {
    x * y
  }

  /** The sum over shared tokens, taken along any listing of the tokens of both. */
  function Dot(left: Vector, right: Vector, tokens: seq<string>): real {
    if tokens == [] then 0.0
    else Product(Weight(left, tokens[0]), Weight(right, tokens[0])) + Dot(left, right, tokens[1..])
  }

  ghost predicate NonNegative(v: Vector) {
    forall t :: t in v ==> v[t] >= 0.0
  }

  /** `cosine`, once the dot product and the two norms are known. */
  function Cosine(dot: real, leftNorm: real, rightNorm: real): real {
    if leftNorm == 0.0 || rightNorm == 0.0 then 0.0 else dot / (leftNorm * rightNorm)
  }

  // -- Cauchy-Schwarz ----------------------------------------------------

  lemma SquareMonotone(a: real, b: real)
    requires a >= 0.0 && b >= 0.0
    ensures a * a <= b * b <==> a <= b
  {
    var sum, gap := a + b, a - b;
    assert a * a - b * b == gap * sum;
    if a > b {
      PositiveProduct(gap, sum);
      assert a * a - b * b > 0.0;
    } else {
      PositiveProduct(-gap, sum);
      assert gap * sum == -(-gap * sum);
    }
  }

  lemma PositiveProduct(x: real, y: real)
    requires x >= 0.0 && y >= 0.0
    ensures x * y >= 0.0 && (x > 0.0 && y > 0.0 ==> x * y > 0.0)
  {
  }

  /** 2dxy <= ay^2 + bx^2 whenever d^2 <= ab. */
  lemma CrossTerm(d: real, a: real, b: real, x: real, y: real)
    requires d >= 0.0 && a >= 0.0 && b >= 0.0 && x >= 0.0 && y >= 0.0 && d * d <= a * b
    ensures 2.0 * (d * (x * y)) <= a * (y * y) + b * (x * x)
  {
    var p, q, z := a * (y * y), b * (x * x), x * y;
    assert z >= 0.0 && p >= 0.0 && q >= 0.0;
    assert p * q == (a * b) * (z * z) by {
      Regroup(a, b, x, y);
    }
    var c := d * z;
    assert c >= 0.0;
    assert c * c == (d * d) * (z * z) by {
      RegroupSquare(d, z);
    }
    assert (d * d) * (z * z) <= (a * b) * (z * z) by {
      ScaleLe(d * d, a * b, z * z);
    }
    MeanBound(p, q, c);
  }

  lemma Regroup(a: real, b: real, x: real, y: real)
    ensures (a * (y * y)) * (b * (x * x)) == (a * b) * ((x * y) * (x * y))
  {
    calc {
      (a * (y * y)) * (b * (x * x));
      (a * b) * ((y * y) * (x * x));
      { assert (y * y) * (x * x) == (x * y) * (x * y); }
      (a * b) * ((x * y) * (x * y));
    }
  }

  lemma RegroupSquare(d: real, z: real)
    ensures (d * z) * (d * z) == (d * d) * (z * z)
  {
  }

  lemma ScaleLe(u: real, v: real, w: real)
    requires u <= v && w >= 0.0
    ensures u * w <= v * w
  {
  }

  /** The product of two numbers is at most the square of their mean. */
  lemma MeanBound(p: real, q: real, c: real)
    requires p >= 0.0 && q >= 0.0 && c >= 0.0 && c * c <= p * q
    ensures 2.0 * c <= p + q
  {
    assert (p - q) * (p - q) >= 0.0;
    assert (p + q) * (p + q) == (p - q) * (p - q) + 4.0 * (p * q);
    assert (2.0 * c) * (2.0 * c) == 4.0 * (c * c);
    SquareMonotone(2.0 * c, p + q);
  }

  /** The square of a dot product against the product of the squared norms. */
  predicate CauchySchwarz(d: real, a: real, b: real) {
    d >= 0.0 && a >= 0.0 && b >= 0.0 && d * d <= a * b
  }

  lemma {:induction false} DotIsBounded(left: Vector, right: Vector, tokens: seq<string>)
    requires NonNegative(left) && NonNegative(right)
    ensures CauchySchwarz(Dot(left, right, tokens), Dot(left, left, tokens), Dot(right, right, tokens))
  {
    hide CauchySchwarz, Product;
    if tokens == [] {
      NoTokens();
    } else {
      var rest := tokens[1..];
      var x, y := Weight(left, tokens[0]), Weight(right, tokens[0]);
      DotIsBounded(left, right, rest);
      assert x >= 0.0 && y >= 0.0;
      GrowBoth(Dot(left, right, rest), Dot(left, left, rest), Dot(right, right, rest), x, y);
    }
  }

  lemma NoTokens()
    ensures CauchySchwarz(0.0, 0.0, 0.0)
  {
  }

  lemma GrowBoth(d: real, a: real, b: real, x: real, y: real)
    requires CauchySchwarz(d, a, b) && x >= 0.0 && y >= 0.0
    ensures CauchySchwarz(Product(x, y) + d, Product(x, x) + a, Product(y, y) + b)
  {
    CrossTerm(d, a, b, x, y);
    var z := x * y;
    assert z >= 0.0;
    assert (z + d) * (z + d) == z * z + 2.0 * (d * z) + d * d;
    assert (x * x + a) * (y * y + b) == (x * x) * (y * y) + (b * (x * x) + a * (y * y)) + a * b;
    assert z * z == (x * x) * (y * y);
  }

  /** The cosine of two vectors of non-negative weights lies between 0 and 1. */
  lemma CosineIsBounded(left: Vector, right: Vector, tokens: seq<string>, leftNorm: real, rightNorm: real)
    requires NonNegative(left) && NonNegative(right) && Lists(tokens, left, right)
    requires leftNorm >= 0.0 && leftNorm * leftNorm == Dot(left, left, tokens)
    requires rightNorm >= 0.0 && rightNorm * rightNorm == Dot(right, right, tokens)
    ensures 0.0 <= Cosine(Dot(left, right, tokens), leftNorm, rightNorm) <= 1.0
  {
    DotIsBounded(left, right, tokens);
    RatioIsBounded(Dot(left, right, tokens), leftNorm, rightNorm);
  }

  lemma RatioIsBounded(d: real, leftNorm: real, rightNorm: real)
    requires leftNorm >= 0.0 && rightNorm >= 0.0
    requires CauchySchwarz(d, leftNorm * leftNorm, rightNorm * rightNorm)
    ensures 0.0 <= Cosine(d, leftNorm, rightNorm) <= 1.0
  {
    if leftNorm != 0.0 && rightNorm != 0.0 {
      var n := leftNorm * rightNorm;
      PositiveProduct(leftNorm, rightNorm);
      RegroupSquare(leftNorm, rightNorm);
      SquareMonotone(d, n);
      DivideLe(d, n);
    }
  }

  lemma DivideLe(d: real, n: real)
    requires 0.0 <= d <= n && n > 0.0
    ensures 0.0 <= d / n <= 1.0
  {
    assert (d / n) * n == d;
  }

  // -- sets of words -----------------------------------------------------

  /** Every word of a rule, weighing one. */
  function Indicator(words: set<string>): Vector {
    map w | w in words :: 1.0
  }

  lemma {:induction false} IndicatorDot(left: set<string>, right: set<string>, tokens: seq<string>)
    requires forall i, j :: 0 <= i < j < |tokens| ==> tokens[i] != tokens[j]
    ensures Dot(Indicator(left), Indicator(right), tokens) ==
            |set t | t in tokens && t in left && t in right| as real
  {
    var here := set t | t in tokens && t in left && t in right;
    if tokens != [] {
      var rest := tokens[1..];
      IndicatorDot(left, right, rest);
      var there := set t | t in rest && t in left && t in right;
      assert tokens == [tokens[0]] + rest;
      if tokens[0] in left && tokens[0] in right {
        assert here == there + {tokens[0]} && tokens[0] !in there;
      } else {
        assert here == there;
      }
    }
  }

  /** Two word sets are at least this similar, decided in whole numbers: threshold t/100 as t^2 s^2 against a product. */
  predicate AtLeast(left: set<string>, right: set<string>, hundredths: nat) {
    left != {} && right != {}
    && 10000 * (|left * right| * |left * right|) >= (hundredths * hundredths) * (|left| * |right|)
  }

  /** That comparison is the cosine's own, square roots and all. */
  lemma SetSimilarityIsIntegral(left: set<string>, right: set<string>, tokens: seq<string>, leftNorm: real,
                                rightNorm: real, hundredths: nat)
    requires Lists(tokens, Indicator(left), Indicator(right)) && left != {} && right != {}
    requires leftNorm >= 0.0 && leftNorm * leftNorm == Dot(Indicator(left), Indicator(left), tokens)
    requires rightNorm >= 0.0 && rightNorm * rightNorm == Dot(Indicator(right), Indicator(right), tokens)
    ensures AtLeast(left, right, hundredths) <==>
            Cosine(Dot(Indicator(left), Indicator(right), tokens), leftNorm, rightNorm) >= hundredths as real / 100.0
  {
    IndicatorDot(left, right, tokens);
    IndicatorDot(left, left, tokens);
    IndicatorDot(right, right, tokens);
    assert (set t | t in tokens && t in left && t in right) == left * right;
    assert (set t | t in tokens && t in left && t in left) == left;
    assert (set t | t in tokens && t in right && t in right) == right;
    CompareSquares(|left * right|, |left|, |right|, leftNorm, rightNorm, hundredths);
  }

  lemma CompareSquares(shared: nat, left: nat, right: nat, leftNorm: real, rightNorm: real, h: nat)
    requires left > 0 && right > 0 && leftNorm >= 0.0 && rightNorm >= 0.0
    requires leftNorm * leftNorm == left as real && rightNorm * rightNorm == right as real
    ensures 10000 * (shared * shared) >= (h * h) * (left * right) <==>
            Cosine(shared as real, leftNorm, rightNorm) >= h as real / 100.0
  {
    assert leftNorm > 0.0 && rightNorm > 0.0;
    var n := leftNorm * rightNorm;
    assert n > 0.0;
    assert n * n == (left as real) * (right as real) by {
      RegroupSquare(leftNorm, rightNorm);
    }
    var s, t := shared as real, h as real;
    assert s / n >= t / 100.0 <==> 100.0 * s >= t * n by {
      CrossMultiply(s, n, t);
    }
    SquareMonotone(t * n, 100.0 * s);
    assert (100.0 * s) * (100.0 * s) == 10000.0 * (s * s);
    RegroupSquare(t, n);
    WholeProducts(shared, left, right, h);
  }

  lemma CrossMultiply(s: real, n: real, t: real)
    requires n > 0.0
    ensures s / n >= t / 100.0 <==> 100.0 * s >= t * n
  {
    var r, u := s / n, t / 100.0;
    assert s == r * n && t == 100.0 * u;
    assert 100.0 * s - t * n == 100.0 * ((r - u) * n);
    if r >= u {
      PositiveProduct(r - u, n);
    } else {
      PositiveProduct(u - r, n);
      assert (r - u) * n == -((u - r) * n);
    }
  }

  lemma WholeProducts(shared: nat, left: nat, right: nat, h: nat)
    ensures (shared * shared) as real == (shared as real) * (shared as real)
    ensures ((h * h) * (left * right)) as real == ((h as real) * (h as real)) * ((left as real) * (right as real))
  {
    MultiplyWhole(shared, shared);
    MultiplyWhole(h, h);
    MultiplyWhole(left, right);
    MultiplyWhole(h * h, left * right);
  }

  /** Multiplication of whole numbers agrees with that of the reals. */
  lemma {:induction false} MultiplyWhole(a: nat, b: nat)
    ensures (a * b) as real == (a as real) * (b as real)
  {
    if a > 0 {
      MultiplyWhole(a - 1, b);
      assert a * b == (a - 1) * b + b;
      assert (a as real) * (b as real) == ((a - 1) as real) * (b as real) + b as real;
    }
  }
}
