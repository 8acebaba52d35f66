/**
 * The quadratic equation solver of menu 16 for a x^2 + b x + c = 0: the
 * degenerate and linear cases, then the case split on the sign of the
 * discriminant. The C library's `sqrt` is not part of this model and is
 * passed in as `sqrt`; the lemmas state what holds when it returns a true
 * square root.
 */
module Quadratic {

  /** The outcomes menu 16 reports. */
  datatype Roots =
    | NoSolution
    | LinearRoot(x: real)
    | TwoRealRoots(x1: real, x2: real)
    | RepeatedRoot(x: real)
    | ComplexRoots(realPart: real, imagPart: real)

  /** The value of a x^2 + b x + c at x. */
  function Poly(a: real, b: real, c: real, x: real): real {
    a * x * x + b * x + c
  }

  function Discriminant(a: real, b: real, c: real): real {
    b * b - 4.0 * a * c
  }

  /** Menu 16 after a, b and c have been read. */
  function SolveQuadratic(a: real, b: real, c: real, sqrt: real -> real): (r: Roots)
    ensures r == NoSolution <==> a == 0.0 && b == 0.0
    ensures r.LinearRoot? <==> a == 0.0 && b != 0.0
    ensures r.LinearRoot? ==> Poly(a, b, c, r.x) == 0.0
    ensures r.TwoRealRoots? <==> a != 0.0 && Discriminant(a, b, c) > 0.0
    ensures r.RepeatedRoot? <==> a != 0.0 && Discriminant(a, b, c) == 0.0
    ensures r.RepeatedRoot? ==> Poly(a, b, c, r.x) == 0.0
    ensures r.ComplexRoots? <==> a != 0.0 && Discriminant(a, b, c) < 0.0
  {
    if a == 0.0 then
      if b == 0.0 then NoSolution else LinearRoot(-c / b)
    else
      var discriminant := b * b - 4.0 * a * c;
      if discriminant > 0.0 then
        var sqrtD := sqrt(discriminant);
        TwoRealRoots((-b + sqrtD) / (2.0 * a), (-b - sqrtD) / (2.0 * a))
      else if discriminant == 0.0 then
        RepeatedRootSolves(a, b, c);
        RepeatedRoot(-b / (2.0 * a))
      else
        var sqrtD := sqrt(-discriminant);
        ComplexRoots(-b / (2.0 * a), sqrtD / (2.0 * a))
  }

  /** With a zero discriminant, -b / 2a is a root. */
  lemma RepeatedRootSolves(a: real, b: real, c: real)
    requires a != 0.0 && Discriminant(a, b, c) == 0.0
    ensures Poly(a, b, c, -b / (2.0 * a)) == 0.0
  {
    var x := -b / (2.0 * a);
    assert 2.0 * a * x == -b;
  }

  /** (-b + s) / 2a is a root whenever s * s is the discriminant, for either sign of s. */
  lemma RootFromSquareRoot(a: real, b: real, c: real, s: real)
    requires a != 0.0 && s * s == Discriminant(a, b, c)
    ensures Poly(a, b, c, (-b + s) / (2.0 * a)) == 0.0
  {
    var x := (-b + s) / (2.0 * a);
    assert 2.0 * a * x + b == s;
    assert 4.0 * a * Poly(a, b, c, x) == (2.0 * a * x + b) * (2.0 * a * x + b) - Discriminant(a, b, c);
  }

  /**
   * When `sqrt` returns a true square root of a positive discriminant, the
   * two reported roots are distinct roots of the polynomial.
   */
  lemma TwoRealRootsSolve(a: real, b: real, c: real, sqrt: real -> real)
    requires a != 0.0 && Discriminant(a, b, c) > 0.0
    requires sqrt(Discriminant(a, b, c)) * sqrt(Discriminant(a, b, c)) == Discriminant(a, b, c)
    ensures SolveQuadratic(a, b, c, sqrt).TwoRealRoots?
    ensures Poly(a, b, c, SolveQuadratic(a, b, c, sqrt).x1) == 0.0
    ensures Poly(a, b, c, SolveQuadratic(a, b, c, sqrt).x2) == 0.0
    ensures SolveQuadratic(a, b, c, sqrt).x1 != SolveQuadratic(a, b, c, sqrt).x2
  {
    var s := sqrt(Discriminant(a, b, c));
    RootFromSquareRoot(a, b, c, s);
    assert (-s) * (-s) == s * s;
    RootFromSquareRoot(a, b, c, -s);
    assert (-b - s) / (2.0 * a) == (-b + -s) / (2.0 * a);
    assert s != 0.0;
  }

  /**
   * When `sqrt` returns a true square root of -D for a negative discriminant
   * D, p + q i with p = realPart and q = imagPart is a complex root: both the
   * real part a (p^2 - q^2) + b p + c and the imaginary part (2 a p + b) q of
   * the polynomial vanish.
   */
  lemma ComplexRootsSolve(a: real, b: real, c: real, sqrt: real -> real)
    requires a != 0.0 && Discriminant(a, b, c) < 0.0
    requires sqrt(-Discriminant(a, b, c)) * sqrt(-Discriminant(a, b, c)) == -Discriminant(a, b, c)
    ensures SolveQuadratic(a, b, c, sqrt).ComplexRoots?
    ensures var p, q := SolveQuadratic(a, b, c, sqrt).realPart, SolveQuadratic(a, b, c, sqrt).imagPart;
      a * (p * p - q * q) + b * p + c == 0.0 && (2.0 * a * p + b) * q == 0.0
  {
    var s := sqrt(-Discriminant(a, b, c));
    var p := -b / (2.0 * a);
    var q := s / (2.0 * a);
    assert 2.0 * a * p == -b;
    assert 2.0 * a * q == s;
    assert 4.0 * a * (a * (p * p - q * q) + b * p + c)
        == (2.0 * a * p + b) * (2.0 * a * p + b) - (2.0 * a * q) * (2.0 * a * q) - Discriminant(a, b, c);
  }
}
