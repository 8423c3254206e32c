/** `TripletVector`: an immutable three-component vector. Every operation
    builds a new vector and leaves its receiver as it was, which a datatype
    value gives for free. */
module TripletVectors {
  import opened PipeTypes
  import opened TripletMath

  datatype TripletVector = TripletVector(coordinateTriplet: Triplet)

  /** `getTriplet()` hands back the triplet the vector was built from. */
  function GetTriplet(v: TripletVector): (t: Triplet)
    ensures TripletVector(t) == v
  {
    v.coordinateTriplet
  }

  /** The rounding `stringify` applies before it serialises the triplet. */
  function RoundedTriplet(v: TripletVector): (r: Triplet)
    ensures r == RoundTriplet(v.coordinateTriplet)
    ensures forall i :: 0 <= i < 3 ==> v.coordinateTriplet[i] - 0.0005 < r[i] <= v.coordinateTriplet[i] + 0.0005
    ensures forall i :: 0 <= i < 3 ==> (r[i] * ROUNDING_FACTOR).Floor as real == r[i] * ROUNDING_FACTOR
  {
    RoundTriplet(v.coordinateTriplet)
  }

  /** The matrix-vector product: component i is row i of the matrix dotted with the vector. */
  function MultiplyByMatrix(v: TripletVector, matrix: Matrix): (r: TripletVector)
    ensures forall i :: 0 <= i < 3 ==>
      r.coordinateTriplet[i] == matrix[i][0] * v.coordinateTriplet[0]
                              + matrix[i][1] * v.coordinateTriplet[1]
                              + matrix[i][2] * v.coordinateTriplet[2]
  {
    TripletVector(MatrixTimes(matrix, v.coordinateTriplet))
  }

  /** Componentwise sum. */
  function Add(v: TripletVector, operand: TripletVector): (r: TripletVector)
    ensures forall i :: 0 <= i < 3 ==> r.coordinateTriplet[i] == v.coordinateTriplet[i] + operand.coordinateTriplet[i]
  {
    var a, b := v.coordinateTriplet, operand.coordinateTriplet;
    TripletVector([a[0] + b[0], a[1] + b[1], a[2] + b[2]])
  }

  /** Multiplying by a matrix distributes over addition. */
  lemma MultiplyByMatrixDistributes(v: TripletVector, w: TripletVector, matrix: Matrix)
    ensures MultiplyByMatrix(Add(v, w), matrix) == Add(MultiplyByMatrix(v, matrix), MultiplyByMatrix(w, matrix))
  {
    var lhs := MultiplyByMatrix(Add(v, w), matrix).coordinateTriplet;
    var rhs := Add(MultiplyByMatrix(v, matrix), MultiplyByMatrix(w, matrix)).coordinateTriplet;
    var a, b := v.coordinateTriplet, w.coordinateTriplet;
    forall i | 0 <= i < 3
      ensures lhs[i] == rhs[i]
    {
      var m := matrix[i];
      DotDistributes(m[0], m[1], m[2], a[0], a[1], a[2], b[0], b[1], b[2]);
    }
  }

  lemma DotDistributes(m0: real, m1: real, m2: real, a0: real, a1: real, a2: real, b0: real, b1: real, b2: real)
    ensures m0 * (a0 + b0) + m1 * (a1 + b1) + m2 * (a2 + b2)
         == (m0 * a0 + m1 * a1 + m2 * a2) + (m0 * b0 + m1 * b1 + m2 * b2)
  {
  }

  /** The reduce inside `magnitude`: the sum of the squared components. */
  function SumOfSquares(v: TripletVector): (s: real)
    ensures s >= 0.0
  {
    var a := v.coordinateTriplet;
    0.0 + a[0] * a[0] + a[1] * a[1] + a[2] * a[2]
  }

  /** `magnitude()` is `Math.sqrt` of the sum of squares: the non-negative
      number whose square is that sum. */
  ghost predicate IsMagnitude(v: TripletVector, m: real)
  {
    m >= 0.0 && m * m == SumOfSquares(v)
  }

  lemma SquareMonotone(x: real, y: real)
    requires 0.0 <= x < y
    ensures x * x < y * y
  {
    var d := y - x;
    assert y * y == x * x + 2.0 * x * d + d * d;
    assert d * d > 0.0;
    assert x * d >= 0.0;
  }

  lemma SquareZero(x: real)
    ensures x * x >= 0.0
    ensures x * x == 0.0 ==> x == 0.0
  {
    if x < 0.0 {
      SquareMonotone(0.0, -x);
    } else if x > 0.0 {
      SquareMonotone(0.0, x);
    }
  }

  /** The magnitude is determined by the vector. */
  lemma MagnitudeUnique(v: TripletVector, m1: real, m2: real)
    requires IsMagnitude(v, m1) && IsMagnitude(v, m2)
    ensures m1 == m2
  {
    if m1 < m2 {
      SquareMonotone(m1, m2);
    } else if m2 < m1 {
      SquareMonotone(m2, m1);
    }
  }

  /** The magnitude is zero exactly when every component is zero. */
  lemma MagnitudeZeroIff(v: TripletVector, m: real)
    requires IsMagnitude(v, m)
    ensures m == 0.0 <==> v.coordinateTriplet == ZeroTriplet
  {
    var a := v.coordinateTriplet;
    SquareZero(a[0]);
    SquareZero(a[1]);
    SquareZero(a[2]);
    SquareZero(m);
    if m == 0.0 {
      assert a[0] == 0.0 && a[1] == 0.0 && a[2] == 0.0;
      assert a == ZeroTriplet;
    }
  }

  /** `r` lies on the line through the origin and `a`: every 2x2 cross term vanishes. */
  ghost predicate Parallel(r: Triplet, a: Triplet)
  {
    && r[0] * a[1] == r[1] * a[0]
    && r[0] * a[2] == r[2] * a[0]
    && r[1] * a[2] == r[2] * a[1]
  }

  /** `addDistance(n)`, given the receiver's magnitude: a copy of a zero vector,
      otherwise every component scaled by `(magnitude + n) / magnitude`. */
  function AddDistance(v: TripletVector, n: real, currentMagnitude: real): (r: TripletVector)
    requires IsMagnitude(v, currentMagnitude)
    ensures currentMagnitude == 0.0 ==> r == v
    ensures currentMagnitude > 0.0 ==> SumOfSquares(r) == (currentMagnitude + n) * (currentMagnitude + n)
    ensures currentMagnitude > 0.0 ==> Parallel(r.coordinateTriplet, v.coordinateTriplet)
  {
    if currentMagnitude == 0.0 then
      assert v.coordinateTriplet[..] == v.coordinateTriplet;
      TripletVector(v.coordinateTriplet[..])
    else
      var k := (currentMagnitude + n) / currentMagnitude;
      ScaledMagnitude(k, currentMagnitude, n);
      ScaleResult(k, v, currentMagnitude + n, currentMagnitude);
      TripletVector(Scale(k, v.coordinateTriplet))
  }

  /** `triplet.map(value => factor * value)`. */
  function Scale(factor: real, a: Triplet): Triplet
  {
    [factor * a[0], factor * a[1], factor * a[2]]
  }

  /** Otherwise every component is multiplied by the same factor
      `(magnitude + n) / magnitude`. */
  lemma AddDistanceFactor(v: TripletVector, n: real, m: real)
    requires IsMagnitude(v, m) && m > 0.0
    ensures AddDistance(v, n, m).coordinateTriplet == Scale((m + n) / m, v.coordinateTriplet)
  {
  }

  /** Scaling a vector of squared magnitude `m * m` by `k`, with `(k * k) * (m * m)`
      equal to `p * p`, gives squared magnitude `p * p`, on the same line. */
  lemma ScaleResult(k: real, v: TripletVector, p: real, m: real)
    requires IsMagnitude(v, m) && (k * k) * (m * m) == p * p
    ensures SumOfSquares(TripletVector(Scale(k, v.coordinateTriplet))) == p * p
    ensures Parallel(Scale(k, v.coordinateTriplet), v.coordinateTriplet)
  {
    var a := v.coordinateTriplet;
    ScaleCollinear(k, a);
    ScaledSquares(k, a[0], a[1], a[2]);
  }

  /** A scaled triplet is parallel to the original. */
  lemma ScaleCollinear(k: real, a: Triplet)
    ensures Parallel(Scale(k, a), a)
  {
    ScaledCross(k, a[0], a[1]);
    ScaledCross(k, a[0], a[2]);
    ScaledCross(k, a[1], a[2]);
  }

  /** ... on the same side of the origin when `magnitude + n` is not negative ... */
  lemma AddDistanceSameSide(v: TripletVector, n: real, m: real)
    requires IsMagnitude(v, m) && m > 0.0 && m + n >= 0.0
    ensures var r := AddDistance(v, n, m).coordinateTriplet; var a := v.coordinateTriplet;
      forall i :: 0 <= i < 3 ==> r[i] * a[i] >= 0.0
  {
    var a := v.coordinateTriplet;
    var k := (m + n) / m;
    var r := AddDistance(v, n, m).coordinateTriplet;
    AddDistanceFactor(v, n, m);
    QuotientNonNegative(m + n, m);
    forall i | 0 <= i < 3
      ensures r[i] * a[i] >= 0.0
    {
      ScaledSameSign(k, a[i]);
    }
  }

  lemma QuotientNonNegative(p: real, q: real)
    requires p >= 0.0 && q > 0.0
    ensures p / q >= 0.0
  {
  }

  /** ... and its magnitude is `|magnitude + n|`. */
  lemma AddDistanceMagnitude(v: TripletVector, n: real, m: real)
    requires IsMagnitude(v, m) && m > 0.0
    ensures SumOfSquares(AddDistance(v, n, m)) == (m + n) * (m + n)
    ensures IsMagnitude(AddDistance(v, n, m), if m + n >= 0.0 then m + n else -(m + n))
  {
    var a := v.coordinateTriplet;
    var k := (m + n) / m;
    AddDistanceFactor(v, n, m);
    ScaledSquares(k, a[0], a[1], a[2]);
    assert SumOfSquares(AddDistance(v, n, m)) == (k * k) * SumOfSquares(v);
    ScaledMagnitude(k, m, n);
    assert -(m + n) * -(m + n) == (m + n) * (m + n);
  }

  lemma ScaledCross(k: real, x: real, y: real)
    ensures (k * x) * y == (k * y) * x
  {
  }

  lemma ScaledSameSign(k: real, x: real)
    requires k >= 0.0
    ensures (k * x) * x >= 0.0
  {
    SquareZero(x);
    assert (k * x) * x == k * (x * x);
  }

  lemma ScaledSquares(k: real, a0: real, a1: real, a2: real)
    ensures 0.0 + (k * a0) * (k * a0) + (k * a1) * (k * a1) + (k * a2) * (k * a2)
         == (k * k) * (0.0 + a0 * a0 + a1 * a1 + a2 * a2)
  {
  }

  lemma ScaledMagnitude(k: real, m: real, n: real)
    requires m > 0.0 && k == (m + n) / m
    ensures (k * k) * (m * m) == (m + n) * (m + n)
  {
    assert k * m == m + n;
  }

  /** |(1, 2, 2)| is 3, and adding a distance of 1 gives magnitude 4. */
  lemma MagnitudeExample()
    ensures IsMagnitude(TripletVector([1.0, 2.0, 2.0]), 3.0)
    ensures IsMagnitude(AddDistance(TripletVector([1.0, 2.0, 2.0]), 1.0, 3.0), 4.0)
  {
    AddDistanceMagnitude(TripletVector([1.0, 2.0, 2.0]), 1.0, 3.0);
  }
}
