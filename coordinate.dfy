/** `Coordinate`: the earlier, smaller immutable triplet class, with a matrix
    product and rounded serialisation. */
module Coordinates {
  import opened PipeTypes
  import opened TripletMath

  datatype Coordinate = Coordinate(coordinateTriplet: Triplet)

  /** `getTriplet()` hands back the triplet the coordinate was built from. */
  function GetTriplet(c: Coordinate): (t: Triplet)
    ensures Coordinate(t) == c
  {
    c.coordinateTriplet
  }

  /** The rounding `stringify` applies before it serialises the triplet. */
  function RoundedTriplet(c: Coordinate): (r: Triplet)
    ensures forall i :: 0 <= i < 3 ==> c.coordinateTriplet[i] - 0.0005 < r[i] <= c.coordinateTriplet[i] + 0.0005
    ensures forall i :: 0 <= i < 3 ==> (r[i] * ROUNDING_FACTOR).Floor as real == r[i] * ROUNDING_FACTOR
  {
    RoundTriplet(c.coordinateTriplet)
  }

  /** Row i of the product is the dot product of matrix row i with the coordinate. */
  function MultiplyByMatrix(c: Coordinate, matrix: Matrix): (r: Coordinate)
    ensures forall i :: 0 <= i < 3 ==> r.coordinateTriplet[i] == Dot(matrix[i], c.coordinateTriplet)
  {
    Coordinate(MatrixTimes(matrix, c.coordinateTriplet))
  }

  /** The source's test case: (2, 1, 3) times [[1,2,3],[4,5,6],[7,8,9]] is exactly (13, 31, 49). */
  lemma MultiplyByMatrixExample()
    ensures MultiplyByMatrix(Coordinate([2.0, 1.0, 3.0]), [[1.0, 2.0, 3.0], [4.0, 5.0, 6.0], [7.0, 8.0, 9.0]])
         == Coordinate([13.0, 31.0, 49.0])
  {
    var r := MultiplyByMatrix(Coordinate([2.0, 1.0, 3.0]), [[1.0, 2.0, 3.0], [4.0, 5.0, 6.0], [7.0, 8.0, 9.0]]);
    assert r.coordinateTriplet[0] == 13.0 && r.coordinateTriplet[1] == 31.0 && r.coordinateTriplet[2] == 49.0;
  }

  /** Integer components pass through the rounding unchanged: (2, 1, 3) stays (2, 1, 3). */
  lemma RoundedIntegersExample()
    ensures RoundedTriplet(Coordinate([2.0, 1.0, 3.0])) == [2.0, 1.0, 3.0]
  {
    RoundToThousandthsFixes(2000);
    RoundToThousandthsFixes(1000);
    RoundToThousandthsFixes(3000);
  }

  /** Rounding is to the nearest thousandth with halves up: (2, 1.0005, 3.0004) becomes (2, 1.001, 3). */
  lemma RoundedHalfUpExample()
    ensures RoundedTriplet(Coordinate([2.0, 1.0005, 3.0004])) == [2.0, 1.001, 3.0]
  {
    RoundToThousandthsFixes(2000);
    assert MathRound(1000.5) == 1001;
    assert MathRound(3000.4) == 3000;
  }
}
