/** Arithmetic shared by TripletVector and Coordinate: the row reduce of
    their matrix product and the rounding step of their `stringify`. */
module TripletMath {
  import opened PipeTypes

  /** The accumulator of `matrix[row].reduce((total, item, col) => total + item * v[col], 0)`
      after the first `n` columns. */
  function RowTotal(row: Triplet, v: Triplet, n: nat): (total: real)
    requires n <= 3
  {
    if n == 0 then 0.0 else RowTotal(row, v, n - 1) + row[n - 1] * v[n - 1]
  }

  /** Dot product of a matrix row with a triplet, written out. */
  function Dot(row: Triplet, v: Triplet): real
  {
    row[0] * v[0] + row[1] * v[1] + row[2] * v[2]
  }

  /** The reduce over a whole row is the dot product of the row with the triplet. */
  lemma RowTotalIsDot(row: Triplet, v: Triplet)
    ensures RowTotal(row, v, 3) == Dot(row, v)
  {
    assert RowTotal(row, v, 1) == row[0] * v[0];
    assert RowTotal(row, v, 2) == row[0] * v[0] + row[1] * v[1];
  }

  /** `triplet.map((_, rowIndex) => matrix[rowIndex].reduce(...))`. */
  function MatrixTimes(m: Matrix, v: Triplet): (r: Triplet)
    ensures forall i :: 0 <= i < 3 ==> r[i] == Dot(m[i], v)
  {
    RowTotalIsDot(m[0], v);
    RowTotalIsDot(m[1], v);
    RowTotalIsDot(m[2], v);
    [RowTotal(m[0], v, 3), RowTotal(m[1], v, 3), RowTotal(m[2], v, 3)]
  }

  /** The factor both classes round with. */
  const ROUNDING_FACTOR: real := 1000.0

  /** `Math.round(x)`: the integer within half a unit of `x`, the upper one on a tie. */
  function MathRound(x: real): (r: int)
    ensures x - 0.5 < r as real <= x + 0.5
  {
    (x + 0.5).Floor
  }

  /** `Math.round(value * ROUNDING_FACTOR) / ROUNDING_FACTOR`: the value moves
      by at most half a thousandth, upwards on a tie, and lands on a whole
      number of thousandths. */
  function RoundToThousandths(x: real): (r: real)
    ensures x - 0.0005 < r <= x + 0.0005
    ensures (r * ROUNDING_FACTOR).Floor as real == r * ROUNDING_FACTOR
  {
    var k := MathRound(x * ROUNDING_FACTOR);
    assert k as real / ROUNDING_FACTOR * ROUNDING_FACTOR == k as real;
    k as real / ROUNDING_FACTOR
  }

  /** A value that already is a whole number of thousandths is left as it is;
      integers in particular. */
  lemma RoundToThousandthsFixes(k: int)
    ensures RoundToThousandths(k as real / ROUNDING_FACTOR) == k as real / ROUNDING_FACTOR
  {
    var x := k as real / ROUNDING_FACTOR;
    assert x * ROUNDING_FACTOR == k as real;
    assert MathRound(k as real) == k;
  }

  /** Rounding twice is rounding once. */
  lemma RoundToThousandthsIdempotent(x: real)
    ensures RoundToThousandths(RoundToThousandths(x)) == RoundToThousandths(x)
  {
    RoundToThousandthsFixes(MathRound(x * ROUNDING_FACTOR));
  }

  /** The rounding step of `stringify`: three components, each rounded. */
  function RoundTriplet(v: Triplet): (r: Triplet)
    ensures forall i :: 0 <= i < 3 ==> r[i] == RoundToThousandths(v[i])
  {
    [RoundToThousandths(v[0]), RoundToThousandths(v[1]), RoundToThousandths(v[2])]
  }
}
