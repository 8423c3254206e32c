/** Shared vocabulary of the pipe generator: axes, rotation directions,
    rotations, numeric triplets and the error outcomes of generation. */
module PipeTypes {

  /** An axis a pipe can turn about; the source enum numbers them from 1. */
  datatype Axis = X | Y | Z {
    function Code(): (c: int)
      ensures this == X ==> c == 1
      ensures this == Y ==> c == 2
      ensures this == Z ==> c == 3
    {
      match this
      case X => 1
      case Y => 2
      case Z => 3
    }
  }

  /** The base of a rotation: an axis and a polarity (+1 or -1 when well formed). */
  datatype RotationDirection = RotationDirection(axis: Axis, polarity: int)

  /** A rotation about an axis by a signed angle in degrees. */
  datatype Rotation = Rotation(axis: Axis, angle: int)

  /** A JavaScript `[number, number, number]`. */
  type Triplet = s: seq<real> | |s| == 3 witness [0.0, 0.0, 0.0]

  /** A 3x3 matrix given row by row. */
  type Matrix = m: seq<Triplet> | |m| == 3 witness [ZeroTriplet, ZeroTriplet, ZeroTriplet]

  const ZeroTriplet: Triplet := [0.0, 0.0, 0.0]

  /** A 3x3 matrix flattened row by row, as the shader receives it. */
  type Nonuplet = s: seq<real> | |s| == 9 witness [0.0, 0.0, 0.0, 0.0, 0.0, 0.0, 0.0, 0.0, 0.0]

  datatype Option<T> = None | Some(value: T)

  /** A position as a selector hands it back; `None` stands for JavaScript's
      `undefined`, which the built-in position selector yields once every
      cell of its grid is forbidden. */
  type Position = Option<Triplet>

  /** The two exceptions generation can raise. */
  datatype Error =
    | InvalidDirection   // the direction selector answered outside the six canonical directions
    | ForbiddenPosition  // the position selector answered a forbidden position

  datatype Result<T> = Ok(value: T) | Err(error: Error)
}
