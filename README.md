# Pipes: a verified model of the generator core

This project models the logic behind the "pipes" screensaver, a regl/WebGL
program that draws pipes turning through space. It covers how the pipes are
generated and how their data is marshalled into shader uniforms, and proves
properties of that model.

- **`PipeGenerator`** (`pipe_generator.dfy`, module `PipeGeneration`):
  - turns an injected direction selector into a sequence of 90-degree rotations, never offering the selector the direction that would double back;
  - validates positions an injected position selector answers;
  - provides the built-in position selector over the integer cube [-2, 4]³.
- **`PipeSimulation`** (`pipe_simulation.dfy`, module `Simulation`):
  - builds a simulation's pipes, each placed away from the positions already used;
  - flattens their rotations for the shader;
  - computes the shader parameters and the `starting_positions` uniforms.
- **`TripletVector` and `Coordinate`** (`triplet_vector.dfy`, `coordinate.dfy`, with the shared arithmetic in `triplet_math.dfy`): immutable three-component vectors with a matrix product, addition, `addDistance`, a magnitude and the rounding step of `stringify`.
- **`uniformUtil`** (`uniform_util.dfy`): builds the uniform names `name[i]` and `name[i].property` and projects one property out of a list of objects.
- **`types.dfy`** (module `PipeTypes`): the shared vocabulary of axes, rotation directions, rotations, triplets and the two errors generation can raise.

How the source maps onto the model:

- **Classes whose fields change become Dafny classes.**
  - `PipeGenerator` keeps its three selectors in `var` fields that the setters reassign.
  - `PipeSimulation` keeps its pipes in a `const` field.
- **Loops become methods with loop invariants**, each proved against a specification function:
  - `generatePipeDirections` against `Steps`;
  - `generatePipes` against `Plan`;
  - the triple loop of `generateRandomPosition` against `DefaultPosition`;
  - the two uniform builders against the map they must produce.
- **Pure code becomes functions and lemmas:** the vector classes, which never reassign their triplet, and `getObjectPropertyAsArray`.
- **Exceptions become values.** The two exceptions the generator throws are the `Err` outcomes `InvalidDirection` and `ForbiddenPosition`.
- **The built-in position selector is deterministic.** It indexes its free list with `Math.floor(Math.random()) * length`, and that index is always 0. So it answers the first free cube point in i, j, k order, or `undefined` (`None`) when none is left. The model proves this, and proves that such a point exists whenever fewer than 343 positions are forbidden.
- **The direction check is weaker than the offer.** It tests the selector's answer against all six directions, not against the five offered. So "no double-back" is proved only for selectors that answer from their argument, the default `getRandomArrayElement` among them, and `InverseAnswerAccepted` exhibits a selector that answers the excluded inverse and is accepted.

## Model

| member | source | states |
|---|---|---|
| PipeTypes.Axis.Code | src/ts/PipeGenerator.ts:7-11 | X is numbered 1, Y 2 and Z 3. |
| PipeGeneration.CanonicalIffInPool | src/ts/PipeGenerator.ts:83-90 | A model direction, whose axis is X, Y or Z, is one of the six in `possibleRotations` exactly when its polarity is +1 or -1. |
| PipeGeneration.Without | src/ts/PipeGenerator.ts:94-101 | The filter keeps exactly the directions different from the excluded one. |
| PipeGeneration.Inverse | src/ts/PipeGenerator.ts:99 | The forbidden direction has the same axis and the opposite polarity. It is one of the six directions exactly when the direction is, and then differs from it. |
| PipeGeneration.CandidatesMembers | src/ts/PipeGenerator.ts:94-101 | The first offer is all six directions. A later offer holds exactly the six less the inverse of the last answer. No offer is empty. |
| PipeGeneration.CandidatesAfter | src/ts/PipeGenerator.ts:94-101 | After a canonical direction the selector is offered five directions: all six except exactly its inverse. |
| PipeGeneration.StepsCount | src/ts/tests/PipeGenerator.spec.ts:18-28 | A successful run of n steps calls the selector n times and emits n rotations. Any run calls it at most n times, and at least once when n > 0. |
| PipeGeneration.StepsOffers | src/ts/PipeGenerator.ts:92-109 | The first call is offered the candidates after the initial direction. Each later call is offered the candidates after the previous, canonical answer. |
| PipeGeneration.DirectionsOffered | src/ts/tests/PipeGenerator.spec.ts:56-77 | From a fresh start the first offer is all six directions. Every later offer is the six less exactly the inverse of the previous answer. |
| PipeGeneration.StepsOutputs | src/ts/tests/PipeGenerator.spec.ts:30-54 | Rotation i has the axis of the i-th answer and angle polarity × rotationAngle. |
| PipeGeneration.StepsFailure | src/ts/PipeGenerator.ts:103-107 | A run fails, with `InvalidDirection`, exactly when the last answer was not one of the six directions. Every earlier answer was one of them, so a failing run stops after the call that failed. |
| PipeGeneration.MalformedAnswerRejected | src/ts/tests/PipeGenerator.spec.ts:79-86 | A selector answering polarity -50 makes generation fail. |
| PipeGeneration.FromArgumentNeverFails | src/ts/PipeGenerator.ts:94-107 | A selector that answers from the offered list never makes generation fail. |
| PipeGeneration.NoDoubleBack | src/ts/PipeGenerator.ts:99-109 | With such a selector, no answer is the inverse of the answer before it. |
| PipeGeneration.NoReversedRotation | src/ts/PipeGenerator.ts:99-111 | With such a selector and a non-zero angle, no rotation is followed by its reverse about the same axis. |
| PipeGeneration.StepsAngles | src/ts/PipeGenerator.ts:109-111 | Every emitted rotation is by plus or minus the rotation angle. |
| PipeGeneration.InverseAnswerAccepted | src/ts/PipeGenerator.ts:103-109 | A selector answering (X, -1) after (X, 1) is not rejected, although (X, -1) was not offered. The pipe turns +90 and then -90 about X. |
| PipeGeneration.ContinueStep | src/ts/PipeGenerator.ts:93-112 | Unfolding of `Steps`: one iteration of the map either extends the emitted rotations and the offers, or ends the run with the error. |
| PipeGeneration.GridPrefix | src/ts/PipeGenerator.ts:153-161 | Definition: the first n pushed positions, which are the grid cells 0..n-1 in loop order. |
| PipeGeneration.GridIndexRoundTrip | src/ts/PipeGenerator.ts:154-161 | The loop enumerates the cube [-2, 4]³ exactly once: cell t is the cube point with index t, and every cube point is the cell at its index. |
| PipeGeneration.DifferenceWith | src/ts/PipeGenerator.ts:163 | `differenceWith` keeps exactly the possible positions that are not forbidden. |
| PipeGeneration.DifferenceWithHead | src/ts/PipeGenerator.ts:163-165 | The head of the difference is the first possible position not forbidden, and every position before it is forbidden. |
| PipeGeneration.FirstFree | src/ts/PipeGenerator.ts:163-165 | The answer is a grid position that is not forbidden. It is `undefined` exactly when every grid position is forbidden. |
| PipeGeneration.DefaultPosition | src/ts/PipeGenerator.ts:149-166 | The built-in selector answers a cube point that is not forbidden, or `undefined`. |
| PipeGeneration.DefaultPositionFirstFree | src/ts/PipeGenerator.ts:149-166 | The built-in selector answers a cube point that is not forbidden, and every cube point before it in i, j, k order is forbidden. It answers `undefined` exactly when all 343 points are forbidden. |
| PipeGeneration.DefaultPositionAvailable | src/ts/PipeGenerator.ts:149-166 | With fewer than 343 forbidden positions it answers a cube point that is not forbidden. |
| PipeGeneration.SelectPosition | src/ts/PipeGenerator.ts:57-65 | A missing list counts as empty. The answer is returned unchanged exactly when it is not forbidden; otherwise the call fails with `ForbiddenPosition`. |
| PipeGeneration.PipeGenerator.constructor | src/ts/PipeGenerator.ts:44-52 | Each selector is the given one, or its built-in default when none is given. The default direction selector is `getRandomArrayElement` over the given values of `Math.random()`, so it answers from its argument. |
| PipeGeneration.RandomIndex | src/ts/PipeGenerator.ts:173 | With `Math.random()` in [0, 1), the index `floor(length × random)` is a valid index of a non-empty list. |
| PipeGeneration.RandomArrayElement | src/ts/PipeGenerator.ts:172-176 | With `Math.random()` in [0, 1), the answer is an element of the non-empty list. |
| PipeGeneration.RandomSelectorAnswersFromArgument | src/ts/PipeGenerator.ts:119-120 | The default direction selector answers one of the candidates it is offered, whatever `Math.random()` returns. |
| PipeGeneration.DefaultDirectionsNeverFail | src/ts/PipeGenerator.ts:82-113 | With the default direction selector, generation never fails and no answer is the inverse of the one before it. |
| PipeGeneration.PipeGenerator.SetDirectionSelector | src/ts/PipeGenerator.ts:119-121 | Installs the given selector or the random default, and leaves the other two selectors unchanged. |
| PipeGeneration.PipeGenerator.SetHueSelector | src/ts/PipeGenerator.ts:127-129 | Installs the given selector or the random default, and leaves the other two selectors unchanged. |
| PipeGeneration.PipeGenerator.SetPositionSelector | src/ts/PipeGenerator.ts:135-137 | Installs the given selector or `generateRandomPosition`, and leaves the other two selectors unchanged. |
| PipeGeneration.PipeGenerator.GeneratePosition | src/ts/PipeGenerator.ts:57-65 | With the installed selector: the answer is returned unchanged exactly when it is not forbidden; otherwise the call fails with `ForbiddenPosition`. |
| PipeGeneration.PipeGenerator.GeneratePipeDirections | src/ts/PipeGenerator.ts:82-113 | The loop's result, and the candidate lists it hands the selector, are those of `Steps` from a fresh start. |
| PipeGeneration.PipeGenerator.GenerateRandomPosition | src/ts/PipeGenerator.ts:149-166 | The triple loop and the difference answer the first free cube point, as `DefaultPosition` does. |
| Simulation.StartingPositions | src/ts/PipeSimulation.ts:105-106 | Definition: the list whose element i is pipe i's starting position. |
| Simulation.PlanLength | src/ts/PipeSimulation.ts:102-104 | A successful run yields exactly numPipes pipes. |
| Simulation.PlanCons | src/ts/PipeSimulation.ts:104-113 | Unfolding of `Plan`: a successful run is its first pipe, then a successful run of the rest with that pipe's position pushed. |
| Simulation.PlanPositions | src/ts/PipeSimulation.ts:103-106 | Pipe i starts at the selector's answer to the starting positions of pipes 0..i-1, and that answer is none of them. |
| Simulation.PlanDistinct | src/ts/PipeSimulation.ts:103-106 | Starting positions are pairwise distinct. |
| Simulation.PlanRotations | src/ts/PipeSimulation.ts:108-110 | Every pipe gets the rotations that generation produced. |
| Simulation.PipeRotationsShape | src/ts/PipeSimulation.ts:119-124 | Successful rotations number 32, each by ±90 degrees. Failed generation fails with `InvalidDirection`. |
| Simulation.DefaultFreeBelow | src/ts/PipeGenerator.ts:149-166 | The built-in selector finds a free position whenever fewer than 343 are forbidden. |
| Simulation.PlanSucceeds | src/ts/PipeSimulation.ts:102-114 | With such a selector, successful rotations and no more pipes than free room, a run succeeds. |
| Simulation.GeneratorPlanSucceeds | src/ts/PipeSimulation.ts:61-65 | A generator with the built-in position selector and a selector that answers from its argument builds any number of pipes up to 343. |
| Simulation.DefaultGeneratorSucceeds | src/ts/index.ts:121 | A generator left to all its default selectors, as `new PipeGenerator()` builds it, makes any number of pipes up to 343 without failing. |
| Simulation.PlanFailures | src/ts/PipeSimulation.ts:105-110 | Unfolding of `Plan`: a forbidden first position fails the run with `ForbiddenPosition` before rotations are generated. Otherwise failed rotations fail the run with their error. |
| Simulation.PlanErrors | src/ts/PipeSimulation.ts:102-114 | A run fails only with `ForbiddenPosition` or with the rotations' own error. Failed rotations always fail a run of at least one pipe. |
| Simulation.GeneratorPlanErrors | src/ts/PipeSimulation.ts:102-114 | `generatePipes` fails only with `ForbiddenPosition` or `InvalidDirection`. It always fails, for at least one pipe, when the direction selector's answer is invalid. |
| Simulation.ExtendStep | src/ts/PipeSimulation.ts:104-113 | Unfolding of `Plan`: one iteration of `generatePipes`, seen from the whole run. |
| Simulation.GeneratePipeRotations | src/ts/PipeSimulation.ts:119-124 | Generates 32 rotations by ±90 degrees, or the error. |
| Simulation.GeneratePipes | src/ts/PipeSimulation.ts:102-114 | The loop that pushes used positions yields the run `Plan` describes. Its invariant keeps `usedPositions` equal to the starting positions so far. |
| Simulation.UniformsOfPipe | src/ts/PipeSimulation.ts:131-136 | Definition: one entry per rotation, holding its matrix and its axis. |
| Simulation.FlattenUniforms | src/ts/PipeSimulation.ts:138 | The flattened list has one entry per rotation of every pipe. |
| Simulation.FlattenUniformsAt | src/ts/PipeSimulation.ts:129-139 | Entry Offset(k) + j is rotation j of pipe k, with its matrix and axis: pipe-major order. |
| Simulation.TotalRotationsUniform | src/ts/PipeSimulation.ts:129-139 | When every pipe has the same number of turns, the list has that many entries per pipe. |
| Simulation.PipeSimulation.constructor | src/ts/PipeSimulation.ts:61-65 | Stores the generator and pipes it is given. Given pipes as `generatePipes` returns them, the simulation is valid. |
| Simulation.PipeSimulation.Create | src/ts/PipeSimulation.ts:61-65 | Creation succeeds exactly when `generatePipes` does, and fails with its error otherwise. On success: numPipes pipes, each with 32 rotations by ±90 degrees, at pairwise distinct positions. |
| Simulation.PipeSimulation.ShaderParameters | src/ts/PipeSimulation.ts:77-81 | numTurns is 32, numPipes is the number of pipes and yAxis is Y. In a valid simulation every pipe has numTurns rotations. |
| Simulation.PipeSimulation.ConvertRotationsForUniform | src/ts/PipeSimulation.ts:129-139 | One entry per rotation, which for a valid simulation is 32 per pipe. |
| Simulation.PipeSimulation.StartingPositionUniforms | src/ts/PipeSimulation.ts:85-93 | `starting_positions[i]` holds pipe i's starting position, with one uniform per pipe and nothing else. |
| TripletMath.RowTotalIsDot | src/ts/TripletVector.ts:35-37 | The row reduce is the dot product of the row with the vector. |
| TripletMath.MatrixTimes | src/ts/TripletVector.ts:34-38 | Component i of the product is row i dotted with the vector. |
| TripletMath.MathRound | src/ts/TripletVector.ts:20 | `Math.round` picks the integer within half a unit, the upper one on a tie. |
| TripletMath.RoundToThousandths | src/ts/TripletVector.ts:18-24 | Rounding moves a value by at most half a thousandth, upward on a tie, onto a whole number of thousandths. |
| TripletMath.RoundToThousandthsFixes | src/ts/TripletVector.ts:18-24 | A whole number of thousandths, an integer in particular, is left unchanged. |
| TripletMath.RoundToThousandthsIdempotent | src/ts/TripletVector.ts:18-24 | Rounding twice is rounding once. |
| TripletMath.RoundTriplet | src/ts/TripletVector.ts:19-21 | Three components, each rounded. |
| TripletVectors.GetTriplet | src/ts/TripletVector.ts:11-13 | Returns exactly the triplet the vector was built from. |
| TripletVectors.RoundedTriplet | src/ts/TripletVector.ts:18-24 | The componentwise rounding: each component moves by at most half a thousandth, onto a whole number of thousandths. |
| TripletVectors.MultiplyByMatrix | src/ts/TripletVector.ts:31-42 | Component i is Σⱼ M[i][j]·v[j]. |
| TripletVectors.Add | src/ts/TripletVector.ts:49-55 | Definition: the componentwise sum. |
| TripletVectors.MultiplyByMatrixDistributes | src/ts/TripletVector.ts:31-55 | The matrix product distributes over `add`. |
| TripletVectors.SumOfSquares | src/ts/TripletVector.ts:78-81 | Definition: the reduced sum of squares, which is non-negative. |
| TripletVectors.MagnitudeUnique | src/ts/TripletVector.ts:77-82 | The magnitude is determined by the vector. |
| TripletVectors.MagnitudeZeroIff | src/ts/TripletVector.ts:77-82 | The magnitude is zero exactly when every component is zero. |
| TripletVectors.AddDistance | src/ts/TripletVector.ts:61-72 | On a zero-magnitude vector it returns an equal vector. Otherwise the squared magnitude becomes (m+n)², and the result lies on the vector's line. |
| TripletVectors.AddDistanceFactor | src/ts/TripletVector.ts:67-71 | Unfolding of `AddDistance`: otherwise every component is multiplied by (m+n)/m. |
| TripletVectors.AddDistanceSameSide | src/ts/TripletVector.ts:61-72 | When m + n ≥ 0 the result points the same way. |
| TripletVectors.AddDistanceMagnitude | src/ts/TripletVector.ts:61-72 | The squared magnitude becomes (m+n)², so the magnitude is \|m+n\|. |
| TripletVectors.MagnitudeExample | src/ts/TripletVector.ts:61-82 | \|(1,2,2)\| = 3, and adding a distance of 1 gives magnitude 4. |
| Coordinates.GetTriplet | src/ts/Coordinate.ts:7-13 | Returns exactly the triplet the coordinate was built from. |
| Coordinates.RoundedTriplet | src/ts/Coordinate.ts:18-24 | Each component moves by at most half a thousandth, onto a whole number of thousandths. |
| Coordinates.MultiplyByMatrix | src/ts/Coordinate.ts:31-42 | Row i is the dot product of M[i] with the coordinate. |
| Coordinates.MultiplyByMatrixExample | src/ts/tests/CoordinateTest.spec.ts:9-18 | [2,1,3] times [[1,2,3],[4,5,6],[7,8,9]] is exactly [13,31,49]. |
| Coordinates.RoundedIntegersExample | src/ts/tests/CoordinateTest.spec.ts:20-25 | Integer components are unchanged by the rounding. |
| Coordinates.RoundedHalfUpExample | src/ts/tests/CoordinateTest.spec.ts:27-32 | [2, 1.0005, 3.0004] rounds to [2, 1.001, 3]. |
| UniformUtil.NatToString | src/ts/uniformUtil.ts:10 | A template literal writes an index as decimal digits without a leading zero. |
| UniformUtil.ParseNatToString | src/ts/uniformUtil.ts:10 | Reading the digits back gives the index. |
| UniformUtil.NatToStringInjective | src/ts/uniformUtil.ts:10 | Distinct indices are written differently. |
| UniformUtil.DigitsThenBracket | src/ts/uniformUtil.ts:28 | A run of digits closed by `]` splits in only one way. |
| UniformUtil.ArrayKeyParts | src/ts/uniformUtil.ts:10 | `name[i]` is the array name and `[`, then digits that read back as i, then `]`. |
| UniformUtil.ObjectKeyExtends | src/ts/uniformUtil.ts:28 | `name[i].p` is the element name `name[i]`, a dot, and the property. |
| UniformUtil.ArrayKeyInjective | src/ts/uniformUtil.ts:10 | `name[i]` and `name[j]` coincide exactly when i = j. |
| UniformUtil.ObjectKeyInjective | src/ts/uniformUtil.ts:28 | `name[i].p` and `name[j].q` coincide exactly when i = j and p = q. |
| UniformUtil.MakeUniformsForArray | src/ts/uniformUtil.ts:7-14 | `name[i]` maps to arr[i] for every index, and there are no other keys: \|arr\| entries. An empty array gives an empty map. |
| UniformUtil.AddObjectUniforms | src/ts/uniformUtil.ts:26-29 | The `forEach` adds `name[index].p` ↦ item[p] for every property and keeps the earlier entries. |
| UniformUtil.MakeUniformsForObjectArray | src/ts/uniformUtil.ts:21-33 | `name[i].p` maps to objects[i][p] for every object and property, and there are no other keys: Σᵢ \|objects[i]\| entries. |
| UniformUtil.FreshObjectKeys | src/ts/uniformUtil.ts:25-30 | An object's keys are not yet taken by earlier objects. |
| UniformUtil.ArrayKeysCount | src/ts/uniformUtil.ts:7-14 | The names `name[0]`..`name[n-1]` are n distinct strings. |
| UniformUtil.ArrayUniformsCount | src/ts/uniformUtil.ts:7-14 | A map holding exactly those names has n entries. |
| UniformUtil.PropertyKeysCount | src/ts/uniformUtil.ts:26-29 | One object's property names give as many distinct keys. |
| UniformUtil.ObjectKeysSplit | src/ts/uniformUtil.ts:25-30 | The keys of object n are new among those of objects 0..n-1. |
| UniformUtil.ObjectKeysCount | src/ts/uniformUtil.ts:21-33 | The keys of the first n objects number the sum of their property counts. |
| UniformUtil.ObjectUniformsCount | src/ts/uniformUtil.ts:21-33 | A map holding exactly the names `name[i].p` has Σᵢ \|objects[i]\| entries. |
| UniformUtil.AppendPropertiesSpec | src/ts/uniformUtil.ts:42 | The reduce appends one projected value per object, in order, after the accumulator. |
| UniformUtil.GetObjectPropertyAsArray | src/ts/uniformUtil.ts:41-43 | Same length as the objects, and element i is object i's property. |
| UniformUtil.SquaresExample | src/ts/tests/uniformUtil.spec.ts:42-53 | Projecting `square` out of four objects gives [0, 1, 4, 9]. |

## Left out

- `generateColor` and `generateRandomHue` are not modelled. They need the foreign HSL-to-RGB conversion and a random float. The hue selector is only stored, and `RenderablePipe` has no colour.
- Randomness is not modelled:
  - The values `Math.random()` returns are a constructor parameter, one per candidate list, each in [0, 1). `getRandomArrayElement` is modelled over them.
  - `generateRandomHue` is given to the constructor as the hue selector the setter falls back to.
  - On an empty list `getRandomArrayElement` answers `undefined`. The model answers (X, +1) there instead. The generator never offers an empty list.
  - Every selector is a pure function of what it is offered. As a result, all pipes of one simulation get the same rotations, whereas the source calls a possibly random selector for each pipe.
- `getRotationMatrix` is not modelled; its source is not shown. The flattened matrix of a rotation is a function parameter (`matrixOf`).
- `positionUtil` (trail generation over a quaternion library, degrees-to-radians) is not part of this model.
- Rendering plumbing is not modelled: the regl context and draw command, mustache shader compilation and the `time` uniform.
  - Of `getPipeRenderCommand`, the model keeps the shader parameters, the rotation list and the `starting_positions` uniforms.
  - The `colors` uniforms are left out, because there is no colour.
  - The `rotations` object uniforms are left out, because a `RotationUniform` record is not a string-keyed map in the model.
- Numbers are exact reals and unbounded integers. Floating-point rounding, `Math.sqrt` and the text produced by `JSON.stringify` are not modelled. `stringify` is modelled only up to its rounded triplet.
- TripletVectors.AddDistance: takes the receiver's magnitude as an argument related to the vector by `IsMagnitude`, because the model has no square root.
- Polarities and angles are integers and counts are naturals. A fractional or negative `numPipes` makes `Array(numPipes)` throw a `RangeError`; the model takes a natural number, so that error is not modelled.
- Malformed directions are modelled only by their polarity. The check at `src/ts/PipeGenerator.ts:105` uses `lodash.isEqual`. It therefore also rejects an axis outside 1..3, which a TypeScript numeric enum admits, and an answer carrying extra properties. The model's `Axis` has only X, Y and Z, and `RotationDirection` has exactly two fields, so neither case can be expressed.
- `undefined` as a position is the `None` of `Position`. Any selector may answer it. The built-in one does so exactly when every cube point is forbidden.
- UniformUtil.MakeUniformsForObjectArray: takes objects as string-keyed maps with values of one type. The order of `Object.keys` is not modelled; properties are taken in an arbitrary order, which does not change the resulting map.
- UniformUtil.GetObjectPropertyAsArray: takes the property as an accessor function instead of a key name.
- Value semantics: `multiplyByMatrix`, `add` and `addDistance` leaving the receiver unchanged holds because vectors and coordinates are immutable datatype values. No separate lemma states it.
- The copy-constructor test in `src/ts/tests/PipeGenerator.spec.ts` is not modelled; it belongs to a constructor the shown class does not have.
- `Flipper` is not modelled; only its tests exist.
- The copies of the uniform helpers in `src/ts/index.ts` are not modelled separately; they duplicate `uniformUtil`.
