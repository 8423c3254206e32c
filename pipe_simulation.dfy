/** `PipeSimulation`: builds the pipes of one simulation from a generator and
    prepares what the shader needs from them. */
module Simulation {
  import opened PipeTypes
  import opened PipeGeneration
  import opened UniformUtil

  /** One pipe: where it starts and how it turns (its colour is not modelled). */
  datatype RenderablePipe = RenderablePipe(startingPosition: Position, rotations: seq<Rotation>)

  /** The parameters the pipes shader is compiled with. */
  datatype PipesShaderParameters = PipesShaderParameters(numTurns: nat, numPipes: nat, yAxis: Axis)

  /** A rotation as the shader receives it: its matrix flattened row by row, and its axis. */
  datatype RotationUniform = RotationUniform(matrix: Nonuplet, axis: Axis)

  const ROTATION_ANGLE: int := 90
  const NUM_PIPE_TURNS: nat := 32

  /** The starting positions of `pipes`, in order. */
  function StartingPositions(pipes: seq<RenderablePipe>): (r: seq<Position>)
    ensures |r| == |pipes| && forall i :: 0 <= i < |pipes| ==> r[i] == pipes[i].startingPosition
  {
    seq(|pipes|, i requires 0 <= i < |pipes| => pipes[i].startingPosition)
  }

  /** The rotations every pipe of a simulation is given. */
  function PipeRotations(generator: PipeGenerator): Result<seq<Rotation>>
    reads generator
  {
    Steps(generator.directionSelector, NUM_PIPE_TURNS, None, ROTATION_ANGLE).outcome
  }

  /** The remaining `count` iterations of `generatePipes`, with `used` the
      positions pushed so far: request a position that avoids them, push it,
      then generate the pipe's rotations, whose outcome is `rotations` on every
      iteration; the first error ends the run. */
  function Plan(select: PositionSelector, rotations: Result<seq<Rotation>>, count: nat, used: seq<Position>): Result<seq<RenderablePipe>>
    decreases count
  {
    if count == 0 then Ok([])
    else
      var position := SelectPosition(select, Some(used));
      if position.Err? then Err(position.error)
      else if rotations.Err? then Err(rotations.error)
      else
        var rest := Plan(select, rotations, count - 1, used + [position.value]);
        if rest.Err? then rest else Ok([RenderablePipe(position.value, rotations.value)] + rest.value)
  }

  /** `generatePipes` of `generator`. */
  function GeneratorPlan(generator: PipeGenerator, count: nat): Result<seq<RenderablePipe>>
    reads generator
  {
    Plan(generator.positionSelector, PipeRotations(generator), count, [])
  }

  /** `done` followed by whatever `rest` produced. */
  function Extend(done: seq<RenderablePipe>, rest: Result<seq<RenderablePipe>>): Result<seq<RenderablePipe>>
  {
    if rest.Ok? then Ok(done + rest.value) else rest
  }

  /** A successful run produces exactly `count` pipes. */
  lemma {:induction false} PlanLength(select: PositionSelector, rotations: Result<seq<Rotation>>, count: nat, used: seq<Position>)
    ensures Plan(select, rotations, count, used).Ok? ==> |Plan(select, rotations, count, used).value| == count
    decreases count
  {
    if count > 0 {
      var position := SelectPosition(select, Some(used));
      if position.Ok? {
        PlanLength(select, rotations, count - 1, used + [position.value]);
      }
    }
  }

  /** A successful run of at least one pipe: the first pipe, then a successful
      run of the others with its position pushed. */
  lemma PlanCons(select: PositionSelector, rotations: Result<seq<Rotation>>, count: nat, used: seq<Position>, pipes: seq<RenderablePipe>)
    requires count > 0 && Plan(select, rotations, count, used) == Ok(pipes)
    ensures SelectPosition(select, Some(used)).Ok? && rotations.Ok?
    ensures var position := select(used);
      && position !in used
      && Plan(select, rotations, count - 1, used + [position]).Ok?
      && pipes == [RenderablePipe(position, rotations.value)] + Plan(select, rotations, count - 1, used + [position]).value
  {
  }

  lemma PrefixShift(used: seq<Position>, position: Position, later: seq<Position>, i: nat)
    requires 0 < i <= |later| + 1
    ensures used + ([position] + later)[..i] == (used + [position]) + later[..i - 1]
  {
    assert ([position] + later)[..i] == [position] + later[..i - 1];
  }

  lemma StartingPositionsCons(pipe: RenderablePipe, rest: seq<RenderablePipe>)
    ensures StartingPositions([pipe] + rest) == [pipe.startingPosition] + StartingPositions(rest)
  {
  }

  /** Pipe i starts at the position the selector answered when it was given
      the earlier pushed positions and the starting positions of pipes 0..i-1,
      and that position is none of them. */
  lemma {:induction false} PlanPositions(select: PositionSelector, rotations: Result<seq<Rotation>>, count: nat, used: seq<Position>, pipes: seq<RenderablePipe>)
    requires Plan(select, rotations, count, used) == Ok(pipes)
    ensures forall i :: 0 <= i < |pipes| ==>
      && pipes[i].startingPosition == select(used + StartingPositions(pipes)[..i])
      && pipes[i].startingPosition !in used + StartingPositions(pipes)[..i]
    decreases count
  {
    if count > 0 {
      PlanCons(select, rotations, count, used, pipes);
      var position := select(used);
      var rest := Plan(select, rotations, count - 1, used + [position]).value;
      PlanPositions(select, rotations, count - 1, used + [position], rest);
      var pipe := RenderablePipe(position, rotations.value);
      StartingPositionsCons(pipe, rest);
      var positions, restPositions := StartingPositions(pipes), StartingPositions(rest);
      forall i | 0 <= i < |pipes|
        ensures pipes[i].startingPosition == select(used + positions[..i])
        ensures pipes[i].startingPosition !in used + positions[..i]
      {
        if i == 0 {
          assert used + positions[..0] == used;
        } else {
          assert pipes[i] == rest[i - 1];
          PrefixShift(used, position, restPositions, i);
        }
      }
    }
  }

  /** The starting positions of a successful run are pairwise distinct and
      avoid every position pushed before it. */
  lemma PlanDistinct(select: PositionSelector, rotations: Result<seq<Rotation>>, count: nat, used: seq<Position>, pipes: seq<RenderablePipe>)
    requires Plan(select, rotations, count, used) == Ok(pipes)
    ensures forall i, j :: 0 <= i < j < |pipes| ==> pipes[i].startingPosition != pipes[j].startingPosition
    ensures forall i :: 0 <= i < |pipes| ==> pipes[i].startingPosition !in used
  {
    PlanPositions(select, rotations, count, used, pipes);
    var positions := StartingPositions(pipes);
    forall i, j | 0 <= i < j < |pipes|
      ensures pipes[i].startingPosition != pipes[j].startingPosition
    {
      assert (used + positions[..j])[|used| + i] == pipes[i].startingPosition;
    }
    forall i | 0 <= i < |pipes|
      ensures pipes[i].startingPosition !in used
    {
      assert used <= used + positions[..i];
    }
  }

  /** Every pipe of a successful run gets the rotations generation produced. */
  lemma {:induction false} PlanRotations(select: PositionSelector, rotations: Result<seq<Rotation>>, count: nat, used: seq<Position>, pipes: seq<RenderablePipe>)
    requires Plan(select, rotations, count, used) == Ok(pipes)
    ensures count > 0 ==> rotations.Ok?
    ensures forall i :: 0 <= i < |pipes| ==> pipes[i].rotations == rotations.value
    decreases count
  {
    if count > 0 {
      var position := SelectPosition(select, Some(used));
      var rest := Plan(select, rotations, count - 1, used + [position.value]).value;
      PlanRotations(select, rotations, count - 1, used + [position.value], rest);
      forall i | 0 < i < |pipes|
        ensures pipes[i] == rest[i - 1]
      {
      }
    }
  }

  /** Each pipe's rotations, when generation succeeds: 32 of them, each by
      plus or minus 90 degrees; otherwise the direction selector's invalid answer. */
  lemma PipeRotationsShape(generator: PipeGenerator)
    ensures PipeRotations(generator).Ok? ==>
      && |PipeRotations(generator).value| == NUM_PIPE_TURNS
      && forall r :: r in PipeRotations(generator).value ==> r.angle == ROTATION_ANGLE || r.angle == -ROTATION_ANGLE
    ensures PipeRotations(generator).Err? ==> PipeRotations(generator).error == InvalidDirection
  {
    var t := Steps(generator.directionSelector, NUM_PIPE_TURNS, None, ROTATION_ANGLE);
    StepsCount(generator.directionSelector, NUM_PIPE_TURNS, None, ROTATION_ANGLE, t);
    StepsFailure(generator.directionSelector, NUM_PIPE_TURNS, None, ROTATION_ANGLE, t);
    StepsAngles(generator.directionSelector, NUM_PIPE_TURNS, None, ROTATION_ANGLE, t);
  }

  /** A position selector that finds a free position whenever fewer than
      `bound` positions are forbidden. */
  ghost predicate FreeBelow(select: PositionSelector, bound: nat)
  {
    forall forbidden: seq<Position> :: |forbidden| < bound ==> select(forbidden) !in forbidden
  }

  /** The built-in selector is such a selector for 343 positions. */
  lemma DefaultFreeBelow()
    ensures FreeBelow(DefaultPosition, CELLS)
  {
    forall forbidden: seq<Position> | |forbidden| < CELLS
      ensures DefaultPosition(forbidden) !in forbidden
    {
      DefaultPositionAvailable(forbidden);
    }
  }

  /** With such a selector, a rotation outcome that succeeded and no more
      than `bound` positions to place, a run always succeeds. */
  lemma {:induction false} PlanSucceeds(select: PositionSelector, bound: nat, rotations: Result<seq<Rotation>>, count: nat, used: seq<Position>)
    requires FreeBelow(select, bound) && rotations.Ok?
    requires |used| + count <= bound
    ensures Plan(select, rotations, count, used).Ok?
    decreases count
  {
    if count > 0 {
      var position := SelectPosition(select, Some(used));
      assert position.Ok?;
      PlanSucceeds(select, bound, rotations, count - 1, used + [position.value]);
    }
  }

  /** So a generator with the built-in position selector and a direction
      selector that answers from its argument builds up to 343 pipes. */
  lemma GeneratorPlanSucceeds(generator: PipeGenerator, count: nat)
    requires generator.positionSelector == DefaultPosition
    requires AnswersFromArgument(generator.directionSelector)
    requires count <= CELLS
    ensures GeneratorPlan(generator, count).Ok?
  {
    var t := Steps(generator.directionSelector, NUM_PIPE_TURNS, None, ROTATION_ANGLE);
    FromArgumentNeverFails(generator.directionSelector, NUM_PIPE_TURNS, ROTATION_ANGLE, t);
    DefaultFreeBelow();
    PlanSucceeds(DefaultPosition, CELLS, PipeRotations(generator), count, []);
  }

  /** So the generator `new PipeGenerator()` builds, left to its default
      selectors, makes up to 343 pipes without failing. */
  lemma DefaultGeneratorSucceeds(generator: PipeGenerator, count: nat)
    requires generator.Valid()
    requires generator.directionSelector == generator.randomDirection
    requires generator.positionSelector == DefaultPosition
    requires count <= CELLS
    ensures GeneratorPlan(generator, count).Ok?
    ensures |GeneratorPlan(generator, count).value| == count
  {
    GeneratorPlanSucceeds(generator, count);
    PlanLength(generator.positionSelector, PipeRotations(generator), count, []);
  }

  /** A run fails with the first error: a forbidden first position fails it
      before rotations are generated, and failed rotations fail every run of at
      least one pipe whose first position is free. */
  lemma PlanFailures(select: PositionSelector, rotations: Result<seq<Rotation>>, count: nat, used: seq<Position>)
    requires count > 0
    ensures select(used) in used ==> Plan(select, rotations, count, used) == Err(ForbiddenPosition)
    ensures select(used) !in used && rotations.Err? ==> Plan(select, rotations, count, used) == Err(rotations.error)
  {
  }

  /** A run fails only with an unavailable position or with the rotations'
      own error, and a failure to generate rotations always fails a run that
      makes at least one pipe. */
  lemma {:induction false} PlanErrors(select: PositionSelector, rotations: Result<seq<Rotation>>, count: nat, used: seq<Position>)
    ensures var r := Plan(select, rotations, count, used);
      && (r.Err? ==> r.error == ForbiddenPosition || (rotations.Err? && r.error == rotations.error))
      && (count > 0 && rotations.Err? ==> r.Err?)
  {
    if count > 0 {
      var position := SelectPosition(select, Some(used));
      if position.Ok? && rotations.Ok? {
        PlanErrors(select, rotations, count - 1, used + [position.value]);
      }
    }
  }

  /** `generatePipes` fails only with `ForbiddenPosition` or `InvalidDirection`,
      and always fails, for at least one pipe, when the direction selector does. */
  lemma GeneratorPlanErrors(generator: PipeGenerator, count: nat)
    ensures var r := GeneratorPlan(generator, count);
      && (r.Err? ==> r.error == ForbiddenPosition || r.error == InvalidDirection)
      && (count > 0 && PipeRotations(generator).Err? ==> r.Err?)
  {
    PlanErrors(generator.positionSelector, PipeRotations(generator), count, []);
  }

  /** One iteration of `generatePipes`, seen from the whole run. */
  lemma ExtendStep(select: PositionSelector, rotations: Result<seq<Rotation>>, count: nat, used: seq<Position>, done: seq<RenderablePipe>)
    requires count > 0
    requires SelectPosition(select, Some(used)).Ok? && rotations.Ok?
    ensures var pipe := RenderablePipe(SelectPosition(select, Some(used)).value, rotations.value);
      Extend(done, Plan(select, rotations, count, used))
        == Extend(done + [pipe], Plan(select, rotations, count - 1, used + [pipe.startingPosition]))
  {
    var pipe := RenderablePipe(SelectPosition(select, Some(used)).value, rotations.value);
    var rest := Plan(select, rotations, count - 1, used + [pipe.startingPosition]);
    if rest.Ok? {
      assert done + ([pipe] + rest.value) == done + [pipe] + rest.value;
    }
  }

  lemma ExtendNothing(r: Result<seq<RenderablePipe>>)
    ensures Extend([], r) == r
  {
    if r.Ok? {
      assert [] + r.value == r.value;
    }
  }

  /** `generatePipeRotations`: 32 rotations by 90 degrees. */
  method GeneratePipeRotations(generator: PipeGenerator) returns (r: Result<seq<Rotation>>)
    ensures r == PipeRotations(generator)
    ensures r.Ok? ==> |r.value| == NUM_PIPE_TURNS && forall x :: x in r.value ==> x.angle == ROTATION_ANGLE || x.angle == -ROTATION_ANGLE
  {
    ghost var offered;
    r, offered := generator.GeneratePipeDirections(NUM_PIPE_TURNS, ROTATION_ANGLE);
    PipeRotationsShape(generator);
  }

  /** `generatePipes`: one pipe per iteration, each placed away from the
      positions already used. */
  method GeneratePipes(generator: PipeGenerator, numPipes: nat) returns (r: Result<seq<RenderablePipe>>)
    ensures r == GeneratorPlan(generator, numPipes)
  {
    ghost var select, rotationOutcome := generator.positionSelector, PipeRotations(generator);
    var usedPositions: seq<Position> := [];
    var pipes: seq<RenderablePipe> := [];
    var i := 0;
    ExtendNothing(Plan(select, rotationOutcome, numPipes, []));
    while i < numPipes
      invariant i <= numPipes
      invariant usedPositions == StartingPositions(pipes)
      invariant Plan(select, rotationOutcome, numPipes, []) == Extend(pipes, Plan(select, rotationOutcome, numPipes - i, usedPositions))
    {
      var position := generator.GeneratePosition(Some(usedPositions));
      if position.Err? {
        return Err(position.error);
      }
      var rotations := GeneratePipeRotations(generator);
      if rotations.Err? {
        return Err(rotations.error);
      }
      var pipe := RenderablePipe(position.value, rotations.value);
      ExtendStep(select, rotationOutcome, numPipes - i, usedPositions, pipes);
      usedPositions := usedPositions + [position.value];
      pipes := pipes + [pipe];
      i := i + 1;
    }
    assert pipes + [] == pipes;
    r := Ok(pipes);
  }

  // ---------------------------------------------------------------------------
  // Uniforms

  /** `pipe.rotations.map(...)`: each rotation with its flattened matrix and its axis. */
  function UniformsOfPipe(rotations: seq<Rotation>, matrixOf: Rotation -> Nonuplet): (r: seq<RotationUniform>)
    ensures |r| == |rotations|
    ensures forall j :: 0 <= j < |rotations| ==> r[j] == RotationUniform(matrixOf(rotations[j]), rotations[j].axis)
  {
    seq(|rotations|, j requires 0 <= j < |rotations| => RotationUniform(matrixOf(rotations[j]), rotations[j].axis))
  }

  /** The number of rotations of all pipes together. */
  function TotalRotations(pipes: seq<RenderablePipe>): nat
  {
    if pipes == [] then 0 else |pipes[0].rotations| + TotalRotations(pipes[1..])
  }

  /** Where the entries of pipe k start in the flattened list. */
  function Offset(pipes: seq<RenderablePipe>, k: nat): nat
    requires k <= |pipes|
  {
    TotalRotations(pipes[..k])
  }

  /** `lodash.flatten` of the per-pipe lists: one entry per rotation of every
      pipe, in pipe-major order. */
  function FlattenUniforms(pipes: seq<RenderablePipe>, matrixOf: Rotation -> Nonuplet): (r: seq<RotationUniform>)
    ensures |r| == TotalRotations(pipes)
  {
    if pipes == [] then [] else UniformsOfPipe(pipes[0].rotations, matrixOf) + FlattenUniforms(pipes[1..], matrixOf)
  }

  lemma {:induction false} TotalRotationsAppend(a: seq<RenderablePipe>, b: seq<RenderablePipe>)
    ensures TotalRotations(a + b) == TotalRotations(a) + TotalRotations(b)
  {
    if a == [] {
      assert a + b == b;
    } else {
      assert (a + b)[0] == a[0];
      assert (a + b)[1..] == a[1..] + b;
      TotalRotationsAppend(a[1..], b);
    }
  }

  /** Entry `Offset(k) + j` is rotation j of pipe k, with its matrix and its axis. */
  lemma {:induction false} FlattenUniformsAt(pipes: seq<RenderablePipe>, matrixOf: Rotation -> Nonuplet, k: nat, j: nat)
    requires k < |pipes| && j < |pipes[k].rotations|
    ensures Offset(pipes, k) + j < |FlattenUniforms(pipes, matrixOf)|
    ensures FlattenUniforms(pipes, matrixOf)[Offset(pipes, k) + j]
         == RotationUniform(matrixOf(pipes[k].rotations[j]), pipes[k].rotations[j].axis)
  {
    TotalRotationsAppend(pipes[..k], pipes[k..]);
    assert pipes[..k] + pipes[k..] == pipes;
    assert TotalRotations(pipes[k..]) == |pipes[k].rotations| + TotalRotations(pipes[k + 1..]) by {
      assert pipes[k..][1..] == pipes[k + 1..];
    }
    if k == 0 {
      assert pipes[..0] == [];
    } else {
      FlattenUniformsAt(pipes[1..], matrixOf, k - 1, j);
      assert pipes[..k] == [pipes[0]] + pipes[1..][..k - 1];
      assert TotalRotations(pipes[..k]) == |pipes[0].rotations| + TotalRotations(pipes[1..][..k - 1]) by {
        assert ([pipes[0]] + pipes[1..][..k - 1])[1..] == pipes[1..][..k - 1];
      }
    }
  }

  /** When every pipe has the same number of turns, the list has that many entries per pipe. */
  lemma {:induction false} TotalRotationsUniform(pipes: seq<RenderablePipe>, turns: nat)
    ensures (forall i :: 0 <= i < |pipes| ==> |pipes[i].rotations| == turns) ==> TotalRotations(pipes) == turns * |pipes|
  {
    if pipes != [] {
      TotalRotationsUniform(pipes[1..], turns);
      if forall i :: 0 <= i < |pipes| ==> |pipes[i].rotations| == turns {
        assert forall i :: 0 <= i < |pipes[1..]| ==> pipes[1..][i] == pipes[i + 1];
      }
    }
  }

  // ---------------------------------------------------------------------------
  // The simulation

  /** What `generatePipes` guarantees of the pipes it returns: each has 32
      rotations by plus or minus 90 degrees, and no two share a starting position. */
  ghost predicate ValidPipes(pipes: seq<RenderablePipe>)
  {
    && (forall i :: 0 <= i < |pipes| ==>
          && |pipes[i].rotations| == NUM_PIPE_TURNS
          && forall r :: r in pipes[i].rotations ==> r.angle == ROTATION_ANGLE || r.angle == -ROTATION_ANGLE)
    && (forall i, j :: 0 <= i < j < |pipes| ==> pipes[i].startingPosition != pipes[j].startingPosition)
  }

  class PipeSimulation {
    const pipeGenerator: PipeGenerator
    const pipes: seq<RenderablePipe>

    /** The pipes satisfy what `generatePipes` guarantees. */
    ghost predicate Valid()
    {
      ValidPipes(pipes)
    }

    /** The simulation over `pipes`, which must be pipes as `generatePipes` returns them. */
    constructor (pipeGenerator: PipeGenerator, pipes: seq<RenderablePipe>)
      requires ValidPipes(pipes)
      ensures this.pipeGenerator == pipeGenerator && this.pipes == pipes && Valid()
    {
      this.pipeGenerator := pipeGenerator;
      this.pipes := pipes;
    }

    /** The source's constructor: generate `numPipes` pipes, or fail with the
        error that generation raised. */
    static method Create(pipeGenerator: PipeGenerator, numPipes: nat) returns (r: Result<PipeSimulation>)
      ensures r.Ok? <==> GeneratorPlan(pipeGenerator, numPipes).Ok?
      ensures r.Err? ==> r.error == GeneratorPlan(pipeGenerator, numPipes).error
      ensures r.Ok? ==> && fresh(r.value) && r.value.pipeGenerator == pipeGenerator
                        && r.value.pipes == GeneratorPlan(pipeGenerator, numPipes).value
                        && |r.value.pipes| == numPipes && r.value.Valid()
    {
      var generated := GeneratePipes(pipeGenerator, numPipes);
      if generated.Err? {
        return Err(generated.error);
      }
      ghost var select, rotations := pipeGenerator.positionSelector, PipeRotations(pipeGenerator);
      PlanLength(select, rotations, numPipes, []);
      PlanRotations(select, rotations, numPipes, [], generated.value);
      PlanDistinct(select, rotations, numPipes, [], generated.value);
      PipeRotationsShape(pipeGenerator);
      var simulation := new PipeSimulation(pipeGenerator, generated.value);
      r := Ok(simulation);
    }

    /** The parameters `getPipeRenderCommand` compiles the shader with: the
        number of turns every valid simulation's pipes have, the number of
        pipes, and the Y axis. */
    function ShaderParameters(): (p: PipesShaderParameters)
      ensures p.numTurns == NUM_PIPE_TURNS && p.numPipes == |pipes| && p.yAxis == Y
      ensures Valid() ==> forall i :: 0 <= i < |pipes| ==> |pipes[i].rotations| == p.numTurns
    {
      PipesShaderParameters(NUM_PIPE_TURNS, |pipes|, Y)
    }

    /** The `starting_positions` uniforms of `getPipeRenderCommand`: the
        starting position of pipe i under `starting_positions[i]`, one uniform
        per pipe and nothing else. */
    method StartingPositionUniforms() returns (u: map<string, Position>)
      ensures forall i :: 0 <= i < |pipes| ==>
        ArrayKey("starting_positions", i) in u && u[ArrayKey("starting_positions", i)] == pipes[i].startingPosition
      ensures forall k :: k in u ==> exists i :: 0 <= i < |pipes| && k == ArrayKey("starting_positions", i)
      ensures |u| == |pipes|
    {
      var startingPositions := GetObjectPropertyAsArray(pipes, (pipe: RenderablePipe) => pipe.startingPosition);
      u := MakeUniformsForArray("starting_positions", startingPositions);
      ArrayUniformsCount("starting_positions", |pipes|, u);
    }

    /** `convertRotationsForUniform`, given the flattened rotation matrix of
        each rotation: 32 entries per pipe of a valid simulation. */
    function ConvertRotationsForUniform(matrixOf: Rotation -> Nonuplet): (r: seq<RotationUniform>)
      ensures |r| == TotalRotations(pipes)
      ensures Valid() ==> |r| == NUM_PIPE_TURNS * |pipes|
    {
      TotalRotationsUniform(pipes, NUM_PIPE_TURNS);
      FlattenUniforms(pipes, matrixOf)
    }
  }
}
