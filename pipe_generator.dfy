/** `PipeGenerator`: turns injected selector functions into rotation
    sequences and starting positions, and checks what the selectors answer. */
module PipeGeneration {
  import opened PipeTypes

  /** Picks one direction from the candidates it is offered. */
  type DirectionSelector = seq<RotationDirection> -> RotationDirection
  /** Picks a hue. */
  type HueSelector = () -> real
  /** Picks a position, given the positions it must avoid. */
  type PositionSelector = seq<Position> -> Position

  // ---------------------------------------------------------------------------
  // Directions

  /** `possibleRotations`: the six canonical directions, in the source's order. */
  const Pool: seq<RotationDirection> := [
    RotationDirection(X, 1), RotationDirection(Y, 1), RotationDirection(Z, 1),
    RotationDirection(X, -1), RotationDirection(Y, -1), RotationDirection(Z, -1)
  ]

  /** One of the six canonical directions: any axis, polarity +1 or -1. */
  predicate IsCanonical(d: RotationDirection)
  {
    d.polarity == 1 || d.polarity == -1
  }

  /** The membership test against the six directions is the polarity test. */
  lemma CanonicalIffInPool(d: RotationDirection)
    ensures IsCanonical(d) <==> d in Pool
  {
    if IsCanonical(d) {
      var k := (if d.axis == X then 0 else if d.axis == Y then 1 else 2) + (if d.polarity == 1 then 0 else 3);
      assert Pool[k] == d;
    }
  }

  /** The direction that would double back on `d`: same axis, polarity negated. */
  function Inverse(d: RotationDirection): (r: RotationDirection)
    ensures r.axis == d.axis && r.polarity + d.polarity == 0
    ensures IsCanonical(r) <==> IsCanonical(d)
    ensures IsCanonical(d) ==> r != d
  {
    RotationDirection(d.axis, -1 * d.polarity)
  }

  /** `s.filter(item => !isEqual(item, x))`. */
  function Without(s: seq<RotationDirection>, x: RotationDirection): (r: seq<RotationDirection>)
    ensures forall y :: y in r <==> y in s && y != x
  {
    if s == [] then []
    else if s[0] == x then Without(s[1..], x)
    else [s[0]] + Without(s[1..], x)
  }

  /** `rotationPossibilities`: every direction on the first step, and every
      direction except the inverse of the last one afterwards. */
  function Candidates(lastDirection: Option<RotationDirection>): seq<RotationDirection>
  {
    if lastDirection.None? then Pool else Without(Pool, Inverse(lastDirection.value))
  }

  /** The selector is offered all six directions on the first step, and
      afterwards the six less the inverse of the last one; never nothing. */
  lemma CandidatesMembers(lastDirection: Option<RotationDirection>)
    ensures lastDirection.None? ==> Candidates(lastDirection) == Pool
    ensures lastDirection.Some? ==>
      forall x :: x in Candidates(lastDirection) <==> x in Pool && x != Inverse(lastDirection.value)
    ensures Candidates(lastDirection) != []
  {
    assert Pool[0] in Pool && Pool[3] in Pool;
  }

  lemma {:induction false} WithoutAbsent(s: seq<RotationDirection>, x: RotationDirection)
    requires x !in s
    ensures Without(s, x) == s
  {
    if s != [] {
      WithoutAbsent(s[1..], x);
    }
  }

  /** Removing a value that occurs once, at index k, leaves the rest in order. */
  lemma {:induction false} WithoutOnce(s: seq<RotationDirection>, x: RotationDirection, k: nat)
    requires k < |s| && s[k] == x
    requires forall j :: 0 <= j < |s| && j != k ==> s[j] != x
    ensures Without(s, x) == s[..k] + s[k + 1..]
  {
    if k == 0 {
      WithoutAbsent(s[1..], x);
    } else {
      forall j | 0 <= j < |s[1..]| && j != k - 1
        ensures s[1..][j] != x
      {
        assert s[1..][j] == s[j + 1];
      }
      WithoutOnce(s[1..], x, k - 1);
      assert s[1..][..k - 1] == s[1..k];
      assert [s[0]] + s[1..k] == s[..k];
    }
  }

  /** After a canonical direction the selector is offered five directions:
      the six canonical ones less exactly the inverse of the last one. */
  lemma CandidatesAfter(d: RotationDirection)
    requires IsCanonical(d)
    ensures |Candidates(Some(d))| == 5
    ensures Inverse(d) in Pool && Inverse(d) !in Candidates(Some(d))
    ensures forall x :: x in Candidates(Some(d)) <==> x in Pool && x != Inverse(d)
  {
    CanonicalIffInPool(d);
    var k :| 0 <= k < 6 && Pool[k] == d;
    var opposite := (k + 3) % 6;
    assert Inverse(d) == Pool[opposite];
    WithoutOnce(Pool, Inverse(d), opposite);
  }

  /** `{ axis: direction.axis, angle: direction.polarity * rotationAngle }`. */
  function ToRotation(d: RotationDirection, rotationAngle: int): Rotation
  {
    Rotation(d.axis, d.polarity * rotationAngle)
  }

  /** What one run of `generatePipeDirections` produces: its outcome, and the
      candidate lists handed to the selector, one per call, in call order. */
  datatype Trace = Trace(outcome: Result<seq<Rotation>>, offered: seq<seq<RotationDirection>>)

  /** The remaining `n` steps of `generatePipeDirections`, starting from
      `lastDirection`: offer the candidates, validate the answer against all six
      directions, then record it and emit its rotation. */
  function Steps(select: DirectionSelector, n: nat, lastDirection: Option<RotationDirection>, rotationAngle: int): Trace
    decreases n
  {
    if n == 0 then Trace(Ok([]), [])
    else
      var offer := Candidates(lastDirection);
      var direction := select(offer);
      if !IsCanonical(direction) then Trace(Err(InvalidDirection), [offer])
      else
        var rest := Steps(select, n - 1, Some(direction), rotationAngle);
        Trace(if rest.outcome.Ok? then Ok([ToRotation(direction, rotationAngle)] + rest.outcome.value) else rest.outcome,
              [offer] + rest.offered)
  }

  /** A run whose first steps emitted `rotations` after offering `offered`, and then went on as `t`. */
  ghost function Continue(rotations: seq<Rotation>, offered: seq<seq<RotationDirection>>, t: Trace): Trace
  {
    Trace(if t.outcome.Ok? then Ok(rotations + t.outcome.value) else t.outcome, offered + t.offered)
  }

  /** A selector that answers with one of the candidates it is given. */
  ghost predicate AnswersFromArgument(select: DirectionSelector)
  {
    forall c: seq<RotationDirection> :: c != [] ==> select(c) in c
  }

  /** A run of n steps calls the selector n times when it succeeds and emits n
      rotations; a failing run stops after the call that failed. */
  lemma {:induction false} StepsCount(select: DirectionSelector, n: nat, lastDirection: Option<RotationDirection>, rotationAngle: int, t: Trace)
    requires t == Steps(select, n, lastDirection, rotationAngle)
    ensures |t.offered| <= n
    ensures n > 0 ==> |t.offered| >= 1
    ensures t.outcome.Ok? ==> |t.outcome.value| == n && |t.offered| == n
  {
    if n > 0 {
      var direction := select(Candidates(lastDirection));
      if IsCanonical(direction) {
        StepsCount(select, n - 1, Some(direction), rotationAngle, Steps(select, n - 1, Some(direction), rotationAngle));
      }
    }
  }

  /** The first call is offered the candidates after `lastDirection`; every
      later call is offered the candidates after the previous call's answer,
      which was one of the six canonical directions. */
  lemma {:induction false} StepsOffers(select: DirectionSelector, n: nat, lastDirection: Option<RotationDirection>, rotationAngle: int, t: Trace)
    requires t == Steps(select, n, lastDirection, rotationAngle)
    ensures |t.offered| > 0 ==> t.offered[0] == Candidates(lastDirection)
    ensures forall i :: 0 <= i < |t.offered| - 1 ==>
      IsCanonical(select(t.offered[i])) && t.offered[i + 1] == Candidates(Some(select(t.offered[i])))
  {
    if n > 0 {
      var offer := Candidates(lastDirection);
      var direction := select(offer);
      if IsCanonical(direction) {
        var rest := Steps(select, n - 1, Some(direction), rotationAngle);
        StepsOffers(select, n - 1, Some(direction), rotationAngle, rest);
        assert t.offered == [offer] + rest.offered;
        forall i | 0 <= i < |t.offered| - 1
          ensures IsCanonical(select(t.offered[i])) && t.offered[i + 1] == Candidates(Some(select(t.offered[i])))
        {
          assert t.offered[i + 1] == rest.offered[i];
          if i > 0 {
            assert t.offered[i] == rest.offered[i - 1];
          }
        }
      }
    }
  }

  /** On success, rotation i carries the axis of the i-th answer and its
      polarity times the rotation angle. */
  lemma {:induction false} StepsOutputs(select: DirectionSelector, n: nat, lastDirection: Option<RotationDirection>, rotationAngle: int, t: Trace)
    requires t == Steps(select, n, lastDirection, rotationAngle)
    ensures t.outcome.Ok? ==> |t.outcome.value| == n == |t.offered|
    ensures t.outcome.Ok? ==> forall i :: 0 <= i < |t.outcome.value| ==>
      IsCanonical(select(t.offered[i])) &&
      t.outcome.value[i] == Rotation(select(t.offered[i]).axis, select(t.offered[i]).polarity * rotationAngle)
  {
    StepsCount(select, n, lastDirection, rotationAngle, t);
    if n > 0 {
      var offer := Candidates(lastDirection);
      var direction := select(offer);
      if IsCanonical(direction) {
        var rest := Steps(select, n - 1, Some(direction), rotationAngle);
        StepsOutputs(select, n - 1, Some(direction), rotationAngle, rest);
        if t.outcome.Ok? {
          forall i | 0 < i < n
            ensures t.offered[i] == rest.offered[i - 1] && t.outcome.value[i] == rest.outcome.value[i - 1]
          {
          }
        }
      }
    }
  }

  /** A run fails exactly when the selector's last answer was none of the six
      canonical directions; every earlier answer was one of them. */
  lemma {:induction false} StepsFailure(select: DirectionSelector, n: nat, lastDirection: Option<RotationDirection>, rotationAngle: int, t: Trace)
    requires t == Steps(select, n, lastDirection, rotationAngle)
    ensures t.outcome.Err? <==> |t.offered| > 0 && !IsCanonical(select(t.offered[|t.offered| - 1]))
    ensures t.outcome.Err? ==> t.outcome.error == InvalidDirection
    ensures forall i :: 0 <= i < |t.offered| - 1 ==> IsCanonical(select(t.offered[i]))
  {
    if n > 0 {
      var offer := Candidates(lastDirection);
      var direction := select(offer);
      if IsCanonical(direction) {
        var rest := Steps(select, n - 1, Some(direction), rotationAngle);
        StepsFailure(select, n - 1, Some(direction), rotationAngle, rest);
        assert t.offered == [offer] + rest.offered;
        if |rest.offered| > 0 {
          assert t.offered[|t.offered| - 1] == rest.offered[|rest.offered| - 1];
        }
        forall i | 0 < i < |t.offered| - 1
          ensures IsCanonical(select(t.offered[i]))
        {
          assert t.offered[i] == rest.offered[i - 1];
        }
      }
    }
  }

  /** `offer` is what follows the canonical answer `d`: five directions, all
      six canonical ones except exactly the inverse of `d`. */
  ghost predicate OfferAfter(d: RotationDirection, offer: seq<RotationDirection>)
  {
    && |offer| == 5
    && Inverse(d) in Pool
    && Inverse(d) !in offer
    && forall x :: x in Pool && x != Inverse(d) ==> x in offer
  }

  /** From a fresh start the selector is first offered all six directions, and
      on every later call the five left after removing exactly the inverse of
      its previous answer. */
  lemma DirectionsOffered(select: DirectionSelector, n: nat, rotationAngle: int, t: Trace)
    requires t == Steps(select, n, None, rotationAngle)
    ensures n > 0 ==> |t.offered| > 0 && t.offered[0] == Pool && |Pool| == 6
    ensures forall i :: 0 <= i < |t.offered| - 1 ==> OfferAfter(select(t.offered[i]), t.offered[i + 1])
  {
    StepsCount(select, n, None, rotationAngle, t);
    StepsOffers(select, n, None, rotationAngle, t);
    forall i | 0 <= i < |t.offered| - 1
      ensures OfferAfter(select(t.offered[i]), t.offered[i + 1])
    {
      CandidatesAfter(select(t.offered[i]));
    }
  }

  /** A selector that answers with one of the candidates it is offered never
      makes generation fail. */
  lemma FromArgumentNeverFails(select: DirectionSelector, n: nat, rotationAngle: int, t: Trace)
    requires AnswersFromArgument(select)
    requires t == Steps(select, n, None, rotationAngle)
    ensures t.outcome.Ok? && |t.outcome.value| == |t.offered| == n
  {
    StepsCount(select, n, None, rotationAngle, t);
    StepsOffers(select, n, None, rotationAngle, t);
    StepsFailure(select, n, None, rotationAngle, t);
    if t.outcome.Err? {
      var last := |t.offered| - 1;
      var answer := select(t.offered[last]);
      assert answer in t.offered[last] by {
        if last == 0 {
          assert t.offered[0] == Pool;
        } else {
          CandidatesAfter(select(t.offered[last - 1]));
        }
      }
      if last == 0 {
        CanonicalIffInPool(answer);
      } else {
        CandidatesAfter(select(t.offered[last - 1]));
        CanonicalIffInPool(answer);
      }
      assert false;
    }
  }

  /** With such a selector no answer is the inverse of the answer before it. */
  lemma NoDoubleBack(select: DirectionSelector, n: nat, rotationAngle: int, t: Trace)
    requires AnswersFromArgument(select)
    requires t == Steps(select, n, None, rotationAngle)
    ensures |t.offered| == n
    ensures forall i :: 0 <= i < n - 1 ==> select(t.offered[i + 1]) != Inverse(select(t.offered[i]))
  {
    FromArgumentNeverFails(select, n, rotationAngle, t);
    StepsOffers(select, n, None, rotationAngle, t);
    forall i | 0 <= i < n - 1
      ensures select(t.offered[i + 1]) != Inverse(select(t.offered[i]))
    {
      CandidatesAfter(select(t.offered[i]));
    }
  }

  /** A generator left to its default direction selector, as `new PipeGenerator()`
      builds it, never fails to generate directions and never doubles back. */
  lemma DefaultDirectionsNeverFail(g: PipeGenerator, n: nat, rotationAngle: int)
    requires g.Valid() && g.directionSelector == g.randomDirection
    ensures var t := Steps(g.directionSelector, n, None, rotationAngle);
      && t.outcome.Ok? && |t.outcome.value| == |t.offered| == n
      && forall i :: 0 <= i < n - 1 ==> g.directionSelector(t.offered[i + 1]) != Inverse(g.directionSelector(t.offered[i]))
  {
    var t := Steps(g.directionSelector, n, None, rotationAngle);
    FromArgumentNeverFails(g.directionSelector, n, rotationAngle, t);
    NoDoubleBack(g.directionSelector, n, rotationAngle, t);
  }

  /** Hence, with a non-zero angle, no rotation is followed by its reverse
      about the same axis. */
  lemma NoReversedRotation(select: DirectionSelector, n: nat, rotationAngle: int, t: Trace)
    requires AnswersFromArgument(select) && rotationAngle != 0
    requires t == Steps(select, n, None, rotationAngle)
    ensures t.outcome.Ok?
    ensures forall i :: 0 <= i < |t.outcome.value| - 1 ==>
      !(t.outcome.value[i + 1].axis == t.outcome.value[i].axis && t.outcome.value[i + 1].angle == -t.outcome.value[i].angle)
  {
    FromArgumentNeverFails(select, n, rotationAngle, t);
    NoDoubleBack(select, n, rotationAngle, t);
    StepsOutputs(select, n, None, rotationAngle, t);
    forall i | 0 <= i < |t.outcome.value| - 1
      ensures !(t.outcome.value[i + 1].axis == t.outcome.value[i].axis && t.outcome.value[i + 1].angle == -t.outcome.value[i].angle)
    {
      var d, e := select(t.offered[i]), select(t.offered[i + 1]);
      if e.axis == d.axis {
        SameAxisNotReversed(d.polarity, e.polarity, rotationAngle);
      }
    }
  }

  /** Two unit polarities that are not opposite give angles that are not opposite. */
  lemma SameAxisNotReversed(p: int, q: int, angle: int)
    requires p == 1 || p == -1
    requires q == 1 || q == -1
    requires q != -1 * p && angle != 0
    ensures q * angle != -(p * angle)
  {
    assert q == p;
  }

  /** On success every rotation is by plus or minus the rotation angle. */
  lemma StepsAngles(select: DirectionSelector, n: nat, lastDirection: Option<RotationDirection>, rotationAngle: int, t: Trace)
    requires t == Steps(select, n, lastDirection, rotationAngle)
    ensures t.outcome.Ok? ==> forall r :: r in t.outcome.value ==> r.angle == rotationAngle || r.angle == -rotationAngle
  {
    StepsOutputs(select, n, lastDirection, rotationAngle, t);
  }

  /** The membership check runs against all six directions, not against the
      candidates offered, so a selector that answers with the excluded inverse
      is not rejected and the pipe doubles back. */
  lemma InverseAnswerAccepted(select: DirectionSelector)
    requires select(Pool) == RotationDirection(X, 1)
    requires select(Candidates(Some(RotationDirection(X, 1)))) == RotationDirection(X, -1)
    ensures RotationDirection(X, -1) !in Candidates(Some(RotationDirection(X, 1)))
    ensures Steps(select, 2, None, 90).outcome == Ok([Rotation(X, 90), Rotation(X, -90)])
  {
    var first, second := RotationDirection(X, 1), RotationDirection(X, -1);
    CandidatesAfter(first);
    var last := Steps(select, 0, Some(second), 90);
    assert last.outcome == Ok([]);
    assert IsCanonical(second) && ToRotation(second, 90) == Rotation(X, -90);
    assert [Rotation(X, -90)] + [] == [Rotation(X, -90)];
    var middle := Steps(select, 1, Some(first), 90);
    assert middle.outcome == Ok([Rotation(X, -90)]);
    assert IsCanonical(first) && ToRotation(first, 90) == Rotation(X, 90);
    assert Candidates(None) == Pool;
    assert [Rotation(X, 90)] + [Rotation(X, -90)] == [Rotation(X, 90), Rotation(X, -90)];
    assert Steps(select, 2, None, 90).outcome == Ok([Rotation(X, 90)] + middle.outcome.value);
  }

  /** A selector that answers polarity -50 makes generation fail. */
  lemma MalformedAnswerRejected(n: nat, rotationAngle: int)
    requires n > 0
    ensures Steps((c: seq<RotationDirection>) => RotationDirection(X, -50), n, None, rotationAngle).outcome == Err(InvalidDirection)
  {
  }

  /** One more step of a run: a canonical answer extends the emitted rotations
      and the offers, and a non-canonical one ends the run with the error. */
  lemma ContinueStep(select: DirectionSelector, m: nat, lastDirection: Option<RotationDirection>, rotationAngle: int,
                     rotations: seq<Rotation>, offered: seq<seq<RotationDirection>>)
    requires m > 0
    ensures var offer := Candidates(lastDirection); var direction := select(offer);
      Continue(rotations, offered, Steps(select, m, lastDirection, rotationAngle))
        == if IsCanonical(direction)
           then Continue(rotations + [ToRotation(direction, rotationAngle)], offered + [offer],
                         Steps(select, m - 1, Some(direction), rotationAngle))
           else Trace(Err(InvalidDirection), offered + [offer])
  {
    var offer := Candidates(lastDirection);
    var direction := select(offer);
    if IsCanonical(direction) {
      var rest := Steps(select, m - 1, Some(direction), rotationAngle);
      assert offered + ([offer] + rest.offered) == offered + [offer] + rest.offered;
      if rest.outcome.Ok? {
        assert rotations + ([ToRotation(direction, rotationAngle)] + rest.outcome.value)
            == rotations + [ToRotation(direction, rotationAngle)] + rest.outcome.value;
      }
    }
  }

  /** The start and the end of a run seen through `Continue`. */
  lemma ContinueEnds(select: DirectionSelector, lastDirection: Option<RotationDirection>, rotationAngle: int,
                     rotations: seq<Rotation>, offered: seq<seq<RotationDirection>>, t: Trace)
    ensures Continue([], [], t) == t
    ensures Continue(rotations, offered, Steps(select, 0, lastDirection, rotationAngle)) == Trace(Ok(rotations), offered)
  {
    assert [] + t.offered == t.offered;
    if t.outcome.Ok? {
      assert [] + t.outcome.value == t.outcome.value;
    }
    assert rotations + [] == rotations && offered + [] == offered;
  }

  // ---------------------------------------------------------------------------
  // The default position selector's grid

  const MIN_COORDINATE: int := -2
  const MAX_COORDINATE: int := 4
  /** Cells per axis, and cells in the grid. */
  const SIDE: nat := 7
  const CELLS: nat := 343

  /** The cell the triple loop pushes as its t-th position (i, then j, then k ascending). */
  function GridPoint(t: nat): Triplet
  {
    [(MIN_COORDINATE + t / 49) as real, (MIN_COORDINATE + (t / 7) % 7) as real, (MIN_COORDINATE + t % 7) as real]
  }

  /** The first `n` positions the triple loop pushes. */
  function GridPrefix(n: nat): (g: seq<Triplet>)
    ensures |g| == n && forall t :: 0 <= t < n ==> g[t] == GridPoint(t)
  {
    seq(n, t requires 0 <= t => GridPoint(t))
  }

  /** An integer point of the cube [-2, 4]^3. */
  ghost predicate InCube(p: Triplet)
  {
    forall c :: 0 <= c < 3 ==> p[c] == p[c].Floor as real && MIN_COORDINATE as real <= p[c] <= MAX_COORDINATE as real
  }

  /** Where a cube point sits in the loop's order. */
  function GridIndex(p: Triplet): int
  {
    49 * (p[0].Floor - MIN_COORDINATE) + 7 * (p[1].Floor - MIN_COORDINATE) + (p[2].Floor - MIN_COORDINATE)
  }

  lemma GridPointOf(a: int, b: int, c: int)
    requires 0 <= a < 7 && 0 <= b < 7 && 0 <= c < 7
    ensures GridPoint(49 * a + 7 * b + c) == [(MIN_COORDINATE + a) as real, (MIN_COORDINATE + b) as real, (MIN_COORDINATE + c) as real]
  {
    var t := 49 * a + 7 * b + c;
    assert t / 7 == 7 * a + b;
    assert t % 7 == c;
    assert (t / 7) % 7 == b;
    assert t / 49 == a;
  }

  /** The grid enumerates the cube exactly once: the t-th cell is a cube point
      whose index is t, and every cube point is the cell at its index. */
  lemma GridIndexRoundTrip(t: nat, p: Triplet)
    ensures t < CELLS ==> InCube(GridPoint(t)) && GridIndex(GridPoint(t)) == t
    ensures InCube(p) ==> 0 <= GridIndex(p) < CELLS && GridPoint(GridIndex(p)) == p
  {
    if t < CELLS {
      GridCellInCube(t);
    }
    if InCube(p) {
      CubePointIsCell(p);
    }
  }

  lemma GridCellInCube(t: nat)
    requires t < CELLS
    ensures InCube(GridPoint(t)) && GridIndex(GridPoint(t)) == t
  {
    var a, b, c := t / 49, (t / 7) % 7, t % 7;
    assert t == 49 * a + 7 * b + c;
    GridPointOf(a, b, c);
    var q := GridPoint(t);
    assert q[0].Floor == MIN_COORDINATE + a && q[1].Floor == MIN_COORDINATE + b && q[2].Floor == MIN_COORDINATE + c;
  }

  lemma CubePointIsCell(p: Triplet)
    requires InCube(p)
    ensures 0 <= GridIndex(p) < CELLS && GridPoint(GridIndex(p)) == p
  {
    var a, b, c := p[0].Floor - MIN_COORDINATE, p[1].Floor - MIN_COORDINATE, p[2].Floor - MIN_COORDINATE;
    assert 0 <= a < 7 && 0 <= b < 7 && 0 <= c < 7;
    GridPointOf(a, b, c);
    assert GridPoint(GridIndex(p)) == [p[0], p[1], p[2]];
  }

  /** `lodash.differenceWith(possible, forbidden, isEqual)`: the possible
      positions that are not forbidden, in their original order. */
  function DifferenceWith(possible: seq<Triplet>, forbidden: seq<Position>): (r: seq<Triplet>)
    ensures forall x :: x in r <==> x in possible && Some(x) !in forbidden
  {
    if possible == [] then []
    else if Some(possible[0]) in forbidden then DifferenceWith(possible[1..], forbidden)
    else [possible[0]] + DifferenceWith(possible[1..], forbidden)
  }

  /** The head of the difference is the first possible position that is not forbidden. */
  lemma {:induction false} DifferenceWithHead(possible: seq<Triplet>, forbidden: seq<Position>) returns (t: nat)
    requires DifferenceWith(possible, forbidden) != []
    ensures t < |possible| && DifferenceWith(possible, forbidden)[0] == possible[t]
    ensures Some(possible[t]) !in forbidden
    ensures forall u :: 0 <= u < t ==> Some(possible[u]) in forbidden
  {
    if Some(possible[0]) in forbidden {
      var t' := DifferenceWithHead(possible[1..], forbidden);
      t := t' + 1;
      forall u | 0 <= u < t
        ensures Some(possible[u]) in forbidden
      {
        if u > 0 {
          assert possible[u] == possible[1..][u - 1];
        }
      }
    } else {
      t := 0;
    }
  }

  /** The built-in position selector, `generateRandomPosition`: as
      `Math.floor(Math.random())` is always 0, it answers the first grid cell
      that is not forbidden, or `undefined` when there is none. */
  function DefaultPosition(forbidden: seq<Position>): (p: Position)
    ensures p.Some? ==> p !in forbidden && p.value in GridPrefix(CELLS)
  {
    FirstFree(GridPrefix(CELLS), forbidden)
  }

  /** The head of `differenceWith(grid, forbidden)`, or `undefined` when it is empty. */
  function FirstFree(grid: seq<Triplet>, forbidden: seq<Position>): (p: Position)
    ensures p.Some? ==> p.value in grid && p !in forbidden
    ensures p.None? <==> forall x :: x in grid ==> Some(x) in forbidden
  {
    var free := DifferenceWith(grid, forbidden);
    if |free| > 0 then Some(free[0]) else None
  }

  /** The default selector answers a cube point that is not forbidden and that
      every earlier cube point (in i, j, k order) is forbidden; it answers
      `undefined` exactly when every cube point is forbidden. */
  lemma DefaultPositionFirstFree(forbidden: seq<Position>)
    ensures DefaultPosition(forbidden).Some? ==>
      var p := DefaultPosition(forbidden).value;
      && InCube(p)
      && Some(p) !in forbidden
      && forall u :: 0 <= u < GridIndex(p) ==> Some(GridPoint(u)) in forbidden
    ensures DefaultPosition(forbidden).None? <==> forall t :: 0 <= t < CELLS ==> Some(GridPoint(t)) in forbidden
  {
    var grid := GridPrefix(CELLS);
    var free := DifferenceWith(grid, forbidden);
    if free != [] {
      var t := DifferenceWithHead(grid, forbidden);
      GridIndexRoundTrip(t, grid[t]);
    } else {
      forall t | 0 <= t < CELLS
        ensures Some(GridPoint(t)) in forbidden
      {
        assert grid[t] in grid;
      }
    }
  }

  /** Removes the first occurrence of `x`. */
  function RemoveFirst<T(==)>(b: seq<T>, x: T): (r: seq<T>)
    requires x in b
    ensures |r| == |b| - 1
    ensures forall y :: y in b && y != x ==> y in r
  {
    if b[0] == x then b[1..] else [b[0]] + RemoveFirst(b[1..], x)
  }

  /** Pigeonhole: distinct values that all occur in `b` are no more than `|b|`. */
  lemma {:induction false} DistinctCovered<T>(a: seq<T>, b: seq<T>)
    requires forall i, j :: 0 <= i < j < |a| ==> a[i] != a[j]
    requires forall i :: 0 <= i < |a| ==> a[i] in b
    ensures |a| <= |b|
  {
    if a != [] {
      var b' := RemoveFirst(b, a[0]);
      forall i | 0 <= i < |a| - 1
        ensures a[1..][i] in b'
      {
        assert a[1..][i] == a[i + 1] != a[0];
      }
      DistinctCovered(a[1..], b');
    }
  }

  /** With fewer than 343 forbidden positions the default selector always finds a free cube point. */
  lemma DefaultPositionAvailable(forbidden: seq<Position>)
    requires |forbidden| < CELLS
    ensures DefaultPosition(forbidden).Some?
    ensures InCube(DefaultPosition(forbidden).value) && DefaultPosition(forbidden) !in forbidden
  {
    DefaultPositionFirstFree(forbidden);
    if DefaultPosition(forbidden).None? {
      var cells := seq(CELLS, t requires 0 <= t => Some(GridPoint(t)));
      forall i, j | 0 <= i < j < CELLS
        ensures cells[i] != cells[j]
      {
        GridIndexRoundTrip(i, GridPoint(i));
        GridIndexRoundTrip(j, GridPoint(j));
      }
      DistinctCovered(cells, forbidden);
    }
  }

  // ---------------------------------------------------------------------------
  // The generator

  /** `generatePosition` given the selector: a missing forbidden list counts
      as empty; the selector's answer is returned unchanged unless it equals a
      forbidden position, which fails. */
  function SelectPosition(select: PositionSelector, forbidden: Option<seq<Position>>): (r: Result<Position>)
    ensures var list := if forbidden.None? then [] else forbidden.value;
      && (r.Ok? <==> select(list) !in list)
      && (r.Ok? ==> r.value == select(list))
      && (r.Err? ==> r.error == ForbiddenPosition)
  {
    var forbiddenPositions := if forbidden.None? then [] else forbidden.value;
    var selected := select(forbiddenPositions);
    if selected in forbiddenPositions then Err(ForbiddenPosition) else Ok(selected)
  }

  // ---------------------------------------------------------------------------
  // The default direction selector

  /** A source of the values `Math.random()` returns, one per candidate list. */
  type RandomSource = seq<RotationDirection> -> real

  /** Every value the source returns lies in [0, 1), as `Math.random()`'s do. */
  ghost predicate InUnitInterval(random: RandomSource)
  {
    forall c :: 0.0 <= random(c) < 1.0
  }

  /** `Math.floor(arr.length * Math.random())`. */
  function RandomIndex(length: nat, random: real): (i: int)
    ensures 0.0 <= random < 1.0 && length > 0 ==> 0 <= i < length
  {
    ScaledBelow(length as real, random);
    (length as real * random).Floor
  }

  lemma ScaledBelow(x: real, u: real)
    ensures x > 0.0 && 0.0 <= u < 1.0 ==> 0.0 <= x * u < x
  {
  }

  /** `getRandomArrayElement`: the element at the random index. The list is
      never empty when the generator calls it; there the source would answer
      `undefined`, which a direction cannot be, and the model answers (X, +1). */
  function RandomArrayElement(arr: seq<RotationDirection>, random: real): (r: RotationDirection)
    ensures arr != [] && 0.0 <= random < 1.0 ==> r in arr
  {
    var index := RandomIndex(|arr|, random);
    if 0 <= index < |arr| then arr[index] else RotationDirection(X, 1)
  }

  /** The default direction selector, drawing on `random`. */
  function RandomDirectionSelector(random: RandomSource): DirectionSelector
  {
    c => RandomArrayElement(c, random(c))
  }

  /** Whatever `Math.random()` returns, the default selector answers one of
      the candidates it is offered. */
  lemma {:induction false} RandomSelectorAnswersFromArgument(random: RandomSource)
    requires InUnitInterval(random)
    ensures AnswersFromArgument(RandomDirectionSelector(random))
  {
    forall c: seq<RotationDirection> | c != []
      ensures RandomDirectionSelector(random)(c) in c
    {
      assert 0.0 <= random(c) < 1.0;
    }
  }

  class PipeGenerator {
    var directionSelector: DirectionSelector
    var hueSelector: HueSelector
    var positionSelector: PositionSelector

    /** The random defaults `getRandomArrayElement` and `generateRandomHue`;
        the values of `Math.random()` come from outside the model. */
    const randomDirection: DirectionSelector
    const randomHue: HueSelector

    /** The default direction selector answers from its argument; it never changes. */
    ghost predicate Valid()
    {
      AnswersFromArgument(randomDirection)
    }

    constructor (directionSelector: Option<DirectionSelector>, hueSelector: Option<HueSelector>,
                 positionSelector: Option<PositionSelector>,
                 random: RandomSource, randomHue: HueSelector)
      requires InUnitInterval(random)
      ensures this.randomDirection == RandomDirectionSelector(random) && this.randomHue == randomHue
      ensures Valid()
      ensures this.directionSelector == if directionSelector.None? then randomDirection else directionSelector.value
      ensures this.hueSelector == if hueSelector.None? then randomHue else hueSelector.value
      ensures this.positionSelector == if positionSelector.None? then DefaultPosition else positionSelector.value
    {
      this.randomDirection := RandomDirectionSelector(random);
      this.randomHue := randomHue;
      this.directionSelector := RandomDirectionSelector(random);
      RandomSelectorAnswersFromArgument(random);
      this.hueSelector := randomHue;
      this.positionSelector := DefaultPosition;
      new;
      SetDirectionSelector(directionSelector);
      SetHueSelector(hueSelector);
      SetPositionSelector(positionSelector);
    }

    method SetDirectionSelector(directionSelector: Option<DirectionSelector>)
      modifies this`directionSelector
      ensures this.directionSelector == if directionSelector.None? then randomDirection else directionSelector.value
      ensures hueSelector == old(hueSelector) && positionSelector == old(positionSelector)
    {
      var installed: DirectionSelector := if directionSelector.None? then randomDirection else directionSelector.value;
      this.directionSelector := installed;
    }

    method SetHueSelector(hueSelector: Option<HueSelector>)
      modifies this`hueSelector
      ensures this.hueSelector == if hueSelector.None? then randomHue else hueSelector.value
      ensures directionSelector == old(directionSelector) && positionSelector == old(positionSelector)
    {
      var installed: HueSelector := if hueSelector.None? then randomHue else hueSelector.value;
      this.hueSelector := installed;
    }

    method SetPositionSelector(positionSelector: Option<PositionSelector>)
      modifies this`positionSelector
      ensures this.positionSelector == if positionSelector.None? then DefaultPosition else positionSelector.value
      ensures directionSelector == old(directionSelector) && hueSelector == old(hueSelector)
    {
      var installed: PositionSelector := if positionSelector.None? then DefaultPosition else positionSelector.value;
      this.positionSelector := installed;
    }

    /** `generatePosition`, with this generator's position selector. */
    function GeneratePosition(forbidden: Option<seq<Position>>): (r: Result<Position>)
      reads this
      ensures var list := if forbidden.None? then [] else forbidden.value;
        && (r.Ok? <==> positionSelector(list) !in list)
        && (r.Ok? ==> r.value == positionSelector(list))
        && (r.Err? ==> r.error == ForbiddenPosition)
    {
      SelectPosition(positionSelector, forbidden)
    }

    /** `generatePipeDirections`: `numPipes` rotations, one selector call each,
        as `Steps` describes from a fresh start; `offered` records what each
        call was given. */
    method GeneratePipeDirections(numPipes: nat, rotationAngle: int)
      returns (r: Result<seq<Rotation>>, ghost offered: seq<seq<RotationDirection>>)
      ensures r == Steps(directionSelector, numPipes, None, rotationAngle).outcome
      ensures offered == Steps(directionSelector, numPipes, None, rotationAngle).offered
    {
      var possibleRotations := Pool;
      var lastDirection: Option<RotationDirection> := None;
      var rotations: seq<Rotation> := [];
      offered := [];
      var i := 0;
      ContinueEnds(directionSelector, None, rotationAngle, [], [], Steps(directionSelector, numPipes, None, rotationAngle));
      while i < numPipes
        invariant i <= numPipes
        invariant Steps(directionSelector, numPipes, None, rotationAngle)
               == Continue(rotations, offered, Steps(directionSelector, numPipes - i, lastDirection, rotationAngle))
      {
        var rotationPossibilities := Candidates(lastDirection);
        var direction := directionSelector(rotationPossibilities);
        ContinueStep(directionSelector, numPipes - i, lastDirection, rotationAngle, rotations, offered);
        CanonicalIffInPool(direction);
        offered := offered + [rotationPossibilities];
        if direction !in possibleRotations {
          r := Err(InvalidDirection);
          return;
        }
        lastDirection := Some(direction);
        rotations := rotations + [ToRotation(direction, rotationAngle)];
        i := i + 1;
      }
      ContinueEnds(directionSelector, lastDirection, rotationAngle, rotations, offered, Steps(directionSelector, 0, lastDirection, rotationAngle));
      r := Ok(rotations);
    }

    /** `generateRandomPosition`, with its triple loop over the cube. */
    static method GenerateRandomPosition(forbiddenPositions: seq<Position>) returns (p: Position)
      ensures p == DefaultPosition(forbiddenPositions)
    {
      var min, max := MIN_COORDINATE, MAX_COORDINATE;
      var possiblePositions: seq<Triplet> := [];
      var i := min;
      while i <= max
        invariant min <= i <= max + 1
        invariant possiblePositions == GridPrefix(49 * (i - min))
      {
        var j := min;
        while j <= max
          invariant min <= j <= max + 1
          invariant possiblePositions == GridPrefix(49 * (i - min) + 7 * (j - min))
        {
          var k := min;
          while k <= max
            invariant min <= k <= max + 1
            invariant possiblePositions == GridPrefix(49 * (i - min) + 7 * (j - min) + (k - min))
          {
            var position: Triplet := [i as real, j as real, k as real];
            GridPointOf(i - min, j - min, k - min);
            possiblePositions := possiblePositions + [position];
            k := k + 1;
          }
          j := j + 1;
        }
        i := i + 1;
      }
      possiblePositions := DifferenceWith(possiblePositions, forbiddenPositions);
      p := if |possiblePositions| > 0 then Some(possiblePositions[0]) else None;
    }
  }
}
