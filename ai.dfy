/**
 * The computer player's controller (AI): each update it steers the car
 * toward the current target node of the route and chooses accelerator and
 * brake from the speed and the tile under the car. The route, the tile
 * lookup, atan2 in degrees and the random tolerance vector are parameters.
 */
module Ai {
  import opened Geometry
  import opened Wrappers

  /**
   * The car's current angle as used by the steering: its integer angle
   * modulo 360 with C++'s `%`, which truncates toward zero so that the
   * remainder takes the sign of the angle.
   */
  function CurrentAngle(carAngle: int): (cur: int)
    ensures -360 < cur < 360
    ensures carAngle >= 0 ==> cur >= 0
    ensures carAngle < 0 ==> cur <= 0
    ensures (carAngle - cur) % 360 == 0
    ensures 0 <= carAngle < 360 ==> cur == carAngle
  {
    if carAngle >= 0 then
      assert carAngle - carAngle % 360 == 360 * (carAngle / 360);
      carAngle % 360
    else
      var n := -carAngle;
      assert n - n % 360 == 360 * (n / 360);
      assert carAngle + n % 360 == -(360 * (n / 360));
      -(n % 360)
  }

  /** A whole number of full turns. */
  predicate WholeTurns(d: real) {
    (d / 360.0).Floor as real == d / 360.0
  }

  /** Full turns beyond the range [-180, 180]: bounds the normalisation. */
  function Excess(x: real): nat {
    if x > 180.0 then (x - 180.0).Floor + 1
    else if x < -180.0 then (-180.0 - x).Floor + 1
    else 0
  }

  lemma FloorShift(y: real, n: int)
    ensures (y + n as real).Floor == y.Floor + n
  {
  }

  /**
   * The angle difference brought into [-180, 180] by adding or removing
   * full turns; a difference already in range is kept.
   */
  function Wrap(x: real): (r: real)
    ensures -180.0 <= r <= 180.0
    ensures WholeTurns(x - r)
    ensures -180.0 <= x <= 180.0 ==> r == x
    decreases Excess(x)
  {
    if x > 180.0 then
      FloorShift(x - 180.0, -360);
      var r := Wrap(x - 360.0);
      FloorShift((x - 360.0 - r) / 360.0, 1);
      r
    else if x < -180.0 then
      FloorShift(-180.0 - x, -360);
      var r := Wrap(x + 360.0);
      FloorShift((x + 360.0 - r) / 360.0, -1);
      r
    else
      x
  }

  /** The normalisation loop of steerControl. */
  method NormaliseDiff(diff0: real) returns (diff: real)
    ensures diff == Wrap(diff0)
    ensures -180.0 <= diff <= 180.0
  {
    diff := diff0;
    var ok := false;
    while !ok
      invariant Wrap(diff) == Wrap(diff0)
      invariant ok ==> diff == Wrap(diff)
      decreases !ok, Excess(diff)
    {
      if diff > 180.0 {
        FloorShift(diff - 180.0, -360);
        diff := diff - 360.0;
        ok := false;
      } else if diff < -180.0 {
        FloorShift(-180.0 - diff, -360);
        diff := diff + 360.0;
        ok := false;
      } else {
        ok := true;
      }
    }
  }

  const MaxControl: real := 1.5
  const MaxDelta: real := 3.0

  function Abs(x: real): real { if x < 0.0 then -x else x }

  /** The steering strength: the PID output's magnitude, capped at 1.5. */
  function Control(diff: real, lastDiff: real): (c: real)
    ensures 0.0 <= c <= MaxControl
    ensures c <= Abs(diff * 0.025 + (diff - lastDiff) * 0.025)
    ensures c == MaxControl || c == Abs(diff * 0.025 + (diff - lastDiff) * 0.025)
  {
    var control := diff * 0.025 + (diff - lastDiff) * 0.025;
    var control' := if control < 0.0 then -control else control;
    if control' > MaxControl then MaxControl else control'
  }

  datatype Steer = Left | Right

  /** Which way steerControl steers: none inside the dead band [-3, 3]. */
  function SteerDirection(diff: real): (s: Option<Steer>)
    ensures s == Some(Right) <==> diff < -MaxDelta
    ensures s == Some(Left) <==> diff > MaxDelta
    ensures s == None <==> -MaxDelta <= diff <= MaxDelta
  {
    if diff < -MaxDelta then Some(Right)
    else if diff > MaxDelta then Some(Left)
    else None
  }

  datatype ComputerHint = NoHint | BrakeHint | BrakeHardHint

  datatype TileKind = Corner90 | Corner45Left | Corner45Right | OtherKind

  /** The parts of a race track tile that the speed control reads. */
  datatype TrackTile = TrackTile(hint: ComputerHint, kind: TileKind)

  const SpeedScale: real := 0.9

  /** TrackTileBase::TILE_W. */
  const TileWidth: real := 256.0

  /** Hints that ask for braking at the car's speed. */
  predicate WantsBrake(tile: TrackTile, absSpeed: real) {
    (tile.hint == BrakeHint && absSpeed > 14.0 * SpeedScale) ||
    (tile.hint == BrakeHardHint && absSpeed > 9.5 * SpeedScale)
  }

  /** Conditions that take the foot off the accelerator. */
  predicate LiftsOff(tile: TrackTile, absSpeed: real, isRaceCompleted: bool) {
    (tile.kind == Corner90 && absSpeed > 7.0 * SpeedScale) ||
    ((tile.kind == Corner45Left || tile.kind == Corner45Right) && absSpeed > 8.3 * SpeedScale) ||
    (isRaceCompleted && absSpeed > 5.0)
  }

  /** Below this speed a racing car always accelerates. */
  predicate Crawling(absSpeed: real, isRaceCompleted: bool) {
    !isRaceCompleted && absSpeed < 3.6 * SpeedScale
  }

  /**
   * The flags speedControl gives the car: never both; braking wins over
   * accelerating; a crawling car in a running race accelerates whatever
   * the tile.
   */
  method SpeedDecision(tile: TrackTile, absSpeed: real, isRaceCompleted: bool)
    returns (acceleratorEnabled: bool, brakeEnabled: bool)
    ensures !(acceleratorEnabled && brakeEnabled)
    ensures brakeEnabled <==> WantsBrake(tile, absSpeed) && !Crawling(absSpeed, isRaceCompleted)
    ensures acceleratorEnabled <==>
              !brakeEnabled && (!LiftsOff(tile, absSpeed, isRaceCompleted) || Crawling(absSpeed, isRaceCompleted))
    ensures Crawling(absSpeed, isRaceCompleted) ==> acceleratorEnabled && !brakeEnabled
  {
    var accelerate := true;
    var brake := false;

    if tile.hint == BrakeHint {
      if absSpeed > 14.0 * SpeedScale {
        brake := true;
      }
    }

    if tile.hint == BrakeHardHint {
      if absSpeed > 9.5 * SpeedScale {
        brake := true;
      }
    }

    if tile.kind == Corner90 {
      if absSpeed > 7.0 * SpeedScale {
        accelerate := false;
      }
    }

    if tile.kind == Corner45Left || tile.kind == Corner45Right {
      if absSpeed > 8.3 * SpeedScale {
        accelerate := false;
      }
    }

    if isRaceCompleted {
      if absSpeed > 5.0 {
        accelerate := false;
      }
    } else {
      if absSpeed < 3.6 * SpeedScale {
        accelerate := true;
        brake := false;
      }
    }

    if brake {
      acceleratorEnabled, brakeEnabled := false, true;
    } else if accelerate {
      acceleratorEnabled, brakeEnabled := true, false;
    } else {
      acceleratorEnabled, brakeEnabled := false, false;
    }
  }

  /** The angle difference before normalisation, for a target node location. */
  function HeadingError(target: Vec2, carLocation: Vec2, tolerance: Vec2, carAngle: int,
                        atan2Deg: (real, real) -> real): (e: real)
    ensures var aim := Sub(target, Add(carLocation, tolerance));
            -360.0 < atan2Deg(aim.j, aim.i) - e < 360.0
    ensures var aim := Sub(target, Add(carLocation, tolerance));
            0 <= carAngle < 360 ==> e == atan2Deg(aim.j, aim.i) - carAngle as real
    ensures var aim := Sub(target, Add(carLocation, tolerance));
            WholeTurns(carAngle as real - (atan2Deg(aim.j, aim.i) - e))
    ensures var aim := Sub(target, Add(carLocation, tolerance));
            (carAngle >= 0 ==> atan2Deg(aim.j, aim.i) - e >= 0.0) &&
            (carAngle < 0 ==> atan2Deg(aim.j, aim.i) - e <= 0.0)
  {
    var aim := Sub(target, Add(carLocation, tolerance));
    var cur := CurrentAngle(carAngle);
    CurrentAngleWholeTurns(carAngle);
    atan2Deg(aim.j, aim.i) - cur as real
  }

  /** The reduced angle differs from the car's angle by whole turns. */
  lemma CurrentAngleWholeTurns(carAngle: int)
    ensures WholeTurns(carAngle as real - CurrentAngle(carAngle) as real)
  {
    var cur := CurrentAngle(carAngle);
    var k := (carAngle - cur) / 360;
    assert carAngle - cur == 360 * k;
    TurnsAreWhole(k);
    assert carAngle as real - cur as real == (360 * k) as real;
  }

  /** k full turns, as a real, are whole turns. */
  lemma TurnsAreWhole(k: int)
    ensures WholeTurns((360 * k) as real)
  {
    assert (360 * k) as real / 360.0 == k as real;
  }

  datatype SteerCommand = SteerCommand(direction: Steer, control: real)

  /** The parts of the car that the controller reads and drives. */
  class Car {
    var angle: int
    var absSpeed: real
    var location: Vec2
    var currentTargetNodeIndex: int
    var acceleratorEnabled: bool
    var brakeEnabled: bool
    /** The steer calls the car has received, oldest first. */
    var steerCalls: seq<SteerCommand>

    constructor (a: int, speed: real, loc: Vec2, target: int)
      ensures angle == a && absSpeed == speed && location == loc && currentTargetNodeIndex == target
      ensures !acceleratorEnabled && !brakeEnabled && steerCalls == []
    {
      angle, absSpeed, location, currentTargetNodeIndex := a, speed, loc, target;
      acceleratorEnabled, brakeEnabled, steerCalls := false, false, [];
    }

    method Steer(direction: Steer, control: real)
      modifies this
      ensures steerCalls == old(steerCalls) + [SteerCommand(direction, control)]
      ensures angle == old(angle) && absSpeed == old(absSpeed) && location == old(location)
      ensures currentTargetNodeIndex == old(currentTargetNodeIndex)
      ensures acceleratorEnabled == old(acceleratorEnabled) && brakeEnabled == old(brakeEnabled)
    {
      steerCalls := steerCalls + [SteerCommand(direction, control)];
    }
  }

  class AI {
    const car: Car
    var hasTrack: bool
    var lastDiff: real
    var lastTargetNodeIndex: int
    var randomTolerance: Vec2

    constructor (c: Car)
      ensures car == c && !hasTrack && lastDiff == 0.0 && lastTargetNodeIndex == 0
    {
      car := c;
      hasTrack := false;
      lastDiff := 0.0;
      lastTargetNodeIndex := 0;
      randomTolerance := Vec2(0.0, 0.0);
    }

    method SetTrack()
      modifies this
      ensures hasTrack
      ensures lastDiff == old(lastDiff) && lastTargetNodeIndex == old(lastTargetNodeIndex)
      ensures randomTolerance == old(randomTolerance)
    {
      hasTrack := true;
    }

    /** setRandomTolerance: a random vector scaled by an eighth of the tile width. */
    method SetRandomTolerance(randomVector: Vec2)
      modifies this
      ensures randomTolerance == Scale(randomVector, TileWidth / 8.0)
      ensures hasTrack == old(hasTrack) && lastDiff == old(lastDiff) && lastTargetNodeIndex == old(lastTargetNodeIndex)
    {
      randomTolerance := Scale(randomVector, TileWidth / 8.0);
    }

    /**
     * steerControl: steer toward the target unless the normalised
     * difference lies in the dead band, then remember that difference.
     */
    method SteerControl(target: Vec2, atan2Deg: (real, real) -> real)
      modifies this, car
      ensures var diff := Wrap(HeadingError(target, old(car.location), old(randomTolerance), old(car.angle), atan2Deg));
              lastDiff == diff &&
              car.steerCalls == old(car.steerCalls) +
                (match SteerDirection(diff)
                 case None => []
                 case Some(d) => [SteerCommand(d, Control(diff, old(lastDiff)))])
      ensures -180.0 <= lastDiff <= 180.0
      ensures hasTrack == old(hasTrack) && lastTargetNodeIndex == old(lastTargetNodeIndex)
      ensures randomTolerance == old(randomTolerance)
      ensures car.angle == old(car.angle) && car.absSpeed == old(car.absSpeed) && car.location == old(car.location)
      ensures car.currentTargetNodeIndex == old(car.currentTargetNodeIndex)
      ensures car.acceleratorEnabled == old(car.acceleratorEnabled) && car.brakeEnabled == old(car.brakeEnabled)
    {
      var aim := Sub(target, Add(car.location, randomTolerance));
      var angle := atan2Deg(aim.j, aim.i);
      var cur := CurrentAngle(car.angle) as real;
      var diff := NormaliseDiff(angle - cur);

      var control := Control(diff, lastDiff);

      if diff < -MaxDelta {
        car.Steer(Right, control);
      } else if diff > MaxDelta {
        car.Steer(Left, control);
      }

      lastDiff := diff;
    }

    /** speedControl: set the car's accelerator and brake from the decision table. */
    method SpeedControl(tile: TrackTile, isRaceCompleted: bool)
      modifies car
      ensures !(car.acceleratorEnabled && car.brakeEnabled)
      ensures car.brakeEnabled <==> WantsBrake(tile, old(car.absSpeed)) && !Crawling(old(car.absSpeed), isRaceCompleted)
      ensures car.acceleratorEnabled <==>
                !car.brakeEnabled &&
                (!LiftsOff(tile, old(car.absSpeed), isRaceCompleted) || Crawling(old(car.absSpeed), isRaceCompleted))
      ensures car.angle == old(car.angle) && car.absSpeed == old(car.absSpeed) && car.location == old(car.location)
      ensures car.currentTargetNodeIndex == old(car.currentTargetNodeIndex) && car.steerCalls == old(car.steerCalls)
    {
      var accelerate, brake := SpeedDecision(tile, car.absSpeed, isRaceCompleted);
      car.acceleratorEnabled := accelerate;
      car.brakeEnabled := brake;
    }

    /**
     * update: nothing without a track. Otherwise a new tolerance is drawn
     * only when the target node changed, the car is steered and its speed
     * controlled, and the target node index is remembered.
     */
    method Update(isRaceCompleted: bool, randomVector: Vec2, route: int -> Vec2,
                  atan2Deg: (real, real) -> real, tileAt: Vec2 -> TrackTile)
      modifies this, car
      ensures !old(hasTrack) ==> unchanged(this) && unchanged(car)
      ensures old(hasTrack) ==>
                randomTolerance == (if old(lastTargetNodeIndex) != old(car.currentTargetNodeIndex)
                                    then Scale(randomVector, TileWidth / 8.0) else old(randomTolerance))
      ensures old(hasTrack) ==> lastTargetNodeIndex == old(car.currentTargetNodeIndex)
      ensures old(hasTrack) ==>
                lastDiff == Wrap(HeadingError(route(old(car.currentTargetNodeIndex)), old(car.location),
                                              randomTolerance, old(car.angle), atan2Deg))
      ensures old(hasTrack) ==>
                (car.brakeEnabled <==> WantsBrake(tileAt(old(car.location)), old(car.absSpeed)) &&
                                       !Crawling(old(car.absSpeed), isRaceCompleted))
      ensures old(hasTrack) ==>
                car.steerCalls == old(car.steerCalls) +
                  (match SteerDirection(lastDiff)
                   case None => []
                   case Some(d) => [SteerCommand(d, Control(lastDiff, old(lastDiff)))])
      ensures old(hasTrack) ==>
                (car.acceleratorEnabled <==>
                   !car.brakeEnabled &&
                   (!LiftsOff(tileAt(old(car.location)), old(car.absSpeed), isRaceCompleted) ||
                    Crawling(old(car.absSpeed), isRaceCompleted)))
      ensures !(car.acceleratorEnabled && car.brakeEnabled) || !old(hasTrack)
      ensures car.angle == old(car.angle) && car.absSpeed == old(car.absSpeed) && car.location == old(car.location)
      ensures car.currentTargetNodeIndex == old(car.currentTargetNodeIndex)
      ensures hasTrack == old(hasTrack)
    {
      if hasTrack {
        if lastTargetNodeIndex != car.currentTargetNodeIndex {
          SetRandomTolerance(randomVector);
        }

        SteerControl(route(car.currentTargetNodeIndex), atan2Deg);

        SpeedControl(tileAt(car.location), isRaceCompleted);

        lastTargetNodeIndex := car.currentTargetNodeIndex;
      }
    }
  }
}
