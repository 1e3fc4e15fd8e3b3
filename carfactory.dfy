/**
 * CarFactory: builds the car for a start position. The image comes from a
 * table fixed on the first call, human cars get the default physics scaled
 * by the difficulty profile, and computer cars additionally get random
 * factors between 0.8 and 1.2. rand() results, the game's player setup and
 * the difficulty profile are parameters.
 */
module CarFactory {
  import opened Wrappers

  const DefaultPower: real := 200000.0
  const AirDensity: real := 1.25
  const FormFactor: real := 0.25
  const CrossSection: real := 1.8
  const DefaultQuadraticDrag: real := AirDensity * FormFactor * CrossSection / 2.0
  const DefaultFriction: real := 0.60
  const DefaultImage: string := "carYellow"

  /** The images of the last ten positions, from the last one backwards. */
  const LastTen: seq<string> := ["carBlack", "carOrange", "carRed", "carBlue", "carDarkGreen",
                                  "carBrown", "carCyan", "carViolet", "carGreen", "carDarkRed"]

  /**
   * The static image table's lookup for a given NUM_CARS. The table is a
   * std::map built from an initialiser list, which does not insert an
   * entry whose key is already present: a lookup finds the first entry
   * with its key in initialiser order, and positions without an entry get
   * yellow.
   */
  function CarImage(numCars: int, index: int): (image: string)
    ensures 0 <= numCars - 1 - index < 10 ==> image == LastTen[numCars - 1 - index]
    ensures !(0 <= numCars - 1 - index < 10) && index == 1 ==> image == "carGrey"
    ensures !(0 <= numCars - 1 - index < 10) && index == 0 ==> image == "carPink"
    ensures image == DefaultImage <==> index != 0 && index != 1 && !(numCars - 10 <= index < numCars)
  {
    if index == numCars - 1 then "carBlack"
    else if index == numCars - 2 then "carOrange"
    else if index == numCars - 3 then "carRed"
    else if index == numCars - 4 then "carBlue"
    else if index == numCars - 5 then "carDarkGreen"
    else if index == numCars - 6 then "carBrown"
    else if index == numCars - 7 then "carCyan"
    else if index == numCars - 8 then "carViolet"
    else if index == numCars - 9 then "carGreen"
    else if index == numCars - 10 then "carDarkRed"
    else if index == 1 then "carGrey"
    else if index == 0 then "carPink"
    else DefaultImage
  }

  /**
   * With twelve or more cars the first two positions are pink and grey,
   * the last ten have their own colours, and every position in between
   * is yellow.
   */
  lemma ImagesWithEnoughCars(numCars: int, index: int)
    requires numCars >= 12
    ensures CarImage(numCars, 0) == "carPink" && CarImage(numCars, 1) == "carGrey"
    ensures CarImage(numCars, numCars - 1) == "carBlack" && CarImage(numCars, numCars - 10) == "carDarkRed"
    ensures CarImage(numCars, index) == DefaultImage <==> index != 0 && index != 1 && !(numCars - 10 <= index < numCars)
  {
  }

  /** With eleven cars the dark red entry takes key 1 first, so position 1 is not grey. */
  lemma ElevenCarsShadowGrey()
    ensures CarImage(11, 1) == "carDarkRed"
    ensures CarImage(11, 0) == "carPink"
  {
  }

  /**
   * randomFactor for a rand() result r: one of the 1001 evenly spaced
   * values from `from` to `to`.
   */
  function RandomFactor(r: nat, from: real, to: real): (f: real)
    ensures r % 1001 == 0 ==> f == from
    ensures r % 1001 == 1000 ==> f == to
  {
    (r % 1001) as real / 1000.0 * (to - from) + from
  }

  /** For from <= to every factor lies between the bounds. */
  lemma RandomFactorInRange(r: nat, from: real, to: real)
    requires from <= to
    ensures from <= RandomFactor(r, from, to) <= to
  {
    var k := r % 1001;
    assert 0 <= k <= 1000;
    var step, span := k as real / 1000.0, to - from;
    FractionOfSpan(step, span);
    assert RandomFactor(r, from, to) == step * span + from;
    assert step * span + from <= span + from == to;
  }

  lemma FractionOfSpan(step: real, span: real)
    requires 0.0 <= step <= 1.0 && span >= 0.0
    ensures 0.0 <= step * span <= span
  {
    assert span - step * span == (1.0 - step) * span;
  }

  /** The multipliers of the difficulty profile; the argument says whether the car is human. */
  datatype DifficultyProfile = DifficultyProfile(
    powerMultiplier: bool -> real,
    accelerationFrictionMultiplier: bool -> real)

  /** The parts of Car::Description that the factory sets. */
  datatype Description = Description(power: real, dragQuadratic: real, accelerationFriction: real)

  datatype BuiltCar = BuiltCar(desc: Description, image: string, index: int, isHuman: bool)

  /** Position 0 is always human; position 1 is human only in a two-player game. */
  predicate HumanSlot(index: int, hasTwoHumanPlayers: bool) {
    index == 0 || (index == 1 && hasTwoHumanPlayers)
  }

  /** The three rand() results a computer car consumes, in call order. */
  datatype Draws = Draws(power: nat, friction: nat, drag: nat)

  /** The car buildCar returns, given the table size fixed on the first call. */
  function Build(numCarsFixed: int, index: int, hasTwoHumanPlayers: bool, hasComputerPlayers: bool,
                 profile: DifficultyProfile, draws: Draws): (car: Option<BuiltCar>)
    ensures HumanSlot(index, hasTwoHumanPlayers) ==> car.Some? && car.value.isHuman
    ensures !HumanSlot(index, hasTwoHumanPlayers) ==> (car.Some? <==> hasComputerPlayers)
    ensures car.Some? ==> car.value.index == index && car.value.image == CarImage(numCarsFixed, index)
  {
    var image := CarImage(numCarsFixed, index);
    if HumanSlot(index, hasTwoHumanPlayers) then
      var desc := Description(
        DefaultPower * profile.powerMultiplier(true),
        DefaultQuadraticDrag,
        DefaultFriction * profile.accelerationFrictionMultiplier(true));
      Some(BuiltCar(desc, image, index, true))
    else if hasComputerPlayers then
      var desc := Description(
        DefaultPower * profile.powerMultiplier(true) * RandomFactor(draws.power, 0.8, 1.2),
        DefaultQuadraticDrag * RandomFactor(draws.drag, 0.8, 1.2),
        DefaultFriction * RandomFactor(draws.friction, 0.8, 1.2) * profile.accelerationFrictionMultiplier(false));
      Some(BuiltCar(desc, image, index, false))
    else
      None
  }

  /** A human car's physics carries no random factor, and its drag is 1.25 * 0.25 * 1.8 / 2. */
  lemma HumanCarIsDeterministic(numCars: int, index: int, twoHumans: bool, computers: bool,
                                profile: DifficultyProfile, d1: Draws, d2: Draws)
    requires HumanSlot(index, twoHumans)
    ensures Build(numCars, index, twoHumans, computers, profile, d1).value.desc ==
            Build(numCars, index, twoHumans, computers, profile, d2).value.desc
    ensures Build(numCars, index, twoHumans, computers, profile, d1).value.desc.dragQuadratic == 0.28125
  {
  }

  /**
   * A computer car's power, friction and drag lie between 0.8 and 1.2 times
   * the values before the random factor, for non-negative profile multipliers.
   */
  lemma ComputerFactorsInRange(numCars: int, index: int, twoHumans: bool,
                               profile: DifficultyProfile, draws: Draws)
    requires !HumanSlot(index, twoHumans)
    requires profile.powerMultiplier(true) >= 0.0 && profile.accelerationFrictionMultiplier(false) >= 0.0
    ensures var car := Build(numCars, index, twoHumans, true, profile, draws).value;
            var power := DefaultPower * profile.powerMultiplier(true);
            var friction := DefaultFriction * profile.accelerationFrictionMultiplier(false);
            !car.isHuman &&
            0.8 * power <= car.desc.power <= 1.2 * power &&
            0.8 * friction <= car.desc.accelerationFriction <= 1.2 * friction &&
            0.8 * DefaultQuadraticDrag <= car.desc.dragQuadratic <= 1.2 * DefaultQuadraticDrag
  {
    var fp, ff, fd := RandomFactor(draws.power, 0.8, 1.2), RandomFactor(draws.friction, 0.8, 1.2),
                      RandomFactor(draws.drag, 0.8, 1.2);
    var am := profile.accelerationFrictionMultiplier(false);
    var car := Build(numCars, index, twoHumans, true, profile, draws).value;
    assert car.desc == Description(DefaultPower * profile.powerMultiplier(true) * fp,
                                   DefaultQuadraticDrag * fd, DefaultFriction * ff * am);
    RandomFactorInRange(draws.power, 0.8, 1.2);
    RandomFactorInRange(draws.friction, 0.8, 1.2);
    RandomFactorInRange(draws.drag, 0.8, 1.2);
    DescriptionBetween(DefaultPower * profile.powerMultiplier(true), am, fp, ff, fd);
  }

  /** A computer car's description, given factors in [0.8, 1.2], lies within 20% of the undrawn values. */
  lemma DescriptionBetween(power: real, am: real, fp: real, ff: real, fd: real)
    requires power >= 0.0 && am >= 0.0
    requires 0.8 <= fp <= 1.2 && 0.8 <= ff <= 1.2 && 0.8 <= fd <= 1.2
    ensures var d := Description(power * fp, DefaultQuadraticDrag * fd, DefaultFriction * ff * am);
            0.8 * power <= d.power <= 1.2 * power &&
            0.8 * (DefaultFriction * am) <= d.accelerationFriction <= 1.2 * (DefaultFriction * am) &&
            0.8 * DefaultQuadraticDrag <= d.dragQuadratic <= 1.2 * DefaultQuadraticDrag
  {
    ScaledBetween(power, fp);
    ScaledBetween(DefaultQuadraticDrag, fd);
    ReorderedBetween(DefaultFriction, am, ff);
  }

  /** The friction product, taken in the source's order, lies between 0.8 and 1.2 times base * m. */
  lemma ReorderedBetween(base: real, m: real, f: real)
    requires base * m >= 0.0 && 0.8 <= f <= 1.2
    ensures 0.8 * (base * m) <= base * f * m <= 1.2 * (base * m)
  {
    assert base * f * m == (base * m) * f;
    ScaledBetween(base * m, f);
  }

  lemma ScaledBetween(base: real, f: real)
    requires base >= 0.0 && 0.8 <= f <= 1.2
    ensures 0.8 * base <= base * f <= 1.2 * base
  {
    assert base * f - 0.8 * base == base * (f - 0.8);
    assert 1.2 * base - base * f == base * (1.2 - f);
  }

  /** The factory's static state: the car count fixed by the first call. */
  class Factory {
    var numCarsFixed: Option<int>

    constructor ()
      ensures numCarsFixed == None
    {
      numCarsFixed := None;
    }

    /** buildCar: fixes NUM_CARS on the first call and ignores later counts. */
    method BuildCar(index: int, numCars: int, hasTwoHumanPlayers: bool, hasComputerPlayers: bool,
                    profile: DifficultyProfile, draws: Draws) returns (car: Option<BuiltCar>)
      modifies this
      ensures numCarsFixed == Some(old(numCarsFixed).GetOr(numCars))
      ensures car == Build(numCarsFixed.value, index, hasTwoHumanPlayers, hasComputerPlayers, profile, draws)
    {
      if numCarsFixed.None? {
        numCarsFixed := Some(numCars);
      }
      car := Build(numCarsFixed.value, index, hasTwoHumanPlayers, hasComputerPlayers, profile, draws);
    }
  }
}
