/** What the calculator promises: the calorie formulas in terms of the raw
    measurements, how the statistics scale and relate to each other, that
    the dispatcher inverts the positional data layout, and the three sample
    packages of the program's entry point. */
module HomeworkProperties {
  import opened Wrappers
  import opened Homework

  /** The sensor code the dispatcher's table holds for each variant. */
  function Code(k: Kind): (c: string)
    ensures c in TRAINING_DEFF && TRAINING_DEFF[c] == k
  {
    match k
    case RunningKind => "RUN"
    case SportsWalkingKind => "WLK"
    case SwimmingKind => "SWM"
  }

  /** The same training done by an athlete of weight `w`. */
  function WithWeight(t: Training, w: real): (u: Training)
    ensures KindOf(u) == KindOf(t) && Fields(u) == Fields(t)[2 := w]
    ensures u.weight == w && Computable(u) == Computable(t)
  {
    match t
    case Running(a, d, _) => Running(a, d, w)
    case SportsWalking(a, d, _, h) => SportsWalking(a, d, w, h)
    case Swimming(a, d, _, l, c) => Swimming(a, d, w, l, c)
  }

  // ---------------------------------------------------------------------
  // Distance and mean speed

  /** Running and walking share the 0.65 m step; swimming uses a 1.38 m stroke. */
  lemma DistanceByVariant(t: Training)
    ensures !t.Swimming? ==> GetDistance(t) == t.action * 0.65 / 1000.0
    ensures t.Swimming? ==> GetDistance(t) == t.action * 1.38 / 1000.0
  {
  }

  /** Running and walking speed is the distance covered per hour. */
  lemma MeanSpeedIsDistancePerHour(t: Training)
    requires !t.Swimming? && t.duration != 0.0
    ensures GetMeanSpeed(t) == t.action * 0.65 / 1000.0 / t.duration
  {
  }

  /** Swimming speed comes from the pool laps, never from the stroke count. */
  lemma SwimmingSpeedIgnoresAction(t: Training, strokes: real)
    requires t.Swimming? && t.duration != 0.0
    ensures GetMeanSpeed(Swimming(strokes, t.duration, t.weight, t.lengthPool, t.countPool))
      == GetMeanSpeed(t)
    ensures GetMeanSpeed(t) == t.lengthPool * t.countPool / 1000.0 / t.duration
  {
  }

  // ---------------------------------------------------------------------
  // Calories in terms of the raw measurements

  /** The calories per kilogram do not depend on the weight. */
  lemma CaloriesPerKgIgnoresWeight(t: Training, w: real)
    requires Computable(t)
    ensures CaloriesPerKg(WithWeight(t, w)) == CaloriesPerKg(t)
  {
  }

  /** Every variant's calories are proportional to the athlete's weight. */
  lemma CaloriesProportionalToWeight(t: Training, k: real)
    requires Computable(t)
    ensures GetSpentCalories(WithWeight(t, k * t.weight)) == k * GetSpentCalories(t)
  {
    var u := WithWeight(t, k * t.weight);
    CaloriesPerKgIgnoresWeight(t, k * t.weight);
    ScaledProduct(GetSpentCalories(u), GetSpentCalories(t), k, t.weight, CaloriesPerKg(t));
  }

  lemma ScaledProduct(scaled: real, base: real, k: real, w: real, p: real)
    requires scaled == (k * w) * p && base == w * p
    ensures scaled == k * base
  {
  }

  /** Physically meaningful measurements give a positive calorie count. */
  lemma CaloriesPositive(t: Training)
    requires t.action >= 0.0 && t.duration > 0.0 && t.weight > 0.0
    requires t.SportsWalking? ==> t.height > 0.0
    requires t.Swimming? ==> t.lengthPool >= 0.0 && t.countPool >= 0.0
    ensures GetSpentCalories(t) > 0.0
  {
  }

  // ---------------------------------------------------------------------
  // The statistics record

  /** The record's speed, times its duration, is its distance for running
      and walking. */
  lemma InfoSpeedTimesDuration(t: Training)
    requires Computable(t) && !t.Swimming?
    ensures ShowTrainingInfo(t).speed * ShowTrainingInfo(t).duration
      == ShowTrainingInfo(t).distance
  {
  }

  /** The training type in the record tells the variant apart. */
  lemma TypeNameInjective(k1: Kind, k2: Kind)
    ensures TypeName(k1) == TypeName(k2) <==> k1 == k2
  {
  }

  // ---------------------------------------------------------------------
  // The dispatcher

  /** Dispatching a training's own code and fields rebuilds that training. */
  lemma ReadPackageRoundTrip(t: Training)
    ensures ReadPackage(Code(KindOf(t)), Fields(t)) == Ok(t)
  {
    match t
    case Running(_, _, _) =>
    case SportsWalking(_, _, _, _) =>
    case Swimming(_, _, _, _, _) =>
  }

  /** A training comes out of the dispatcher from one code and one data list only. */
  lemma ReadPackageInjective(c1: string, d1: seq<real>, c2: string, d2: seq<real>)
    requires ReadPackage(c1, d1).Ok? && ReadPackage(c2, d2).Ok?
    requires ReadPackage(c1, d1).value == ReadPackage(c2, d2).value
    ensures c1 == c2 && d1 == d2
  {
  }

  /** The dispatcher accepts exactly the three codes of its table. */
  lemma ReadPackageKnownCodes(code: string, data: seq<real>)
    ensures ReadPackage(code, data) != Err(UnknownTrainingType)
      <==> code == "RUN" || code == "WLK" || code == "SWM"
  {
  }

  // ---------------------------------------------------------------------
  // The sample packages of the entry point

  lemma SwimmingSample()
    ensures ReadPackage("SWM", [720.0, 1.0, 80.0, 25.0, 40.0]).Ok?
    ensures ShowTrainingInfo(ReadPackage("SWM", [720.0, 1.0, 80.0, 25.0, 40.0]).value)
      == InfoMessage("Swimming", 1.0, 0.9936, 1.0, 336.0)
  {
  }

  lemma RunningSample()
    ensures ReadPackage("RUN", [15000.0, 1.0, 75.0]).Ok?
    ensures ShowTrainingInfo(ReadPackage("RUN", [15000.0, 1.0, 75.0]).value)
      == InfoMessage("Running", 1.0, 9.75, 9.75, 797.805)
  {
  }

  lemma WalkingSample()
    ensures ReadPackage("WLK", [9000.0, 1.0, 75.0, 180.0]).Ok?
    ensures ShowTrainingInfo(ReadPackage("WLK", [9000.0, 1.0, 75.0, 180.0]).value)
      == InfoMessage("SportsWalking", 1.0, 5.85, 5.85, 349.251747525)
  {
  }

  /** Codes outside the table fail before the data list is looked at. */
  lemma UnknownCodeSample()
    ensures ReadPackage("BIKE", [1.0, 1.0, 1.0]) == Err(UnknownTrainingType)
    ensures ReadPackage("run", []) == Err(UnknownTrainingType)
  {
  }

  /** A known code with a data list of the wrong length fails on the arity,
      reporting the variant's parameter count and the list's length. */
  lemma ReadPackageWrongArgumentCount(code: string, data: seq<real>)
    requires code in TRAINING_DEFF && |data| != Arity(TRAINING_DEFF[code])
    ensures ReadPackage(code, data) == Err(WrongArgumentCount(Arity(TRAINING_DEFF[code]), |data|))
  {
  }

  /** Two wrong-length lists for known codes. */
  lemma WrongArgumentCountSample()
    ensures ReadPackage("RUN", [15000.0, 1.0, 75.0, 180.0]) == Err(WrongArgumentCount(3, 4))
    ensures ReadPackage("SWM", [720.0, 1.0, 80.0]) == Err(WrongArgumentCount(5, 3))
  {
  }
}
