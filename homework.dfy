/** The workout-statistics calculator: three training variants that derive
    distance, mean speed and spent calories from the measurements they are
    built with, the record that collects those statistics, and the
    dispatcher that builds a training from a sensor code and a data list.

    Every measurement is an exact `real`; a training never changes after it
    is built, so each variant is a constructor of one datatype and every
    statistic is a function over it. */
module Homework {
  import opened Wrappers

  // Class attributes of `Training`, shared by every variant.
  const M_IN_KM: real := 1000.0
  const LEN_STEP: real := 0.65
  const MIN_IN_H: real := 60.0

  // Class attributes of `Running`.
  const RUN_CALORIES_MEAN_SPEED_MULTIPLIER: real := 18.0
  const RUN_CALORIES_MEAN_SPEED_SHIFT: real := 1.79

  // Class attributes of `SportsWalking`.
  const WLK_CALORIES_WEIGHT_MULTIPLIER: real := 0.035
  const WLK_CALORIES_SPEED_HEIGHT_MULTIPLIER: real := 0.029
  const WLK_KMH_IN_MSEC: real := 0.278
  const WLK_CM_IN_M: real := 100.0

  // Class attributes of `Swimming` (its own step length overrides LEN_STEP).
  const SWM_LEN_STEP: real := 1.38
  const SWM_CALORIES_MEAN_SPEED_SHIFT: real := 1.1
  const SWM_CALORIES_WEIGHT_MULTIPLIER: real := 2.0

  /** One workout. `action` counts steps or strokes, `duration` is in hours,
      `weight` in kilograms, `height` in centimetres, `lengthPool` in metres
      and `countPool` counts pool lengths. */
  datatype Training =
    | Running(action: real, duration: real, weight: real)
    | SportsWalking(action: real, duration: real, weight: real, height: real)
    | Swimming(action: real, duration: real, weight: real, lengthPool: real, countPool: real)

  /** The statistics of one workout, as `show_training_info` collects them. */
  datatype InfoMessage = InfoMessage(
    trainingType: string,
    duration: real,
    distance: real,
    speed: real,
    calories: real)

  /** The variant a dispatch code stands for: a value of the dispatcher's table. */
  datatype Kind = RunningKind | SportsWalkingKind | SwimmingKind

  /** The two ways `read_package` fails: a code missing from its table (the
      `ValueError`), and a data list whose length does not match the
      constructor's parameters (the `TypeError` of the call with `*data`). */
  datatype Error =
    | UnknownTrainingType
    | WrongArgumentCount(expected: nat, given: nat)

  /** The dispatcher's table, from sensor code to training variant. */
  const TRAINING_DEFF: map<string, Kind> :=
    map["RUN" := RunningKind, "WLK" := SportsWalkingKind, "SWM" := SwimmingKind]

  function KindOf(t: Training): (k: Kind) {
    match t
    case Running(_, _, _) => RunningKind
    case SportsWalking(_, _, _, _) => SportsWalkingKind
    case Swimming(_, _, _, _, _) => SwimmingKind
  }

  /** The number of constructor parameters of each variant. */
  function Arity(k: Kind): (n: nat)
    ensures forall t: Training | KindOf(t) == k :: |Fields(t)| == n
  {
    match k
    case RunningKind => 3
    case SportsWalkingKind => 4
    case SwimmingKind => 5
  }

  /** The class name each variant reports as its training type. */
  function TypeName(k: Kind): (name: string) {
    match k
    case RunningKind => "Running"
    case SportsWalkingKind => "SportsWalking"
    case SwimmingKind => "Swimming"
  }

  /** The constructor arguments of a training, in positional order. */
  function Fields(t: Training): (fields: seq<real>) {
    match t
    case Running(a, d, w) => [a, d, w]
    case SportsWalking(a, d, w, h) => [a, d, w, h]
    case Swimming(a, d, w, l, c) => [a, d, w, l, c]
  }

  /** The divisors every statistic of `t` divides by are non-zero: the
      duration always, and the height for walking. Python raises
      ZeroDivisionError otherwise. */
  predicate Computable(t: Training) {
    t.duration != 0.0 && (t.SportsWalking? ==> t.height != 0.0)
  }

  /** Distance in kilometres: actions times the variant's step length. */
  function GetDistance(t: Training): (r: real)
    ensures r * M_IN_KM == t.action * (if t.Swimming? then SWM_LEN_STEP else LEN_STEP)
  {
    match t
    case Swimming(a, _, _, _, _) => a * SWM_LEN_STEP / M_IN_KM
    case _ => t.action * LEN_STEP / M_IN_KM
  }

  /** Mean speed in km/h. Running and walking divide the distance by the
      duration; swimming divides the pool distance instead. */
  function GetMeanSpeed(t: Training): (r: real)
    requires t.duration != 0.0
    ensures !t.Swimming? ==> r * t.duration == GetDistance(t)
    ensures t.Swimming? ==> r * t.duration * M_IN_KM == t.lengthPool * t.countPool
  {
    match t
    case Swimming(_, d, _, l, c) => l * c / M_IN_KM / d
    case _ => GetDistance(t) / t.duration
  }

  /** Calories per kilogram of body weight, written directly in the raw
      measurements of each variant: the speed expanded and the constants
      multiplied out. */
  function CaloriesPerKg(t: Training): (r: real)
    requires Computable(t)
  {
    match t
    case Running(a, d, _) => 0.000702 * a + 0.1074 * d
    case SportsWalking(a, d, _, h) => 2.1 * d + 0.00000568153326 * a * a / (d * h)
    case Swimming(_, d, _, l, c) => 0.002 * l * c + 2.2 * d
  }

  /** Calories spent, by the variant's own formula. Each formula is the
      athlete's weight times the calories per kilogram. */
  function GetSpentCalories(t: Training): (r: real)
    requires Computable(t)
    ensures r == t.weight * CaloriesPerKg(t)
  {
    match t
    case Running(_, _, _) => RunningCaloriesPerKg(t); RunningCalories(t)
    case SportsWalking(_, _, _, _) => WalkingCaloriesPerKg(t); WalkingCalories(t)
    case Swimming(_, _, _, _, _) => SwimmingCaloriesPerKg(t); SwimmingCalories(t)
  }

  /** `Running.get_spent_calories`. */
  function RunningCalories(t: Training): real
    requires t.Running? && t.duration != 0.0
  {
    (RUN_CALORIES_MEAN_SPEED_MULTIPLIER * GetMeanSpeed(t) + RUN_CALORIES_MEAN_SPEED_SHIFT)
      * t.weight / M_IN_KM * t.duration * MIN_IN_H
  }

  /** `SportsWalking.get_spent_calories`. */
  function WalkingCalories(t: Training): real
    requires t.SportsWalking? && Computable(t)
  {
    var ms := GetMeanSpeed(t) * WLK_KMH_IN_MSEC;
    (WLK_CALORIES_WEIGHT_MULTIPLIER * t.weight
      + ms * ms / (t.height / WLK_CM_IN_M) * WLK_CALORIES_SPEED_HEIGHT_MULTIPLIER * t.weight)
      * t.duration * MIN_IN_H
  }

  /** `Swimming.get_spent_calories`. */
  function SwimmingCalories(t: Training): real
    requires t.Swimming? && t.duration != 0.0
  {
    (GetMeanSpeed(t) + SWM_CALORIES_MEAN_SPEED_SHIFT) * SWM_CALORIES_WEIGHT_MULTIPLIER
      * t.weight * t.duration
  }

  // Each variant's formula, with the speed expanded, is the weight times the
  // calories per kilogram.

  lemma RunningCaloriesPerKg(t: Training)
    requires t.Running? && t.duration != 0.0
    ensures RunningCalories(t) == t.weight * CaloriesPerKg(t)
  {
  }

  lemma WalkingCaloriesPerKg(t: Training)
    requires t.SportsWalking? && Computable(t)
    ensures WalkingCalories(t) == t.weight * CaloriesPerKg(t)
  {
  }

  lemma SwimmingCaloriesPerKg(t: Training)
    requires t.Swimming? && t.duration != 0.0
    ensures SwimmingCalories(t) == t.weight * CaloriesPerKg(t)
  {
  }

  /** The record of a training's statistics. */
  function ShowTrainingInfo(t: Training): (m: InfoMessage)
    requires Computable(t)
    ensures m.trainingType == TypeName(KindOf(t))
    ensures m.duration == t.duration
    ensures m.distance == GetDistance(t)
    ensures m.speed == GetMeanSpeed(t)
    ensures m.calories == GetSpentCalories(t)
  {
    InfoMessage(TypeName(KindOf(t)), t.duration, GetDistance(t), GetMeanSpeed(t), GetSpentCalories(t))
  }

  /** Calls the variant's constructor with `data` as its positional arguments. */
  function Construct(k: Kind, data: seq<real>): (r: Result<Training, Error>)
    ensures r.Ok? <==> |data| == Arity(k)
    ensures r.Ok? ==> KindOf(r.value) == k && Fields(r.value) == data
    ensures r.Err? ==> r.error == WrongArgumentCount(Arity(k), |data|)
  {
    if |data| != Arity(k) then Err(WrongArgumentCount(Arity(k), |data|))
    else
      match k
      case RunningKind => Ok(Running(data[0], data[1], data[2]))
      case SportsWalkingKind => Ok(SportsWalking(data[0], data[1], data[2], data[3]))
      case SwimmingKind => Ok(Swimming(data[0], data[1], data[2], data[3], data[4]))
  }

  /** Builds the training a sensor code names from the sensor's data list. */
  function ReadPackage(trainingType: string, data: seq<real>): (r: Result<Training, Error>)
    ensures trainingType !in TRAINING_DEFF ==> r == Err(UnknownTrainingType)
    ensures trainingType in TRAINING_DEFF ==>
      (r.Ok? <==> |data| == Arity(TRAINING_DEFF[trainingType]))
    ensures trainingType in TRAINING_DEFF ==> r == Construct(TRAINING_DEFF[trainingType], data)
    ensures r.Ok? ==>
      trainingType in TRAINING_DEFF
      && KindOf(r.value) == TRAINING_DEFF[trainingType]
      && Fields(r.value) == data
  {
    if trainingType in TRAINING_DEFF then Construct(TRAINING_DEFF[trainingType], data)
    else Err(UnknownTrainingType)
  }
}
