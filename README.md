# Workout statistics calculator

A Dafny model of the fitness-tracker module `homework.py`. A sensor sends a
short code (`"RUN"`, `"WLK"`, `"SWM"`) and a list of numbers. The dispatcher
`read_package` turns them into a `Running`, `SportsWalking` or `Swimming`
training. Each training derives three statistics from the measurements it was
built with:

- the distance in km (actions times the step length, 0.65 m or 1.38 m for a
  swimming stroke, over 1000),
- the mean speed in km/h,
- the calories spent, with one hard-coded formula per variant.

`show_training_info` collects these into an `InfoMessage` record.

A training never changes after it is built. So the model is pure:

- `Homework.Training` is a datatype with one constructor per variant.
- Every statistic is a function that matches on it.
- `read_package` returns a `Result`: the training, or one of its two errors.
- Every number is an exact `real`.

Files:

- `wrappers.dfy`: the `Result` type.
- `homework.dfy`: the module's constants, datatypes and operations.
- `homework_properties.dfy`: what is proved about them.

The proved properties are:

- each calorie formula equals the weight times a closed form in the raw
  measurements, on every input with a non-zero duration (and height, for
  walking);
- calories scale with the athlete's weight and are positive for physical inputs;
- swimming speed does not depend on the stroke count;
- `read_package` accepts exactly the three codes and exactly the right arity,
  and it inverts the positional layout of a training's fields (a round trip);
- the three sample packages of the program's entry point give the stated
  statistics.

Modelling choices:

- The running calories add the shift 1.79 (homework.py:71-72).
- The walking calories convert the speed to m/s with the factor 0.278 and
  divide by the height in metres with real division (homework.py:96-102).
- The swimming calories are multiplied by the duration (homework.py:129-132).
- Python raises `ZeroDivisionError` when the duration is 0, or when the
  height of a walk is 0. The model makes these divisors a precondition,
  `Homework.Computable`. A negative duration divides without error in Python,
  so the model does not require positivity.
- `read_package` passes `data` positionally with no conversion. Python ints
  and floats take part in the same arithmetic, so the model types the list
  as `seq<real>` and every field as `real`.

## Model

| member | source | states |
|---|---|---|
| Homework.GetDistance | homework.py:40-42 | distance times 1000 is the action count times the step length, 1.38 m for swimming and 0.65 m (the base class constant) otherwise |
| HomeworkProperties.DistanceByVariant | homework.py:108-135 | running and walking distance is action × 0.65 / 1000; the overriding swimming distance is action × 1.38 / 1000 |
| Homework.GetMeanSpeed | homework.py:44-46 | for running and walking, speed times duration gives back the distance; for swimming, speed times duration times 1000 is pool length times pool count |
| HomeworkProperties.MeanSpeedIsDistancePerHour | homework.py:44-46 | running and walking speed is action × 0.65 / 1000 / duration |
| HomeworkProperties.SwimmingSpeedIgnoresAction | homework.py:125-127 | swimming speed is length_pool × count_pool / 1000 / duration and is unchanged when only the stroke count changes |
| Homework.RunningCaloriesPerKg | homework.py:62-75 | `Running.get_spent_calories`, (18 × speed + 1.79) × weight / 1000 × duration × 60, equals weight × (0.000702 × action + 0.1074 × duration), the running case of `CaloriesPerKg` |
| Homework.WalkingCaloriesPerKg | homework.py:78-102 | `SportsWalking.get_spent_calories`, (0.035 × weight + (0.278 × speed)² / (height / 100) × 0.029 × weight) × duration × 60, equals weight × (2.1 × duration + 0.00000568153326 × action² / (duration × height)) |
| Homework.SwimmingCaloriesPerKg | homework.py:105-132 | `Swimming.get_spent_calories`, (speed + 1.1) × 2 × weight × duration, equals weight × (0.002 × length_pool × count_pool + 2.2 × duration), so the stroke count plays no part |
| Homework.GetSpentCalories | homework.py:70-132 | the overriding formula of each variant, defined whenever `Computable` holds (non-zero duration, and non-zero height for walking, the divisors Python would raise ZeroDivisionError on), equals the weight times the calories per kilogram `CaloriesPerKg` |
| HomeworkProperties.CaloriesPerKgIgnoresWeight | homework.py:70-132 | the calories per kilogram do not depend on the weight |
| HomeworkProperties.CaloriesProportionalToWeight | homework.py:70-132 | scaling the weight by k scales every variant's calories by k |
| HomeworkProperties.CaloriesPositive | homework.py:70-132 | non-negative actions, pool lengths and pool counts, with positive duration, weight and height, give positive calories |
| Homework.ShowTrainingInfo | homework.py:52-59 | the record carries the variant's class name, the training's own duration, and exactly its distance, mean speed and calories |
| HomeworkProperties.InfoSpeedTimesDuration | homework.py:52-59 | for running and walking, the record's speed times its duration is its distance |
| HomeworkProperties.TypeNameInjective | homework.py:54 | the class names in the record tell the three variants apart |
| Homework.Arity | homework.py:31-35 | each variant's constructor takes as many positional parameters as the training has fields: 3 for `Training.__init__`, 4 for `SportsWalking.__init__` (homework.py:87-92), 5 for `Swimming.__init__` (homework.py:114-120) |
| Homework.Construct | homework.py:146 | calling a variant with `*data` succeeds exactly when the list length is the variant's arity; it builds that variant with fields in positional order, and otherwise fails with the expected and given counts |
| Homework.ReadPackage | homework.py:138-147 | a code missing from the table `TRAINING_DEFF` (homework.py:141-144) fails with the unknown-type error; a known code gives exactly what calling its variant with `*data` gives, so it succeeds exactly when the arity matches, building the table's variant with `data` as its fields |
| HomeworkProperties.Code | homework.py:141-144 | each variant has a code in the dispatcher's table that maps back to it |
| HomeworkProperties.ReadPackageRoundTrip | homework.py:138-147 | dispatching a training's own code with its own fields rebuilds the same training |
| HomeworkProperties.ReadPackageInjective | homework.py:138-147 | two successful dispatches that build the same training had the same code and the same data list |
| HomeworkProperties.ReadPackageKnownCodes | homework.py:141-147 | the unknown-type error occurs exactly for codes other than "RUN", "WLK" and "SWM" |
| HomeworkProperties.SwimmingSample | homework.py:158 | SWM [720, 1, 80, 25, 40] gives Swimming, duration 1, distance 0.9936, speed 1, calories 336 |
| HomeworkProperties.RunningSample | homework.py:159 | RUN [15000, 1, 75] gives Running, duration 1, distance 9.75, speed 9.75, calories 797.805 |
| HomeworkProperties.WalkingSample | homework.py:160 | WLK [9000, 1, 75, 180] gives SportsWalking, duration 1, distance 5.85, speed 5.85, calories 349.251747525 |
| HomeworkProperties.UnknownCodeSample | homework.py:145-147 | codes outside the table, such as "BIKE" or lower-case "run", fail with the unknown-type error, even with a list of the right length |
| HomeworkProperties.ReadPackageWrongArgumentCount | homework.py:145-146 | every known code with a list of the wrong length fails with the variant's arity and the list's length |
| HomeworkProperties.WrongArgumentCountSample | homework.py:146 | examples: RUN with four values fails with (3, 4), SWM with three values with (5, 3) |

## Left out

- `InfoMessage.get_message` (homework.py:15-21): rendering with `:.3f` is float rounding and string formatting. Only the record's fields are modelled.
- `main` and the `__main__` loop (homework.py:150-165): they only print to the console. Their three data lists appear only as the sample lemmas.
- IEEE-754 floating point: every quantity is an exact real, so the binary rounding of constants such as 0.278 or 1.38 is not modelled.
- The base `Training.get_spent_calories` (homework.py:48-50) returns `None`. The dispatcher never builds a base `Training`, so the model has no base variant.
- `type(self).__name__` (homework.py:54) becomes a fixed name per variant, `Homework.TypeName`.
- Python's `TypeError` message for a wrong argument count is reduced to the expected and the given count, `Homework.Error.WrongArgumentCount`. The `ValueError`'s fixed message is reduced to `Homework.Error.UnknownTrainingType`.
- A list element that is not a number would make Python fail inside the arithmetic. The model's data list holds only numbers.
- `ZeroDivisionError` is not modelled as a result. A zero duration or walking height is excluded by `Homework.Computable`, the precondition of the statistics.
