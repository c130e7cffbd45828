# Fitness tracker workouts, in Dafny

A model of the fitness tracker's `homework.py`: the workout hierarchy
(`Training` and its three variants `Running`, `SportsWalking` and `Swimming`),
the derived metrics every workout computes on demand (distance, mean speed,
duration in minutes, calories burned), the `InfoMessage` summary that
`show_training_info` builds, and the dispatcher `read_package` that turns a
workout code and a flat list of sensor numbers into a workout.

The code is pure, and so is the model:

- `trainings.dfy` (module `Trainings`): the constants of each class, the
  datatype `Training` with one constructor per concrete variant, and the
  metrics as functions. The abstract base class has no constructor. Its
  `raise NotImplementedError` calorie path therefore cannot be reached, and
  the model has no error case for it.
- `packages.dfy` (module `Packages`): the code registry `WORKOUTS`, the
  positional construction of a class from its arguments, and `ReadPackage`
  returning a `Result` whose errors are an unknown code and a wrong
  argument count.
- `info_message.dfy` (module `InfoMessages`): the `InfoMessage` record and
  `ShowTrainingInfo`.
- `samples.dfy` (module `Samples`): the three demo packages and two rejected
  packages, proved end to end.

Numbers are Dafny `real`s, so every formula is exact. The SportsWalking
calorie formula keeps the source's floor division
(`speed ** 2 // height`), modelled as `FloorDiv(a, b) = floor(a / b)`. It is
not replaced by real division. `WalkingCaloriesQuantization` compares it with
the same formula under real division (the ghost reference
`WalkingCaloriesUnfloored`): for a positive duration and weight, the floor
lowers the result, by less than `0.029 * weight * minutes`.

- For `("RUN", [15000, 1, 75])` the formula gives
  `(18 * 9.75 - 20) * 75 / 1000 * 60 = 699.75` kcal (`Samples.RunningSample`).
- The code fails only on a duration of exactly zero (division by zero), so the
  model requires `duration != 0`.

## Model

| member | source | states |
|---|---|---|
| `Trainings.WorkoutClass.Name` | homework.py:54 | the class name `self.__class__.__name__` of each concrete class; each of the three names belongs to exactly one class |
| `Trainings.WorkoutClass.ParamCount` | homework.py:30-110 | the positional parameter count of each class's constructor: the three base parameters, plus height for SportsWalking and pool length and lap count for Swimming (3, 4 and 5), distinct per class |
| `Trainings.CaloriesDefined` | homework.py:45-117 | the divisors of the metrics are non-zero: the second constructor argument (duration, lines 45 and 117) and, for SportsWalking, the fourth (height, line 93) |
| `Trainings.ClassOf` | homework.py:54 | each workout belongs to exactly the concrete class of its constructor; the report uses this class's name |
| `Trainings.Fields` | homework.py:30-113 | a workout's constructor arguments in declaration order: their count matches the class's constructor, and they start with action, duration, weight |
| `Trainings.StepLength` | homework.py:26-100 | LEN_STEP as each variant sees it (Swimming overrides 0.65 with 1.38) is positive |
| `Trainings.Distance` | homework.py:39-41 | distance in km times 1000 is action times the variant's step length; it is non-negative for a non-negative action and positive for a positive one |
| `Trainings.DurationToMin` | homework.py:60-62 | the minutes, divided by MIN_IN_HOUR = 60, give back the duration in hours; a positive duration gives positive minutes |
| `Trainings.MeanSpeed` | homework.py:43-45 | needs duration != 0; for Running and SportsWalking, speed times duration is the distance; for Swimming (override, lines 115-117), speed times duration times 1000 is length_pool times count_pool |
| `Trainings.SwimmingSpeedIgnoresAction` | homework.py:115-117 | two swims that differ only in stroke count have the same mean speed, and their distances are equal exactly when their stroke counts are |
| `Trainings.PowTwo` | homework.py:80-93 | with POWER = 2, `speed ** POWER` (the helper `Pow`, repeated multiplication) is the square of speed and never negative |
| `Trainings.FloorDiv` | homework.py:93 | `a // b` is a whole number q with q <= a / b < q + 1, which is the floor of the quotient |
| `Trainings.Calories` | homework.py:65-121 | needs duration != 0, and height != 0 for SportsWalking; Running calories times 1000 equal (18 * distance - 20 * duration) * weight * 60; Swimming calories times 1000 * duration equal (length_pool * count_pool + 1.1 * 1000 * duration) * 2 * weight |
| `Trainings.RunningCaloriesFromDistance` | homework.py:70-73 | Running's formula in terms of speed equals its form in terms of distance and duration |
| `Trainings.SwimmingCaloriesFromPool` | homework.py:119-121 | Swimming's formula `(speed + 1.1) * 2 * weight` equals its form in terms of pool length, lap count and duration |
| `Trainings.WalkingCaloriesBelowThreshold` | homework.py:91-95 | when speed squared is below the height, the floor term is 0 and SportsWalking calories are 0.035 * weight * duration * 60 |
| `Trainings.WalkingCaloriesQuantization` | homework.py:91-95 | for positive duration and weight and non-zero height, SportsWalking calories (floor division) are at most the same formula under real division (`WalkingCaloriesUnfloored`), and less than 0.029 * weight * minutes below it |
| `Packages.Construct` | homework.py:131 | calling a class with positional data succeeds exactly when the argument count matches its constructor; on success the workout has that class and those arguments in order; otherwise the error names the class, the expected count and the given count |
| `Packages.ReadPackage` | homework.py:124-131 | an unknown code fails with that code, whatever the data; success exactly when the code is registered and the count matches its class; on success the workout has the registered class and exactly the given arguments; a registered code with the wrong count fails with an arity mismatch naming the class, the expected count and the given count |
| `Packages.CodeSelectsVariant` | homework.py:126-131 | SWM gives Swimming, RUN gives Running and WLK gives SportsWalking, each succeeding exactly for 5, 3 and 4 arguments; every other code is refused |
| `Packages.ReadPackageRoundTrip` | homework.py:124-131 | reading a workout's own arguments under its code gives back that same workout |
| `Packages.EveryWorkoutHasACode` | homework.py:126-128 | every workout variant is reachable through some registered code |
| `InfoMessages.ShowTrainingInfo` | homework.py:52-58 | the record holds the class name, the unchanged duration, and exactly the workout's distance, mean speed and calories; for Running and SportsWalking, speed times duration equals distance; distance is non-negative for a non-negative action |
| `InfoMessages.TrainingTypeIdentifiesVariant` | homework.py:54 | two reports have the same training type exactly when their workouts have the same class |
| `Samples.SwimmingSample` | homework.py:145 | `("SWM", [720, 1, 80, 25, 40])` reads to that swim, and its report is Swimming, 1 h, 0.9936 km, 1.0 km/h, 336 kcal |
| `Samples.RunningSample` | homework.py:146 | `("RUN", [15000, 1, 75])` reads to that run, and its report is Running, 1 h, 9.75 km, 9.75 km/h, 699.75 kcal |
| `Samples.WalkingSample` | homework.py:147 | `("WLK", [9000, 1, 75, 180])` reads to that walk, and its report is SportsWalking, 1 h, 5.85 km, 5.85 km/h, 157.5 kcal |
| `Samples.RejectedSamples` | homework.py:129-131 | code XYZ is refused as unknown; RUN with two arguments is refused as an arity mismatch (Running expects 3, got 2) |

## Left out

- `main` and the `__main__` loop (homework.py:134-152): console printing over a hardcoded demo list. Its `AttributeError` catch is I/O glue. The demo packages appear as the `Samples` lemmas.
- `InfoMessage.get_message` and `MESSAGE` (homework.py:8-12, 19-20): the `:.3f` formatting depends on binary floating point and Python's rounding, so it cannot be matched over `real`. The model stops at the record.
- IEEE-754 floating point: every quantity is an exact `real`, so no claim is made that the results match CPython bit for bit (rounding in `/`, `**` and float `//` included).
- Integer annotations: `action`, `length_pool` and `count_pool` are annotated `int` in the source. Python does not enforce annotations. The model takes all arguments as `real`, as one flat sequence.
- Division by zero: Python raises `ZeroDivisionError` when the duration (or a walk's height) is zero. The model excludes these inputs with `requires` clauses instead of modelling the exception.
- Python call mechanics: class objects in a dictionary, `*data` unpacking and the `TypeError` Python raises on a wrong argument count. These become a closed `WorkoutClass` registry and an explicit length check with its own `ArityMismatch` error.
- The base class's `NotImplementedError` (homework.py:47-50): the datatype has no constructor for the abstract base, so this path cannot occur.
