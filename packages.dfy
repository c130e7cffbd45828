/**
 * The dispatcher: reads one sensor package (a workout code and a flat list of
 * numbers) into a workout. The code selects a class from a closed registry;
 * the numbers become the class's constructor arguments, in order.
 */
module Packages {
  import opened Trainings

  /** Why a package could not be read (Python raises ValueError or TypeError). */
  datatype Error =
    | UnknownWorkoutCode(code: string)
    | ArityMismatch(className: string, expected: nat, given: nat)

  datatype Result<T> = Ok(value: T) | Err(error: Error)

  /** The registry of workout codes. */
  const WORKOUTS: map<string, WorkoutClass> :=
    map["SWM" := SwimmingClass, "RUN" := RunningClass, "WLK" := SportsWalkingClass]

  /**
   * Calling the class c with the positional arguments data: it succeeds
   * exactly when the number of arguments matches the constructor, and then
   * every argument lands in its field.
   */
  function Construct(c: WorkoutClass, data: seq<real>): (r: Result<Training>)
    ensures r.Ok? <==> |data| == c.ParamCount()
    ensures r.Ok? ==> ClassOf(r.value) == c && Fields(r.value) == data
    ensures r.Err? ==> r.error == ArityMismatch(c.Name(), c.ParamCount(), |data|)
  {
    if |data| != c.ParamCount() then
      Err(ArityMismatch(c.Name(), c.ParamCount(), |data|))
    else
      match c
      case RunningClass => Ok(Running(data[0], data[1], data[2]))
      case SportsWalkingClass => Ok(SportsWalking(data[0], data[1], data[2], data[3]))
      case SwimmingClass => Ok(Swimming(data[0], data[1], data[2], data[3], data[4]))
  }

  /** read_package: look the code up, then construct the class it names. */
  function ReadPackage(workoutType: string, data: seq<real>): (r: Result<Training>)
    ensures workoutType !in WORKOUTS <==> r == Err(UnknownWorkoutCode(workoutType))
    ensures r.Ok? <==> workoutType in WORKOUTS && |data| == WORKOUTS[workoutType].ParamCount()
    ensures r.Ok? ==> ClassOf(r.value) == WORKOUTS[workoutType] && Fields(r.value) == data
    ensures workoutType in WORKOUTS && r.Err? ==>
      r.error == ArityMismatch(WORKOUTS[workoutType].Name(), WORKOUTS[workoutType].ParamCount(), |data|)
  {
    if workoutType !in WORKOUTS then
      Err(UnknownWorkoutCode(workoutType))
    else
      Construct(WORKOUTS[workoutType], data)
  }

  /**
   * The codes the registry knows, the variant each selects and the argument
   * count each needs; any other code is refused whatever the data.
   */
  lemma CodeSelectsVariant(workoutType: string, data: seq<real>)
    ensures var r := ReadPackage(workoutType, data);
      && (workoutType == "SWM" ==> (r.Ok? <==> |data| == 5) && (r.Ok? ==> r.value.Swimming?))
      && (workoutType == "RUN" ==> (r.Ok? <==> |data| == 3) && (r.Ok? ==> r.value.Running?))
      && (workoutType == "WLK" ==> (r.Ok? <==> |data| == 4) && (r.Ok? ==> r.value.SportsWalking?))
      && (workoutType !in {"SWM", "RUN", "WLK"} ==> r == Err(UnknownWorkoutCode(workoutType)))
  {
  }

  /** A package read back from a workout's own arguments reproduces the workout. */
  lemma ReadPackageRoundTrip(workoutType: string, w: Training)
    requires workoutType in WORKOUTS && WORKOUTS[workoutType] == ClassOf(w)
    ensures ReadPackage(workoutType, Fields(w)) == Ok(w)
  {
  }

  /** Every workout can be read from some package. */
  lemma EveryWorkoutHasACode(w: Training)
    ensures exists code :: code in WORKOUTS && WORKOUTS[code] == ClassOf(w)
  {
    var code := match w
      case Running(_, _, _) => "RUN"
      case SportsWalking(_, _, _, _) => "WLK"
      case Swimming(_, _, _, _, _) => "SWM";
    assert code in WORKOUTS && WORKOUTS[code] == ClassOf(w);
  }
}
