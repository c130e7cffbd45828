/**
 * The workout hierarchy of the fitness tracker: one base contract (Training)
 * and three concrete variants, each with its own distance, mean-speed and
 * calorie formulas. Every metric is a pure function of the fields that the
 * constructor sets once, so a workout is a value and each metric a function.
 *
 * The base class itself is never instantiated here: the datatype has no
 * constructor for it, so the base class's "calories not defined" error cannot
 * arise.
 */
module Trainings {

  /** Constants of the base class, shared by all variants. */
  const LEN_STEP := 0.65      // metres per step (Running, SportsWalking)
  const M_IN_KM := 1000.0
  const MIN_IN_HOUR := 60.0

  /** Swimming overrides the base LEN_STEP: metres per stroke. */
  const SWIMMING_LEN_STEP := 1.38

  const COEFF_CALORIE_RUN_1 := 18.0
  const COEFF_CALORIE_RUN_2 := 20.0

  const COEFF_CALORIE_WLK_1 := 0.035
  const COEFF_CALORIE_WLK_2 := 0.029
  const POWER: nat := 2

  const COEFF_CALORIE_SWM_1 := 1.1
  const COEFF_CALORIE_SWM_2 := 2.0

  /**
   * A workout record. The fields common to every variant come first, in the
   * order of the constructors' positional parameters.
   */
  datatype Training =
    | Running(action: real, duration: real, weight: real)
    | SportsWalking(action: real, duration: real, weight: real, height: real)
    | Swimming(action: real, duration: real, weight: real, lengthPool: real, countPool: real)

  /** The concrete class a workout was built from. */
  datatype WorkoutClass = RunningClass | SportsWalkingClass | SwimmingClass {

    /** The class's name, as the report shows it; each name belongs to one class. */
    function Name(): (name: string)
      ensures name == "Running" <==> this == RunningClass
      ensures name == "SportsWalking" <==> this == SportsWalkingClass
      ensures name == "Swimming" <==> this == SwimmingClass
    {
      match this
      case RunningClass => "Running"
      case SportsWalkingClass => "SportsWalking"
      case SwimmingClass => "Swimming"
    }

    /**
     * How many positional arguments the class's constructor takes: the three
     * of the base class, plus those the variant adds.
     */
    function ParamCount(): (count: nat)
      ensures count >= 3
      ensures count == 3 <==> this == RunningClass
      ensures count == 4 <==> this == SportsWalkingClass
      ensures count == 5 <==> this == SwimmingClass
    {
      match this
      case RunningClass => 3
      case SportsWalkingClass => 4
      case SwimmingClass => 5
    }
  }

  function ClassOf(w: Training): (c: WorkoutClass)
    ensures w.Running? <==> c == RunningClass
    ensures w.SportsWalking? <==> c == SportsWalkingClass
    ensures w.Swimming? <==> c == SwimmingClass
  {
    match w
    case Running(_, _, _) => RunningClass
    case SportsWalking(_, _, _, _) => SportsWalkingClass
    case Swimming(_, _, _, _, _) => SwimmingClass
  }

  /** The constructor arguments of a workout, in declaration order. */
  function Fields(w: Training): (args: seq<real>)
    ensures |args| == ClassOf(w).ParamCount()
    ensures args[..3] == [w.action, w.duration, w.weight]
  {
    match w
    case Running(action, duration, weight) => [action, duration, weight]
    case SportsWalking(action, duration, weight, height) => [action, duration, weight, height]
    case Swimming(action, duration, weight, lengthPool, countPool) =>
      [action, duration, weight, lengthPool, countPool]
  }

  /** The class attribute LEN_STEP as the variant of w sees it. */
  function StepLength(w: Training): (len: real)
    ensures len > 0.0
  {
    if w.Swimming? then SWIMMING_LEN_STEP else LEN_STEP
  }

  /** get_distance: the distance covered, in kilometres. */
  function Distance(w: Training): (km: real)
    ensures km * M_IN_KM == w.action * StepLength(w)
    ensures w.action >= 0.0 ==> km >= 0.0
    ensures w.action > 0.0 ==> km > 0.0
  {
    w.action * StepLength(w) / M_IN_KM
  }

  /** duration_to_min: the duration (hours) converted to minutes. */
  function DurationToMin(w: Training): (minutes: real)
    ensures minutes / MIN_IN_HOUR == w.duration
    ensures w.duration > 0.0 ==> minutes > 0.0
  {
    w.duration * MIN_IN_HOUR
  }

  /**
   * get_mean_speed in km/h. Running and SportsWalking use the base formula
   * (distance over duration); Swimming overrides it with the pool geometry.
   * Both divide by the duration, which Python rejects when it is zero.
   */
  function MeanSpeed(w: Training): (kmh: real)
    requires w.duration != 0.0
    ensures !w.Swimming? ==> kmh * w.duration == Distance(w)
    ensures w.Swimming? ==> kmh * w.duration * M_IN_KM == w.lengthPool * w.countPool
  {
    match w
    case Swimming(_, duration, _, lengthPool, countPool) =>
      lengthPool * countPool / M_IN_KM / duration
    case _ => Distance(w) / w.duration
  }

  /** Swimming's speed ignores the stroke count; its distance does not. */
  lemma SwimmingSpeedIgnoresAction(w: Training, strokes: real)
    requires w.Swimming? && w.duration != 0.0
    ensures var v := Swimming(strokes, w.duration, w.weight, w.lengthPool, w.countPool);
            MeanSpeed(v) == MeanSpeed(w) && (Distance(v) == Distance(w) <==> strokes == w.action)
  {
  }

  /** x ** n for a natural exponent, as Python's ** on a float and an int. */
  function Pow(x: real, n: nat): real
    decreases n
  {
    if n == 0 then 1.0 else x * Pow(x, n - 1)
  }

  lemma PowTwo(x: real)
    ensures Pow(x, POWER) == x * x
    ensures Pow(x, POWER) >= 0.0
  {
  }

  /** Python's floor division a // b on floats, over the reals. */
  function FloorDiv(a: real, b: real): (q: real)
    requires b != 0.0
    ensures q == q.Floor as real
    ensures q <= a / b < q + 1.0
  {
    (a / b).Floor as real
  }

  /**
   * The divisors the metrics divide by are all non-zero: the duration, which
   * is the second constructor argument, and for SportsWalking the height,
   * which is the fourth. Otherwise Python raises ZeroDivisionError.
   */
  function CaloriesDefined(w: Training): (ok: bool)
    ensures ok <==> Fields(w)[1] != 0.0 && (w.SportsWalking? ==> Fields(w)[3] != 0.0)
  {
    w.duration != 0.0 && (w.SportsWalking? ==> w.height != 0.0)
  }

  /**
   * get_spent_calories of the concrete variant. SportsWalking quantises
   * speed² / height with floor division, exactly as the source does.
   */
  function Calories(w: Training): (kcal: real)
    requires CaloriesDefined(w)
    ensures w.Running? ==>
      kcal * M_IN_KM == (COEFF_CALORIE_RUN_1 * Distance(w) - COEFF_CALORIE_RUN_2 * w.duration)
                        * w.weight * MIN_IN_HOUR
    ensures w.Swimming? ==>
      kcal * M_IN_KM * w.duration
        == (w.lengthPool * w.countPool + COEFF_CALORIE_SWM_1 * M_IN_KM * w.duration)
           * COEFF_CALORIE_SWM_2 * w.weight
  {
    match w
    case Running(_, _, weight) =>
      RunningCaloriesFromDistance(w);
      (COEFF_CALORIE_RUN_1 * MeanSpeed(w) - COEFF_CALORIE_RUN_2) * weight / M_IN_KM * DurationToMin(w)
    case SportsWalking(_, _, weight, height) =>
      (COEFF_CALORIE_WLK_1 * weight
       + FloorDiv(Pow(MeanSpeed(w), POWER), height) * COEFF_CALORIE_WLK_2 * weight)
      * DurationToMin(w)
    case Swimming(_, _, weight, _, _) =>
      SwimmingCaloriesFromPool(w);
      (MeanSpeed(w) + COEFF_CALORIE_SWM_1) * COEFF_CALORIE_SWM_2 * weight
  }

  /** Running's formula, rewritten with distance and duration instead of speed. */
  lemma RunningCaloriesFromDistance(w: Training)
    requires w.Running? && w.duration != 0.0
    ensures (COEFF_CALORIE_RUN_1 * MeanSpeed(w) - COEFF_CALORIE_RUN_2) * w.weight / M_IN_KM
              * DurationToMin(w) * M_IN_KM
            == (COEFF_CALORIE_RUN_1 * Distance(w) - COEFF_CALORIE_RUN_2 * w.duration)
               * w.weight * MIN_IN_HOUR
  {
  }

  /** Swimming's formula, rewritten with the pool geometry instead of speed. */
  lemma SwimmingCaloriesFromPool(w: Training)
    requires w.Swimming? && w.duration != 0.0
    ensures (MeanSpeed(w) + COEFF_CALORIE_SWM_1) * COEFF_CALORIE_SWM_2 * w.weight
              * M_IN_KM * w.duration
            == (w.lengthPool * w.countPool + COEFF_CALORIE_SWM_1 * M_IN_KM * w.duration)
               * COEFF_CALORIE_SWM_2 * w.weight
  {
  }

  /**
   * When the squared speed is below the height, the floor term vanishes and
   * SportsWalking's calories reduce to the weight term alone.
   */
  lemma WalkingCaloriesBelowThreshold(w: Training)
    requires w.SportsWalking? && w.duration != 0.0 && w.height != 0.0
    requires MeanSpeed(w) * MeanSpeed(w) < w.height
    ensures Calories(w) == COEFF_CALORIE_WLK_1 * w.weight * w.duration * MIN_IN_HOUR
  {
    var s := MeanSpeed(w);
    PowTwo(s);
    var sq := Pow(s, POWER);
    assert 0.0 <= sq < w.height;
    DivBelowOne(sq, w.height);
    var q := FloorDiv(sq, w.height);
    assert q == 0.0;
  }

  /**
   * SportsWalking's calorie formula with real division in place of floor
   * division: the reference against which the quantisation is measured.
   */
  ghost function WalkingCaloriesUnfloored(w: Training): real
    requires w.SportsWalking? && CaloriesDefined(w)
  {
    (COEFF_CALORIE_WLK_1 * w.weight
     + Pow(MeanSpeed(w), POWER) / w.height * COEFF_CALORIE_WLK_2 * w.weight)
    * DurationToMin(w)
  }

  /**
   * For a positive duration and weight, the floor division rounds
   * SportsWalking's calories down, and by less than one unit of the second
   * coefficient's term: the loss against real division lies in
   * [0, 0.029 * weight * minutes). (A negative weight reverses the direction.)
   */
  lemma WalkingCaloriesQuantization(w: Training)
    requires w.SportsWalking? && w.duration > 0.0 && w.height != 0.0 && w.weight > 0.0
    ensures Calories(w) <= WalkingCaloriesUnfloored(w)
    ensures WalkingCaloriesUnfloored(w) < Calories(w) + COEFF_CALORIE_WLK_2 * w.weight * DurationToMin(w)
  {
    var sq := Pow(MeanSpeed(w), POWER);
    var q, m := FloorDiv(sq, w.height), DurationToMin(w);
    QuantizationBound(COEFF_CALORIE_WLK_1, COEFF_CALORIE_WLK_2, q, sq / w.height, w.weight, m,
                      Calories(w), WalkingCaloriesUnfloored(w), COEFF_CALORIE_WLK_2 * w.weight * m);
  }

  /** With q <= x < q + 1, replacing x by q lowers (a*g + x*b*g)*m by less than b*g*m. */
  lemma QuantizationBound(a: real, b: real, q: real, x: real, g: real, m: real,
                          floored: real, exact: real, gap: real)
    requires q <= x < q + 1.0 && b > 0.0 && g > 0.0 && m > 0.0
    requires floored == (a * g + q * b * g) * m
    requires exact == (a * g + x * b * g) * m
    requires gap == b * g * m
    ensures floored <= exact < floored + gap
  {
    var d := x - q;
    assert exact - floored == d * gap;
    assert 0.0 <= d * gap < gap by {
      MulMonotone(0.0, d, gap);
      MulMonotone(d, 1.0, gap);
    }
  }

  /** A ratio of a non-negative number to a larger one lies in [0, 1). */
  lemma DivBelowOne(a: real, b: real)
    requires 0.0 <= a < b
    ensures 0.0 <= a / b < 1.0
  {
  }

  /** Multiplying by a positive factor preserves order. */
  lemma MulMonotone(a: real, b: real, k: real)
    requires a <= b && k > 0.0
    ensures a * k <= b * k
    ensures a < b ==> a * k < b * k
  {
  }
}
