/**
 * The summary a workout reports about itself: its class name, its duration
 * and the three derived metrics, gathered into one immutable record.
 */
module InfoMessages {
  import opened Trainings

  datatype InfoMessage = InfoMessage(
    trainingType: string,
    duration: real,    // hours
    distance: real,    // km
    speed: real,       // km/h
    calories: real)    // kcal

  /** show_training_info: the record of one workout's metrics. */
  function ShowTrainingInfo(w: Training): (info: InfoMessage)
    requires CaloriesDefined(w)
    ensures info.trainingType == ClassOf(w).Name()
    ensures info.duration == w.duration
    ensures info.distance == Distance(w) && info.speed == MeanSpeed(w) && info.calories == Calories(w)
    ensures !w.Swimming? ==> info.speed * info.duration == info.distance
    ensures w.action >= 0.0 ==> info.distance >= 0.0
  {
    InfoMessage(ClassOf(w).Name(), w.duration, Distance(w), MeanSpeed(w), Calories(w))
  }

  /** The class name in the report tells the variant back. */
  lemma TrainingTypeIdentifiesVariant(v: Training, w: Training)
    requires CaloriesDefined(v) && CaloriesDefined(w)
    ensures ShowTrainingInfo(v).trainingType == ShowTrainingInfo(w).trainingType
            <==> ClassOf(v) == ClassOf(w)
  {
  }
}
