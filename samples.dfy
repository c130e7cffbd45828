/**
 * The three sample packages of the tracker's demo, read and reported end to
 * end: what the dispatcher builds from each and the metrics its report holds.
 */
module Samples {
  import opened Trainings
  import opened Packages
  import opened InfoMessages

  /** read_package("SWM", [720, 1, 80, 25, 40]) and its report. */
  lemma SwimmingSample()
    ensures var r := ReadPackage("SWM", [720.0, 1.0, 80.0, 25.0, 40.0]);
      && r == Ok(Swimming(720.0, 1.0, 80.0, 25.0, 40.0))
      && ShowTrainingInfo(r.value) == InfoMessage("Swimming", 1.0, 0.9936, 1.0, 336.0)
  {
  }

  /** read_package("RUN", [15000, 1, 75]) and its report. */
  lemma RunningSample()
    ensures var r := ReadPackage("RUN", [15000.0, 1.0, 75.0]);
      && r == Ok(Running(15000.0, 1.0, 75.0))
      && ShowTrainingInfo(r.value) == InfoMessage("Running", 1.0, 9.75, 9.75, 699.75)
  {
  }

  /**
   * read_package("WLK", [9000, 1, 75, 180]) and its report: 5.85² = 34.2225 is
   * below the height 180, so the floor term is zero.
   */
  lemma WalkingSample()
    ensures var r := ReadPackage("WLK", [9000.0, 1.0, 75.0, 180.0]);
      && r == Ok(SportsWalking(9000.0, 1.0, 75.0, 180.0))
      && ShowTrainingInfo(r.value) == InfoMessage("SportsWalking", 1.0, 5.85, 5.85, 157.5)
  {
  }

  /** A code outside the registry, and a known code with too few arguments. */
  lemma RejectedSamples()
    ensures ReadPackage("XYZ", [1.0, 2.0, 3.0]) == Err(UnknownWorkoutCode("XYZ"))
    ensures ReadPackage("RUN", [1.0, 2.0]) == Err(ArityMismatch("Running", 3, 2))
  {
  }
}
