/**
 * A client of the tracker: a fresh learner works through a two-problem week on
 * consecutive days, the second review reporting an error.
 */
module Walkthrough {
  import opened Options
  import opened Text
  import opened Selection
  import opened Tracker

  /** A review without either keyword is not flagged. */
  lemma CleanReview()
    ensures !Flagged("Looks good")
  {
    assert Lower("Looks good") == "looks good";
    FirstCharAbsent("incorrect", "looks good");
    FirstCharAbsent("error", "looks good");
  }

  /** The keyword test ignores case: "Error" counts as "error". */
  lemma ErrorReview()
    ensures Flagged("Error: off-by-one")
  {
  }

  /** The label of the first week's badge. */
  lemma WeekOneBadge()
    ensures BadgeName(1) == "Week 1 Complete"
  {
  }

  const WEEK_ONE := Week(["arrays"], ["two-sum", "reverse-list"])
  const DAY_ONE := Submission(1, WEEK_ONE, "two-sum", "Looks good", 100, 3.5)
  const DAY_TWO := Submission(1, WEEK_ONE, "reverse-list", "Error: off-by-one", 101, 2.0)

  /** The record after day one: "two-sum" solved with a clean review. */
  const AFTER_DAY_ONE := Record(["two-sum"], 10, 1, Some(100), [], map[], map["two-sum" := 3.5], 1)

  /** The record after day two: "reverse-list" solved with a review reporting an error. */
  const AFTER_DAY_TWO := Record(
    ["two-sum", "reverse-list"], 20, 2, Some(101), ["Week 1 Complete"],
    map["arrays" := 1], map["two-sum" := 3.5, "reverse-list" := 2.0], 1)

  /** Day one from the default record: ten points, a one-day streak, no weak topic, no badge yet. */
  lemma DayOneScenario()
    ensures Validated(DefaultRecord(), DAY_ONE) == AFTER_DAY_ONE
  {
    CleanReview();
    ValidatedLaws(DefaultRecord(), DAY_ONE);
    var r1 := Validated(DefaultRecord(), DAY_ONE);
    assert "reverse-list" in WEEK_ONE.problems && "reverse-list" !in r1.completed;
    assert r1.badges == [];
  }

  /**
   * Day two, the next day: twenty points, a two-day streak, one weak count for the
   * week's topic and the week badge, since both problems are now completed.
   */
  lemma DayTwoScenario()
    ensures Validated(AFTER_DAY_ONE, DAY_TWO) == AFTER_DAY_TWO
  {
    ErrorReview();
    WeekOneBadge();
    ValidatedLaws(AFTER_DAY_ONE, DAY_TWO);
    var r2 := Validated(AFTER_DAY_ONE, DAY_TWO);
    assert "two-sum" in r2.completed && "reverse-list" in r2.completed;
    assert r2.badges == ["Week 1 Complete"];
    assert r2.weakTopics.Keys == {"arrays"};
    assert CountOf(r2.weakTopics, "arrays") == 1;
  }

  /** The same session driven through the mutable progress document and the selector. */
  method WeekOne()
  {
    var progress := new Progress.Default();

    var first := Select(WEEK_ONE.problems, progress.completed, progress.weakTopics);
    assert "two-sum" !in progress.completed;
    assert first.Some?;

    progress.Validate([WEEK_ONE], 1, "two-sum", "Looks good", 100, 3.5);
    DayOneScenario();
    assert progress.Snapshot() == AFTER_DAY_ONE;

    progress.Validate([WEEK_ONE], 1, "reverse-list", "Error: off-by-one", 101, 2.0);
    DayTwoScenario();
    assert progress.Snapshot() == AFTER_DAY_TWO;
    assert progress.badges == ["Week 1 Complete"];

    var done := Select(WEEK_ONE.problems, progress.completed, progress.weakTopics);
    assert done == None;
  }
}
