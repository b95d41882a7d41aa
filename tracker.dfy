/**
 * The learner's progress record and what one "Validate Code" event does to it:
 * credit, time spent, streak, weak topics, level and the week badge.
 */
module Tracker {
  import opened Options
  import opened Text

  /** One week of the challenge catalog. */
  datatype Week = Week(topics: seq<string>, problems: seq<string>)

  /**
   * The progress document. Dates are day numbers; `timeSpent` holds the elapsed
   * minutes as recorded, which the tracker never computes with.
   */
  datatype Record = Record(
    completed: seq<string>,
    points: int,
    streak: int,
    lastSolved: Option<int>,
    badges: seq<string>,
    weakTopics: map<string, int>,
    timeSpent: map<string, real>,
    xpLevel: int)

  /** One validation event: the week (its number and data), the problem, the review text, the day and the elapsed time. */
  datatype Submission = Submission(
    weekNo: nat,
    week: Week,
    problem: string,
    feedback: string,
    today: int,
    elapsed: real)

  /** The record used when the progress document cannot be loaded. */
  function DefaultRecord(): (r: Record)
    ensures Valid(r)
  {
    Record([], 0, 0, None, [], map[], map[], 1)
  }

  /** `1 + points // 50`: the level is the number of started 50-point bands. */
  function Level(points: int): (level: int)
    ensures 50 * (level - 1) <= points < 50 * level
    ensures points >= 0 ==> level >= 1
  {
    1 + points / 50
  }

  /** `weak_topics.get(topic, 0)`. */
  function CountOf(m: map<string, int>, t: string): int
  {
    if t in m then m[t] else 0
  }

  /** The weak-topic counters after the `for topic in topics` loop bumps each listed topic once. */
  function Bumped(weak: map<string, int>, topics: seq<string>): map<string, int>
  {
    if topics == [] then weak
    else
      var m := Bumped(weak, topics[..|topics| - 1]);
      var t := topics[|topics| - 1];
      m[t := CountOf(m, t) + 1]
  }

  /** Each counter grows by the number of times its topic is listed; a missing topic starts at 0. */
  lemma {:induction false} BumpedCounts(weak: map<string, int>, topics: seq<string>)
    ensures Bumped(weak, topics).Keys == weak.Keys + set t | t in topics
    ensures forall t :: CountOf(Bumped(weak, topics), t) == CountOf(weak, t) + multiset(topics)[t]
  {
    if topics != [] {
      var init := topics[..|topics| - 1];
      BumpedCounts(weak, init);
      assert topics == init + [topics[|topics| - 1]];
    }
  }

  /** The review text, lower-cased, mentions "incorrect" or "error". */
  predicate Flagged(feedback: string)
  {
    Contains("incorrect", Lower(feedback)) || Contains("error", Lower(feedback))
  }

  /** `sum(1 for p in problems if p in completed)`. */
  function CompletedCount(problems: seq<string>, completed: seq<string>): (n: nat)
    ensures n <= |problems|
  {
    if problems == [] then 0
    else (if problems[0] in completed then 1 else 0) + CompletedCount(problems[1..], completed)
  }

  /** The count reaches the week's length exactly when every problem of the week is completed. */
  lemma {:induction false} WeekCompleteIff(problems: seq<string>, completed: seq<string>)
    ensures CompletedCount(problems, completed) == |problems|
      <==> forall p :: p in problems ==> p in completed
  {
    if problems != [] {
      WeekCompleteIff(problems[1..], completed);
      assert forall p :: p in problems <==> p == problems[0] || p in problems[1..];
    }
  }

  /** The badge label `f"Week {n} Complete"`. */
  function BadgeName(weekNo: nat): string
  {
    "Week " + Decimal(weekNo) + " Complete"
  }

  /** Badges of different weeks have different labels. */
  lemma BadgeNameInjective(a: nat, b: nat)
    ensures BadgeName(a) == BadgeName(b) ==> a == b
  {
    if BadgeName(a) == BadgeName(b) {
      var x, y := BadgeName(a), BadgeName(b);
      assert x[5..|x| - 9] == Decimal(a);
      assert y[5..|y| - 9] == Decimal(b);
      DecimalInjective(a, b);
    }
  }

  ghost predicate Distinct(s: seq<string>)
  {
    forall i, j :: 0 <= i < j < |s| ==> s[i] != s[j]
  }

  /**
   * What every record reachable from the default record satisfies: ten points per
   * completion, the level matches the points, the streak is at most the number of
   * completions and at least 1 once anything was solved, badges are unique, weak
   * counters are positive and time is recorded only for completed problems.
   */
  ghost predicate Valid(r: Record)
  {
    && r.points == 10 * |r.completed|
    && r.xpLevel == Level(r.points)
    && 0 <= r.streak <= |r.completed|
    && (r.lastSolved == None <==> r.completed == [])
    && (r.lastSolved.Some? ==> r.streak >= 1)
    && Distinct(r.badges)
    && (forall t :: t in r.weakTopics ==> r.weakTopics[t] >= 1)
    && (forall q :: q in r.timeSpent ==> q in r.completed)
  }

  /**
   * The record after one validation event, step by step: credit the problem,
   * update the streak, track weak topics, recompute the level, award the badge.
   */
  function Validated(r: Record, s: Submission): Record
  {
    var completed := r.completed + [s.problem];
    var points := r.points + 10;
    var streak := if r.lastSolved.Some? && s.today - r.lastSolved.value == 1 then r.streak + 1 else 1;
    var weak := if Flagged(s.feedback) then Bumped(r.weakTopics, s.week.topics) else r.weakTopics;
    var badge := BadgeName(s.weekNo);
    var earned := CompletedCount(s.week.problems, completed) == |s.week.problems| && badge !in r.badges;
    var badges := r.badges + if earned then [badge] else [];
    Record(completed, points, streak, Some(s.today), badges, weak, r.timeSpent[s.problem := s.elapsed], Level(points))
  }

  /**
   * What one validation promises: the problem is appended (no de-duplication),
   * ten points are added, its time is overwritten, the streak continues exactly
   * when the last solve was the day before and restarts at 1 otherwise, every
   * week topic gains one count per listing when the review flags an error, the
   * level is the points' 50-point band, and the week badge is present afterwards
   * exactly when it was before or the week is now complete, added at most once.
   */
  lemma ValidatedLaws(r: Record, s: Submission)
    ensures Validated(r, s).completed == r.completed + [s.problem]
    ensures Validated(r, s).points == r.points + 10
    ensures Validated(r, s).timeSpent == r.timeSpent[s.problem := s.elapsed]
    ensures Validated(r, s).lastSolved == Some(s.today)
    ensures Validated(r, s).streak == if r.lastSolved == Some(s.today - 1) then r.streak + 1 else 1
    ensures Flagged(s.feedback) ==>
      Validated(r, s).weakTopics.Keys == r.weakTopics.Keys + set t | t in s.week.topics
    ensures Flagged(s.feedback) ==> forall t ::
      CountOf(Validated(r, s).weakTopics, t) == CountOf(r.weakTopics, t) + multiset(s.week.topics)[t]
    ensures !Flagged(s.feedback) ==> Validated(r, s).weakTopics == r.weakTopics
    ensures 50 * (Validated(r, s).xpLevel - 1) <= Validated(r, s).points < 50 * Validated(r, s).xpLevel
    ensures BadgeName(s.weekNo) in Validated(r, s).badges
      <==> BadgeName(s.weekNo) in r.badges || forall p :: p in s.week.problems ==> p in r.completed + [s.problem]
    ensures Validated(r, s).badges == r.badges
      || (BadgeName(s.weekNo) !in r.badges && Validated(r, s).badges == r.badges + [BadgeName(s.weekNo)])
  {
    BumpedCounts(r.weakTopics, s.week.topics);
    WeekCompleteIff(s.week.problems, r.completed + [s.problem]);
  }

  /** A validation keeps every invariant of the record; in particular it never adds a duplicate badge. */
  lemma ValidatedKeepsValid(r: Record, s: Submission)
    requires Valid(r)
    ensures Valid(Validated(r, s))
  {
    var r' := Validated(r, s);
    ValidatedLaws(r, s);
    if Flagged(s.feedback) {
      forall t | t in r'.weakTopics
        ensures r'.weakTopics[t] >= 1
      {
        assert CountOf(r'.weakTopics, t) == CountOf(r.weakTopics, t) + multiset(s.week.topics)[t];
        if t !in r.weakTopics {
          assert t in s.week.topics;
        }
      }
    }
  }

  /** The record after a sequence of validation events, applied in order. */
  function Replay(r: Record, subs: seq<Submission>): Record
  {
    if subs == [] then r
    else Validated(Replay(r, subs[..|subs| - 1]), subs[|subs| - 1])
  }

  /** Totals after a session: ten points and one completion per event, invariants kept. */
  lemma {:induction false} ReplayTotals(r: Record, subs: seq<Submission>)
    ensures Replay(r, subs).points == r.points + 10 * |subs|
    ensures |Replay(r, subs).completed| == |r.completed| + |subs|
    ensures Valid(r) ==> Valid(Replay(r, subs))
  {
    if subs != [] {
      var init := subs[..|subs| - 1];
      ReplayTotals(r, init);
      if Valid(r) {
        ValidatedKeepsValid(Replay(r, init), subs[|subs| - 1]);
      }
    }
  }

  /** Event `i` of the session falls on day `first + i`. */
  ghost predicate ConsecutiveDays(subs: seq<Submission>, first: int)
  {
    forall i :: 0 <= i < |subs| ==> subs[i].today == first + i
  }

  /**
   * The streak law over a session of validations on consecutive days: the streak
   * counts the days, continuing the old streak only if the last solve was the day before.
   */
  lemma {:induction false} ReplayStreak(r: Record, subs: seq<Submission>, first: int)
    requires |subs| > 0 && ConsecutiveDays(subs, first)
    ensures Replay(r, subs).lastSolved == Some(first + |subs| - 1)
    ensures Replay(r, subs).streak == if r.lastSolved == Some(first - 1) then r.streak + |subs| else |subs|
  {
    var init := subs[..|subs| - 1];
    if |init| > 0 {
      assert ConsecutiveDays(init, first);
      ReplayStreak(r, init, first);
    }
  }

  /** The mutable progress document of the running application. */
  class Progress {
    var completed: seq<string>
    var points: int
    var streak: int
    var lastSolved: Option<int>
    var badges: seq<string>
    var weakTopics: map<string, int>
    var timeSpent: map<string, real>
    var xpLevel: int

    function Snapshot(): Record
      reads this
    {
      Record(completed, points, streak, lastSolved, badges, weakTopics, timeSpent, xpLevel)
    }

    /** The fallback record when loading the progress document fails. */
    constructor Default()
      ensures Snapshot() == DefaultRecord()
    {
      completed := [];
      points := 0;
      streak := 0;
      lastSolved := None;
      badges := [];
      weakTopics := map[];
      timeSpent := map[];
      xpLevel := 1;
    }

    /** Credits the problem: appended to the completed list, ten points, its time overwritten. */
    method Credit(problem: string, elapsed: real)
      modifies this`completed, this`points, this`timeSpent
      ensures completed == old(completed) + [problem]
      ensures points == old(points) + 10
      ensures timeSpent == old(timeSpent)[problem := elapsed]
    {
      completed := completed + [problem];
      points := points + 10;
      timeSpent := timeSpent[problem := elapsed];
    }

    /** The streak grows when the last solve was the day before `today` and restarts at 1 otherwise. */
    method UpdateStreak(today: int)
      modifies this`streak, this`lastSolved
      ensures streak == if old(lastSolved) == Some(today - 1) then old(streak) + 1 else 1
      ensures lastSolved == Some(today)
    {
      match lastSolved {
        case Some(last) =>
          if today - last == 1 {
            streak := streak + 1;
          } else {
            streak := 1;
          }
        case None =>
          streak := 1;
      }
      lastSolved := Some(today);
    }

    /** When the review flags an error, every topic of the week gains one count. */
    method TrackWeakTopics(topics: seq<string>, feedback: string)
      modifies this`weakTopics
      ensures weakTopics == if Flagged(feedback) then Bumped(old(weakTopics), topics) else old(weakTopics)
    {
      if Flagged(feedback) {
        var i := 0;
        while i < |topics|
          invariant 0 <= i <= |topics|
          invariant weakTopics == Bumped(old(weakTopics), topics[..i])
        {
          var topic := topics[i];
          assert topics[..i + 1][..i] == topics[..i];
          weakTopics := weakTopics[topic := CountOf(weakTopics, topic) + 1];
          i := i + 1;
        }
        assert topics[..i] == topics;
      }
    }

    /** Appends the week's badge when all its problems are completed and the badge is new. */
    method AwardBadge(weekNo: nat, problems: seq<string>)
      modifies this`badges
      ensures badges == old(badges) +
        if (forall p :: p in problems ==> p in completed) && BadgeName(weekNo) !in old(badges)
        then [BadgeName(weekNo)] else []
    {
      var badge := BadgeName(weekNo);
      WeekCompleteIff(problems, completed);
      if CompletedCount(problems, completed) == |problems| && badge !in badges {
        badges := badges + [badge];
      }
    }

    /**
     * Records a validated submission of `problem` for week `selected` of `catalog`
     * on day `today`, with `feedback` the review text and `elapsed` the measured time.
     */
    method Validate(catalog: seq<Week>, selected: int, problem: string, feedback: string, today: int, elapsed: real)
      requires 1 <= selected <= |catalog|
      modifies this
      ensures Snapshot() == Validated(old(Snapshot()), Submission(selected, catalog[selected - 1], problem, feedback, today, elapsed))
      ensures old(Valid(Snapshot())) ==> Valid(Snapshot())
    {
      ghost var before := Snapshot();
      var week := catalog[selected - 1];
      Credit(problem, elapsed);
      UpdateStreak(today);
      TrackWeakTopics(week.topics, feedback);
      xpLevel := 1 + points / 50;
      AwardBadge(selected, week.problems);
      WeekCompleteIff(week.problems, completed);

      ghost var sub := Submission(selected, week, problem, feedback, today, elapsed);
      assert Snapshot() == Validated(before, sub);
      if Valid(before) {
        ValidatedKeepsValid(before, sub);
      }
    }
  }
}
