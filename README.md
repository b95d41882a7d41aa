# DSA coach: learner-progress state machine

A Dafny model of the progress logic of the "Ultimate AI-Powered DSA Coach", a
Streamlit application that offers a daily coding problem from a weekly
catalog, asks a language model for hints and code reviews, and keeps a small
progress document (completed problems, points, streak, badges, weak topics,
time spent, level).

The model covers the two pieces of logic the application script holds:

- **Adaptive problem selection** (`selection.dfy`, module `Selection`): the
  week's unfinished problems, in the week's order; no problem when the week is
  complete; otherwise a random unfinished problem, taken from those whose name
  contains a weak-topic key whenever there are any.
- **The "Validate Code" update** (`tracker.dfy`, module `Tracker`): the
  progress document is a class `Progress` whose fields the update changes in
  place, step by step, as the script does: append the problem, add 10 points,
  overwrite its time, apply the streak rule, bump the counter of every week
  topic when the review mentions "incorrect" or "error", recompute
  `xp_level = 1 + points // 50`, and award the one-time "Week N Complete"
  badge. The method is proved against the value-level function `Validated`,
  and the laws of the update are proved about that function: the exact effect
  on each field, the invariant every record reachable from the default record
  keeps (10 points per completion, level matching points, unique badges, ...),
  and what a whole session of validations on consecutive days does.
- The fallback record used when loading the progress document fails
  (`DefaultRecord`, `Progress.Default`).

`text.dfy` (module `Text`) holds the string operations the script relies on:
Python's substring test, `str.lower()` (ASCII), and the decimal rendering of
the week number inside the badge label, with its inverse. `walkthrough.dfy`
replays a fresh learner finishing a two-problem week on two consecutive days,
both on the value level and through the `Progress` object and the selector.
`options.dfy` defines `Option`, used for "no problem selected" and for an
absent last-solved date.

Representation choices:

- Dates are integer day numbers; "no last solved date" is `None`.
- The elapsed time is an opaque `real` passed in by the caller; the model only
  stores it.
- The review text is an arbitrary input string.
- The random choice is an arbitrary member of the candidate list (`:|`).
- Python's `points // 50` floors; Dafny's `/` on `int` is Euclidean, which
  agrees with flooring for the positive divisor 50, so `Level` is exact for
  every integer.
- `Validate` takes the selected problem as a `string`: "a problem was
  selected" is required by the parameter's type (see "Left out").

## Model

| member | source | states |
|---|---|---|
| `Selection.Remaining` | app.py:36 | a problem is in the result exactly when it is a week problem not in `completed_problems` |
| `Selection.RemainingCounts` | app.py:36 | each unfinished problem keeps all its repetitions, a completed one none |
| `Selection.RemainingOfConcat` | app.py:36 | the filter keeps the week's order: filtering `a + b` is filtering `a`, then `b` |
| `Selection.RemainingOfUnfinished` | app.py:36 | a list with no completed problem is returned unchanged |
| `Selection.WeakCandidates` | app.py:42 | a problem is a candidate exactly when it is unfinished and some weak-topic key is a substring of it |
| `Selection.MentionsWeakTopic` | app.py:42 | `any(topic in p for topic in weak_topics)`: some weak-topic key is a substring of the problem name; `WeakCandidates` keeps exactly the unfinished problems satisfying it |
| `Selection.Select` | app.py:36-43 | no problem exactly when every week problem is completed; otherwise an unfinished week problem, one mentioning a weak topic whenever such a problem exists |
| `Text.Contains` | app.py:42 | Python's substring test `needle in hay`, including the empty needle; `ContainsIffOccurs` proves it holds exactly when the needle occurs at some index |
| `Text.ContainsIffOccurs` | app.py:42 | the substring test `topic in p` holds exactly when the needle occurs at some index |
| `Text.FirstCharAbsent` | app.py:87 | a keyword whose first letter does not occur in the text is not found |
| `Text.Lower` | app.py:87 | `lower()` keeps the length, leaves no upper-case letter, maps each upper-case letter to its lower-case form and keeps every other character |
| `Text.Decimal` | app.py:96 | the week number is rendered as decimal digits without a leading zero |
| `Text.ParseDecimalOfDecimal` | app.py:96 | reading the rendered week number back gives the number |
| `Text.DecimalInjective` | app.py:96 | different week numbers render differently |
| `Tracker.DefaultRecord` | app.py:16-25 | the fallback record satisfies the record invariant `Valid` |
| `Tracker.Progress.Default` | app.py:16-25 | a freshly created document equals the fallback record |
| `Tracker.Level` | app.py:92 | the level is the 50-point band the points fall in, `50 * (level - 1) <= points < 50 * level`, and at least 1 for non-negative points |
| `Tracker.CountOf` | app.py:89 | `weak_topics.get(topic, 0)`: the stored count, or 0 for a missing topic; the unit in which `BumpedCounts` states the counters |
| `Tracker.Bumped` | app.py:88-89 | the counters after the `for topic` loop; `BumpedCounts` proves each counter gains one per listing of its topic and that the keys become the old keys plus the topics |
| `Tracker.BumpedCounts` | app.py:88-89 | after the topic loop each counter equals its old value (0 when missing) plus the number of times the topic is listed, and the keys are the old keys plus the week topics |
| `Tracker.CompletedCount` | app.py:95 | `sum(1 for p in problems if p in completed)`: never more than the number of week problems; `WeekCompleteIff` proves it reaches that number exactly when the week is complete |
| `Tracker.WeekCompleteIff` | app.py:95-96 | the completed count equals the week's length exactly when every week problem is in `completed_problems` |
| `Tracker.BadgeName` | app.py:96 | the label `f"Week {n} Complete"`; `BadgeNameInjective` proves different weeks get different labels |
| `Tracker.BadgeNameInjective` | app.py:96-97 | badges of different weeks carry different labels, so one week's badge never blocks another's |
| `Tracker.Flagged` | app.py:87 | the review, lower-cased, contains "incorrect" or "error"; `CleanReview` and `ErrorReview` show a clean and a capitalised "Error" review |
| `Tracker.Validated` | app.py:67-97 | the value-level update that `Progress.Validate` is proved equal to; fully determined by `ValidatedLaws`, and it keeps `Valid` (`ValidatedKeepsValid`) |
| `Tracker.ValidatedLaws` | app.py:67-97 | one validation appends the problem without de-duplication, adds exactly 10 points, overwrites only the problem's time, sets the last solved day to today, continues the streak exactly when the last solve was the day before and restarts it at 1 otherwise, bumps each week topic when the review is flagged and changes no counter otherwise, sets the level from the points, and has the week badge afterwards exactly when it was there before or the week is now complete, adding it at most once |
| `Tracker.ValidatedKeepsValid` | app.py:67-97 | a validation preserves the record invariant: 10 points per completion, level matching points, 0 <= streak <= completions and streak >= 1 once anything is solved, unique badges, positive weak counters, time kept only for completed problems |
| `Tracker.ReplayTotals` | app.py:69-70 | after a session of validations the points grew by 10 per validation, the completed list by one per validation, and the invariant still holds |
| `Tracker.ReplayStreak` | app.py:74-84 | validations on consecutive days make the streak count the days, continuing the old streak only when the last solve was the day before the first |
| `Tracker.Progress.Credit` | app.py:69-71 | the problem is appended, points grow by 10, the problem's time is overwritten and every other time kept |
| `Tracker.Progress.UpdateStreak` | app.py:74-84 | the streak is the old streak + 1 when the last solved day is today - 1 and 1 otherwise (no date, same day, gap); the last solved day becomes today |
| `Tracker.Progress.TrackWeakTopics` | app.py:86-89 | when the lower-cased review contains "incorrect" or "error" the loop bumps every week topic once per listing, otherwise the counters are unchanged |
| `Tracker.Progress.AwardBadge` | app.py:95-97 | the week badge is appended exactly when every week problem is completed and the badge is not present yet |
| `Tracker.Progress.Validate` | app.py:67-97 | the new document is `Validated` of the old one for this submission, and the record invariant is preserved |
| `Walkthrough.CleanReview` | app.py:87 | a review with neither keyword is not flagged |
| `Walkthrough.ErrorReview` | app.py:87 | the keyword test ignores case: "Error: off-by-one" is flagged |
| `Walkthrough.WeekOneBadge` | app.py:96 | the first week's badge is labelled "Week 1 Complete" |
| `Walkthrough.DayOneScenario` | app.py:67-97 | from the default record, a clean review of "two-sum" on day 100 gives 10 points, streak 1, no weak topic and no badge |
| `Walkthrough.DayTwoScenario` | app.py:67-97 | the next day an "Error" review of "reverse-list" gives 20 points, streak 2, a count of 1 for the week topic, and the week-1 badge |

## Left out

- The Streamlit interface (page set-up, selectors, buttons, spinners, balloons, messages, the analytics display and bar charts): presentation only.
- Reading `challenges.json` and reading or writing `progress.json`: file I/O. Only the fallback record produced when loading fails is modelled; a document loaded from a file may violate `Valid`, and `Validate` does not require it.
- `groq_client.py` and the two language-model calls: a network call to an external service. The review text is an input string, and the case where the call fails (an exception raised before any progress change) is the case where `Validate` is not called.
- `Validate`: takes a `string` problem, so the script's path where the week is already complete (`daily_problem` is `None`) yet "Validate Code" is pressed, which would append `None` and record its time under `None`, is not modelled.
- The wall-clock timing (`time.time()`, rounding to hundredths of a minute): the elapsed time is an opaque `real` supplied by the caller.
- `date.today()` and ISO date parsing: dates are integer day numbers supplied by the caller.
- The uniform distribution of `random.choice`, and the fact that Streamlit re-runs the script on every interaction, so the problem validated is a fresh choice rather than the one displayed before the click: the model chooses an arbitrary candidate per call.
- `Text.Lower`: lower-cases ASCII letters only; Python's `str.lower()` also maps non-ASCII letters.
- The insertion order of the `weak_topics` and `time_spent` dictionaries (it only affects the chart order): they are Dafny maps.
- The catalog is read-only input; its invariants (unique problems per week, weeks numbered from 1) are not assumed. A week's topics are iterated as a list, so a topic listed twice is bumped twice; the model follows the script.
