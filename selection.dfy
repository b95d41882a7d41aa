/**
 * Adaptive problem selection: which of the selected week's problems are still
 * unfinished, and which one becomes today's problem.
 */
module Selection {
  import opened Options
  import opened Text

  /**
   * The week's problems that are not in `completed`, in the week's order
   * (the list comprehension that builds `remaining_problems`).
   */
  function Remaining(problems: seq<string>, completed: seq<string>): (r: seq<string>)
    ensures forall p :: p in r <==> p in problems && p !in completed
  {
    if problems == [] then []
    else
      (if problems[0] in completed then [] else [problems[0]]) + Remaining(problems[1..], completed)
  }

  /** An unfinished problem keeps all its repetitions; a completed one keeps none. */
  lemma {:induction false} RemainingCounts(problems: seq<string>, completed: seq<string>)
    ensures forall p ::
      multiset(Remaining(problems, completed))[p] == if p in completed then 0 else multiset(problems)[p]
  {
    if problems != [] {
      RemainingCounts(problems[1..], completed);
      assert problems == [problems[0]] + problems[1..];
    }
  }

  /** Filtering keeps the order: the unfinished part of `a + b` is that of `a`, then that of `b`. */
  lemma {:induction false} RemainingOfConcat(a: seq<string>, b: seq<string>, completed: seq<string>)
    ensures Remaining(a + b, completed) == Remaining(a, completed) + Remaining(b, completed)
  {
    if a == [] {
      assert a + b == b;
    } else {
      var head := if a[0] in completed then [] else [a[0]];
      var ab := a + b;
      assert ab[0] == a[0] && ab[1..] == a[1..] + b;
      calc {
        Remaining(ab, completed);
        head + Remaining(a[1..] + b, completed);
        { RemainingOfConcat(a[1..], b, completed); }
        head + (Remaining(a[1..], completed) + Remaining(b, completed));
        Remaining(a, completed) + Remaining(b, completed);
      }
    }
  }

  /** A list none of whose problems is completed is left exactly as it is. */
  lemma {:induction false} RemainingOfUnfinished(problems: seq<string>, completed: seq<string>)
    requires forall p :: p in problems ==> p !in completed
    ensures Remaining(problems, completed) == problems
  {
    if problems != [] {
      assert problems[0] in problems;
      RemainingOfUnfinished(problems[1..], completed);
    }
  }

  /** Problem `p` names one of the weak topics: some key of `weak` is a substring of `p`. */
  predicate MentionsWeakTopic(p: string, weak: map<string, int>)
  {
    exists t | t in weak :: Contains(t, p)
  }

  /** The unfinished problems that mention a weak topic, in order (`weak_topic_probs`). */
  function WeakCandidates(remaining: seq<string>, weak: map<string, int>): (r: seq<string>)
    ensures forall p :: p in r <==> p in remaining && MentionsWeakTopic(p, weak)
  {
    if remaining == [] then []
    else
      (if MentionsWeakTopic(remaining[0], weak) then [remaining[0]] else [])
      + WeakCandidates(remaining[1..], weak)
  }

  /**
   * Chooses today's problem. `None` when the week is complete; otherwise an
   * unfinished problem, one that mentions a weak topic whenever such a problem
   * exists. The uniform random choice is modelled as an arbitrary member.
   */
  method Select(problems: seq<string>, completed: seq<string>, weak: map<string, int>)
    returns (choice: Option<string>)
    ensures choice == None <==> forall p :: p in problems ==> p in completed
    ensures choice.Some? ==> choice.value in problems && choice.value !in completed
    ensures choice.Some? && (exists p :: p in problems && p !in completed && MentionsWeakTopic(p, weak))
      ==> MentionsWeakTopic(choice.value, weak)
  {
    var remaining := Remaining(problems, completed);
    if remaining == [] {
      return None;
    }
    assert remaining[0] in remaining;
    var pool := WeakCandidates(remaining, weak);
    if pool == [] {
      pool := remaining;
    }
    assert pool[0] in pool;
    var p :| p in pool;
    return Some(p);
  }
}
