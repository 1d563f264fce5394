/** Deterministic machines, and the stuttering simulation that lets one stand for another.

    A machine is a step function.  `rel` says which states of two machines stand for each
    other, and `rank` bounds how often the second machine may stand still while the first
    one moves.  The three theorems are used by every compiler stage of the project. */
module Simulation {

  datatype Step<S, O> = Next(state: S) | Done(outcome: O)

  /** The result of at most n steps from s. */
  function Run<S, O>(step: S -> Step<S, O>, s: S, n: nat): Step<S, O>
  {
    if n == 0 then Next(s)
    else match step(s)
      case Done(o) => Done(o)
      case Next(s') => Run(step, s', n - 1)
  }

  lemma RunNothing<S, O>(step: S -> Step<S, O>, s: S)
    ensures Run(step, s, 0) == Next(s)
  {
  }

  lemma RunFirst<S, O>(step: S -> Step<S, O>, s: S, n: nat)
    ensures Run(step, s, n + 1) == Continue(step, step(s), n)
  {
  }

  lemma RunOnce<S, O>(step: S -> Step<S, O>, s: S)
    ensures Run(step, s, 1) == step(s)
  {
  }

  /** Run n more steps after a first one. */
  function Continue<S, O>(step: S -> Step<S, O>, first: Step<S, O>, n: nat): Step<S, O>
  {
    match first
    case Done(o) => Done(o)
    case Next(s) => Run(step, s, n)
  }

  ghost predicate Finishes<S, O>(step: S -> Step<S, O>, s: S, o: O)
  {
    exists n: nat :: Run(step, s, n) == Done(o)
  }

  ghost predicate Diverges<S, O>(step: S -> Step<S, O>, s: S)
  {
    forall n: nat :: Run(step, s, n).Next?
  }

  predicate Less(a: (nat, nat), b: (nat, nat))
  {
    a.0 < b.0 || (a.0 == b.0 && a.1 < b.1)
  }

  /** k steps of `dst` from t answer one step of `src` from s. */
  ghost predicate Answers<S, T, O>(
    src: S -> Step<S, O>, dst: T -> Step<T, O>, rel: (S, T) -> bool, rank: S -> (nat, nat),
    s: S, t: T, k: nat)
  {
    match (src(s), Run(dst, t, k))
    case (Done(o), r) => r == Done(o)
    case (Next(s'), Next(t')) => rel(s', t') && (k == 0 ==> Less(rank(s'), rank(s)))
    case (Next(_), Done(_)) => false
  }

  ghost predicate Simulates<S(!new), T(!new), O>(
    src: S -> Step<S, O>, dst: T -> Step<T, O>, rel: (S, T) -> bool, rank: S -> (nat, nat))
  {
    forall s, t | rel(s, t) :: exists k: nat :: Answers(src, dst, rel, rank, s, t, k)
  }

  lemma {:induction false} RunSplit<S, O>(step: S -> Step<S, O>, s: S, k: nat, n: nat)
    requires Run(step, s, k).Next?
    ensures Run(step, s, k + n) == Run(step, Run(step, s, k).state, n)
  {
    if k > 0 {
      RunSplit(step, step(s).state, k - 1, n);
    }
  }

  lemma {:induction false} RunDoneStays<S, O>(step: S -> Step<S, O>, s: S, k: nat, n: nat)
    requires Run(step, s, k).Done?
    requires k <= n
    ensures Run(step, s, n) == Run(step, s, k)
  {
    match step(s)
    case Done(_) =>
    case Next(s') => RunDoneStays(step, s', k - 1, n - 1);
  }

  /** What is left of a finishing run after k of its steps. */
  lemma Remaining<S, O>(step: S -> Step<S, O>, s: S, k: nat, m: nat) returns (j: nat)
    requires Run(step, s, k).Next?
    requires Run(step, s, m).Done?
    ensures m == k + j
    ensures Run(step, Run(step, s, k).state, j) == Run(step, s, m)
  {
    if m <= k {
      RunDoneStays(step, s, m, k);
    }
    j := m - k;
    RunSplit(step, s, k, j);
  }

  /** One more step of a run. */
  lemma Further<S, O>(step: S -> Step<S, O>, s: S, n: nat)
    ensures Run(step, s, n).Next? ==> Run(step, s, n + 1) == step(Run(step, s, n).state)
    ensures Run(step, s, n).Done? ==> Run(step, s, n + 1) == Run(step, s, n)
  {
    hide Run;
    if Run(step, s, n).Next? {
      RunSplit(step, s, n, 1);
      RunOnce(step, Run(step, s, n).state);
    } else {
      RunDoneStays(step, s, n, n + 1);
    }
  }

  /** A run has at most one outcome. */
  lemma OutcomeUnique<S, O>(step: S -> Step<S, O>, s: S, o: O, o': O)
    requires Finishes(step, s, o)
    requires Finishes(step, s, o')
    ensures o == o'
  {
    var n: nat :| Run(step, s, n) == Done(o);
    var m: nat :| Run(step, s, m) == Done(o');
    RunDoneStays(step, s, n, n + m);
    RunDoneStays(step, s, m, n + m);
  }

  lemma AnswerFacts<S, T, O>(
    src: S -> Step<S, O>, dst: T -> Step<T, O>, rel: (S, T) -> bool, rank: S -> (nat, nat), s: S, t: T, k: nat)
    requires Answers(src, dst, rel, rank, s, t, k)
    ensures match src(s)
            case Done(o) => Run(dst, t, k) == Done(o)
            case Next(s') => Run(dst, t, k).Next? && rel(s', Run(dst, t, k).state)
  {
    hide Run;
  }

  /** Every state the first machine reaches is answered by one the second reaches. */
  lemma {:induction false} Reaches<S(!new), T(!new), O>(
    src: S -> Step<S, O>, dst: T -> Step<T, O>, rel: (S, T) -> bool, rank: S -> (nat, nat),
    s: S, t: T, n: nat) returns (k: nat)
    requires Simulates(src, dst, rel, rank)
    requires rel(s, t)
    ensures match Run(src, s, n)
            case Done(o) => Run(dst, t, k) == Done(o)
            case Next(s') => Run(dst, t, k).Next? && rel(s', Run(dst, t, k).state)
  {
    hide Run, Answers;
    if n == 0 {
      RunNothing(src, s);
      RunNothing(dst, t);
      k := 0;
    } else {
      RunFirst(src, s, n - 1);
      var j: nat :| Answers(src, dst, rel, rank, s, t, j);
      AnswerFacts(src, dst, rel, rank, s, t, j);
      var first := src(s);
      if first.Done? {
        k := j;
      } else {
        var t' := Run(dst, t, j).state;
        var i := Reaches(src, dst, rel, rank, first.state, t', n - 1);
        RunSplit(dst, t, j, i);
        k := j + i;
      }
    }
  }

  /** If the second machine finishes, the first finishes with the same outcome: standing still
      cannot go on for ever, because `rank` falls whenever the second machine does not move. */
  lemma {:induction false} ReachesBack<S(!new), T(!new), O>(
    src: S -> Step<S, O>, dst: T -> Step<T, O>, rel: (S, T) -> bool, rank: S -> (nat, nat),
    s: S, t: T, m: nat, o: O) returns (n: nat)
    requires Simulates(src, dst, rel, rank)
    requires rel(s, t)
    requires Run(dst, t, m) == Done(o)
    ensures Run(src, s, n) == Done(o)
    decreases m, rank(s).0, rank(s).1
  {
    var k: nat :| Answers(src, dst, rel, rank, s, t, k);
    var next := src(s);
    if next.Done? {
      OutcomeUnique(dst, t, o, next.outcome);
      n := 1;
      assert Run(src, s, 1) == Done(o);
    } else if k == 0 {
      n := ReachesBack(src, dst, rel, rank, next.state, t, m, o);
      n := n + 1;
    } else {
      var j := Remaining(dst, t, k, m);
      n := ReachesBack(src, dst, rel, rank, next.state, Run(dst, t, k).state, j, o);
      n := n + 1;
    }
  }

  /** Simulating machines finish with the same outcomes and diverge together. */
  lemma SameBehaviour<S(!new), T(!new), O>(
    src: S -> Step<S, O>, dst: T -> Step<T, O>, rel: (S, T) -> bool, rank: S -> (nat, nat),
    s: S, t: T)
    requires Simulates(src, dst, rel, rank)
    requires rel(s, t)
    ensures forall o :: Finishes(src, s, o) <==> Finishes(dst, t, o)
    ensures Diverges(src, s) <==> Diverges(dst, t)
  {
    forall n: nat | Run(src, s, n).Done?
      ensures Finishes(dst, t, Run(src, s, n).outcome)
    {
      var k := Reaches(src, dst, rel, rank, s, t, n);
    }
    forall m: nat | Run(dst, t, m).Done?
      ensures Finishes(src, s, Run(dst, t, m).outcome)
    {
      var n := ReachesBack(src, dst, rel, rank, s, t, m, Run(dst, t, m).outcome);
    }
  }

  // ----- endings that are told apart less finely -----

  ghost predicate StepAlike<S, O>(alike: (O, O) -> bool, x: Step<S, O>, y: Step<S, O>)
  {
    (x.Next? && x == y) || (x.Done? && y.Done? && alike(x.outcome, y.outcome))
  }

  /** Every outcome of one machine answers one of the other, and they diverge together. */
  ghost predicate EndsAlike<S, T, O(!new)>(
    src: S -> Step<S, O>, s: S, dst: T -> Step<T, O>, t: T, alike: (O, O) -> bool)
  {
    && (forall o | Finishes(src, s, o) :: exists o' :: alike(o, o') && Finishes(dst, t, o'))
    && (forall o' | Finishes(dst, t, o') :: exists o :: alike(o, o') && Finishes(src, s, o))
    && (Diverges(src, s) <==> Diverges(dst, t))
  }

  lemma {:induction false} RunsAlike<S(!new), O>(
    a: S -> Step<S, O>, b: S -> Step<S, O>, alike: (O, O) -> bool, s: S, n: nat)
    requires forall x :: StepAlike(alike, a(x), b(x))
    ensures n == 0 || StepAlike(alike, Run(a, s, n), Run(b, s, n))
  {
    if n > 0 {
      assert StepAlike(alike, a(s), b(s));
      match a(s)
      case Done(_) =>
      case Next(s') => RunsAlike(a, b, alike, s', n - 1);
    }
  }

  /** A machine whose steps are alike another's ends as that one's simulation does. */
  lemma AlikeBehaviour<S(!new), T(!new), O(!new)>(
    a: S -> Step<S, O>, b: S -> Step<S, O>, alike: (O, O) -> bool, s: S, dst: T -> Step<T, O>, t: T)
    requires forall x :: StepAlike(alike, a(x), b(x))
    requires forall o :: Finishes(b, s, o) <==> Finishes(dst, t, o)
    requires Diverges(b, s) <==> Diverges(dst, t)
    ensures EndsAlike(a, s, dst, t, alike)
  {
    forall n: nat ensures n == 0 || StepAlike(alike, Run(a, s, n), Run(b, s, n)) {
      RunsAlike(a, b, alike, s, n);
    }
    forall o | Finishes(a, s, o) ensures exists o' :: alike(o, o') && Finishes(dst, t, o') {
      var n: nat :| Run(a, s, n) == Done(o);
      assert Finishes(b, s, Run(b, s, n).outcome);
    }
    forall o' | Finishes(dst, t, o') ensures exists o :: alike(o, o') && Finishes(a, s, o) {
      var n: nat :| Run(b, s, n) == Done(o');
      assert Finishes(a, s, Run(a, s, n).outcome);
    }
  }
}
