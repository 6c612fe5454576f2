/**
 * Runs of a transition system. A system is given by its step function, which is None where the
 * step is not enabled; concurrent components appear as steps that may come in any order.
 */
module Runs {
  import opened Wrappers

  /** The state after taking all of `steps`, or None when one of them is not enabled in its turn. */
  function Run<S, E>(next: (S, E) -> Option<S>, s: S, steps: seq<E>): Option<S>
    decreases |steps|
  {
    if steps == [] then Some(s)
    else
      match next(s, steps[0])
      case None => None
      case Some(t) => Run(next, t, steps[1..])
  }

  /** A property that every enabled step keeps holds at the end of every run. */
  lemma {:induction false} Keeps<S(!new), E(!new)>(
      next: (S, E) -> Option<S>, inv: S -> bool, s: S, steps: seq<E>)
    requires inv(s)
    requires forall t, e :: inv(t) && next(t, e).Some? ==> inv(next(t, e).value)
    ensures Run(next, s, steps).Some? ==> inv(Run(next, s, steps).value)
    decreases |steps|
  {
    if steps != [] && next(s, steps[0]).Some? {
      Keeps(next, inv, next(s, steps[0]).value, steps[1..]);
    }
  }

  /** A preorder that every enabled step respects relates the two ends of every run. */
  lemma {:induction false} Ordered<S(!new), E(!new)>(
      next: (S, E) -> Option<S>, inv: S -> bool, rel: (S, S) -> bool, s: S, steps: seq<E>)
    requires inv(s)
    requires forall t, e :: inv(t) && next(t, e).Some? ==> inv(next(t, e).value) && rel(t, next(t, e).value)
    requires forall t :: rel(t, t)
    requires forall t, u, v :: rel(t, u) && rel(u, v) ==> rel(t, v)
    ensures Run(next, s, steps).Some? ==>
              inv(Run(next, s, steps).value) && rel(s, Run(next, s, steps).value)
    decreases |steps|
  {
    if steps != [] && next(s, steps[0]).Some? {
      Ordered(next, inv, rel, next(s, steps[0]).value, steps[1..]);
    }
  }

  /** Running one sequence of steps after another is running their concatenation. */
  lemma {:induction false} Append<S, E>(next: (S, E) -> Option<S>, s: S, first: seq<E>, second: seq<E>)
    requires Run(next, s, first).Some?
    ensures Run(next, s, first + second) == Run(next, Run(next, s, first).value, second)
    decreases |first|
  {
    if first == [] {
      assert first + second == second;
    } else {
      assert (first + second)[1..] == first[1..] + second;
      Append(next, next(s, first[0]).value, first[1..], second);
    }
  }

  /** A run without its last step, and that step. */
  lemma RunLast<S, E>(next: (S, E) -> Option<S>, s: S, steps: seq<E>)
    requires steps != [] && Run(next, s, steps).Some?
    ensures Run(next, s, steps[..|steps| - 1]).Some?
    ensures next(Run(next, s, steps[..|steps| - 1]).value, steps[|steps| - 1]) == Run(next, s, steps)
  {
    var before, last := steps[..|steps| - 1], steps[|steps| - 1];
    assert steps == before + [last];
    PrefixRuns(next, s, before, [last]);
    Append(next, s, before, [last]);
    assert [last][1..] == [];
  }

  lemma {:induction false} PrefixRuns<S, E>(next: (S, E) -> Option<S>, s: S, first: seq<E>, second: seq<E>)
    requires Run(next, s, first + second).Some?
    ensures Run(next, s, first).Some?
    decreases |first|
  {
    if first != [] {
      assert (first + second)[1..] == first[1..] + second;
      PrefixRuns(next, next(s, first[0]).value, first[1..], second);
    }
  }

  /** The state comes up at the end of some run from a start state. */
  ghost predicate Reachable<S(!new), E(!new)>(
    next: (S, E) -> Option<S>, starts: S -> bool, s: S)
  {
    exists start, steps :: starts(start) && Run(next, start, steps) == Some(s)
  }

  lemma ReachableFromStart<S(!new), E(!new)>(next: (S, E) -> Option<S>, starts: S -> bool, s: S)
    requires starts(s)
    ensures Reachable(next, starts, s)
  {
    assert Run(next, s, []) == Some(s);
  }

  lemma ReachableByStep<S(!new), E(!new)>(next: (S, E) -> Option<S>, starts: S -> bool, s: S, e: E)
    requires Reachable(next, starts, s) && next(s, e).Some?
    ensures Reachable(next, starts, next(s, e).value)
  {
    var start, steps :| starts(start) && Run(next, start, steps) == Some(s);
    Append(next, start, steps, [e]);
    assert [e][1..] == [];
    assert Run(next, s, [e]) == Some(next(s, e).value);
  }

  /** The second state comes up at the end of some run from the first. */
  ghost predicate Leads<S(!new), E(!new)>(next: (S, E) -> Option<S>, s: S, t: S)
  {
    exists steps: seq<E> :: Run(next, s, steps) == Some(t)
  }

  lemma LeadsToItself<S(!new), E(!new)>(next: (S, E) -> Option<S>, s: S)
    ensures Leads(next, s, s)
  {
    assert Run(next, s, []) == Some(s);
  }

  lemma LeadsByStep<S(!new), E(!new)>(next: (S, E) -> Option<S>, s: S, t: S, e: E)
    requires Leads(next, s, t) && next(t, e).Some?
    ensures Leads(next, s, next(t, e).value)
  {
    var steps :| Run(next, s, steps) == Some(t);
    Append(next, s, steps, [e]);
    assert [e][1..] == [];
    assert Run(next, t, [e]) == Some(next(t, e).value);
  }

  lemma LeadsOn<S(!new), E(!new)>(next: (S, E) -> Option<S>, s: S, t: S, u: S)
    requires Leads(next, s, t) && Leads(next, t, u)
    ensures Leads(next, s, u)
  {
    var first :| Run(next, s, first) == Some(t);
    var second :| Run(next, t, second) == Some(u);
    Append(next, s, first, second);
  }

  lemma ReachableOn<S(!new), E(!new)>(next: (S, E) -> Option<S>, starts: S -> bool, s: S, t: S)
    requires Reachable(next, starts, s) && Leads(next, s, t)
    ensures Reachable(next, starts, t)
  {
    var start, first :| starts(start) && Run(next, start, first) == Some(s);
    var second :| Run(next, s, second) == Some(t);
    Append(next, start, first, second);
  }

  /** A run of a restricted system is a run of the whole. */
  lemma {:induction false} Unrestricted<S(!new), E(!new)>(
      part: (S, E) -> Option<S>, next: (S, E) -> Option<S>, s: S, steps: seq<E>)
    requires forall t, e :: part(t, e).Some? ==> part(t, e) == next(t, e)
    requires Run(part, s, steps).Some?
    ensures Run(next, s, steps) == Run(part, s, steps)
    decreases |steps|
  {
    if steps != [] {
      Unrestricted(part, next, part(s, steps[0]).value, steps[1..]);
    }
  }

  /** What every start state has and every step keeps, every reachable state has. */
  lemma Invariant<S(!new), E(!new)>(next: (S, E) -> Option<S>, starts: S -> bool, inv: S -> bool, s: S)
    requires forall start :: starts(start) ==> inv(start)
    requires forall t, e :: inv(t) && next(t, e).Some? ==> inv(next(t, e).value)
    requires Reachable(next, starts, s)
    ensures inv(s)
  {
    var start, steps :| starts(start) && Run(next, start, steps) == Some(s);
    Keeps(next, inv, start, steps);
  }

  /** The set holds every state that a step leads to from one of its own. */
  ghost predicate Closed<S(!new), E(!new)>(next: (S, E) -> Option<S>, r: S -> bool)
  {
    forall s, e :: r(s) && next(s, e).Some? ==> r(next(s, e).value)
  }

  lemma ReachableIsClosed<S(!new), E(!new)>(next: (S, E) -> Option<S>, starts: S -> bool)
    ensures Closed(next, s => Reachable(next, starts, s))
  {
    forall s, e | Reachable(next, starts, s) && next(s, e).Some?
      ensures Reachable(next, starts, next(s, e).value)
    {
      ReachableByStep(next, starts, s, e);
    }
  }

  lemma LeadsIsClosed<S(!new), E(!new)>(next: (S, E) -> Option<S>, s: S)
    ensures Closed(next, t => Leads(next, s, t))
  {
    forall t, e | Leads(next, s, t) && next(t, e).Some?
      ensures Leads(next, s, next(t, e).value)
    {
      LeadsByStep(next, s, t, e);
    }
  }

  /** One step further inside a closed set. */
  lemma Then<S(!new), E(!new)>(next: (S, E) -> Option<S>, r: S -> bool, s: S, e: E, t: S)
    requires Closed(next, r) && r(s) && next(s, e) == Some(t)
    ensures r(t)
  {
  }
}
