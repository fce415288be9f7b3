/** Several steps of a state machine, one after the other. */
module Traces {
  import opened Wrappers

  /** The state that steps lead to, if each can be taken. */
  function After<S, T>(next: (S, T) -> Option<S>, s: S, steps: seq<T>): Option<S> {
    if steps == [] then Some(s)
    else
      match After(next, s, steps[..|steps| - 1])
      case Some(mid) => next(mid, steps[|steps| - 1])
      case None => None
  }

  lemma AfterSnoc<S, T>(next: (S, T) -> Option<S>, s: S, steps: seq<T>, mid: S, step: T)
    requires After(next, s, steps) == Some(mid)
    ensures After(next, s, steps + [step]) == next(mid, step)
  {
    assert (steps + [step])[..|steps|] == steps;
  }

  lemma {:induction false} AfterJoins<S, T>(next: (S, T) -> Option<S>, s: S, a: seq<T>, mid: S, b: seq<T>)
    requires After(next, s, a) == Some(mid) && After(next, mid, b).Some?
    ensures After(next, s, a + b) == After(next, mid, b)
    decreases |b|
  {
    if b == [] {
      assert a + b == a;
    } else {
      var before, last := b[..|b| - 1], b[|b| - 1];
      AfterJoins(next, s, a, mid, before);
      assert a + b == (a + before) + [last];
      AfterSnoc(next, s, a + before, After(next, mid, before).value, last);
    }
  }

  predicate Leads<S(==), T>(next: (S, T) -> Option<S>, states: seq<S>, steps: seq<T>) {
    |states| == |steps| + 1 && forall k | 0 <= k < |steps| :: next(states[k], steps[k]) == Some(states[k + 1])
  }

  /** What steps lead to from the end of a run is the end of a longer run. */
  lemma {:induction false} RunExtends<S, T>(next: (S, T) -> Option<S>, states: seq<S>, steps: seq<T>, more: seq<T>)
      returns (longer: seq<S>)
    requires Leads(next, states, steps) && After(next, states[|states| - 1], more).Some?
    ensures Leads(next, longer, steps + more) && states <= longer
    ensures Some(longer[|longer| - 1]) == After(next, states[|states| - 1], more)
    decreases |more|
  {
    if more == [] {
      longer := states;
      assert steps + more == steps;
    } else {
      var before, last := more[..|more| - 1], more[|more| - 1];
      var shorter := RunExtends(next, states, steps, before);
      longer := shorter + [After(next, states[|states| - 1], more).value];
      assert steps + more == (steps + before) + [last];
    }
  }
}
