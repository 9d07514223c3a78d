/**
  Runs of a concurrent system. A component is a step function: given a state and
  an event it yields the next state, or None when the event is not enabled. A
  run is any finite schedule of enabled events, so a statement about all runs is
  a statement about all interleavings.
 */
module Runs {

  datatype Option<+T> = None | Some(value: T)

  /** The state that the events `es` lead to from `s`, or None if one of them is not enabled. */
  function Run<S, E>(step: (S, E) -> Option<S>, s: S, es: seq<E>): Option<S>
    decreases |es|
  {
    if |es| == 0 then Some(s)
    else
      var next := step(s, es[0]);
      if next.None? then None else Run(step, next.value, es[1..])
  }

  ghost predicate Preserves<S(!new), E(!new)>(step: (S, E) -> Option<S>, inv: S -> bool) {
    forall s, e :: inv(s) && step(s, e).Some? ==> inv(step(s, e).value)
  }

  /** What every step keeps, every run keeps. */
  lemma {:induction false} RunKeeps<S(!new), E(!new)>(step: (S, E) -> Option<S>, inv: S -> bool, s: S, es: seq<E>)
    requires Preserves(step, inv)
    requires inv(s) && Run(step, s, es).Some?
    ensures inv(Run(step, s, es).value)
    decreases |es|
  {
    if |es| > 0 {
      var next := step(s, es[0]);
      assert inv(next.value);
      RunKeeps(step, inv, next.value, es[1..]);
    }
  }

  /** A run followed by one more event. */
  lemma {:induction false} RunThen<S, E>(step: (S, E) -> Option<S>, s: S, es: seq<E>, t: S, e: E)
    requires Run(step, s, es) == Some(t)
    ensures Run(step, s, es + [e]) == step(t, e)
    decreases |es|
  {
    if |es| == 0 {
      assert Run(step, t, [e]) == step(t, e);
      assert es + [e] == [e];
    } else {
      assert (es + [e])[0] == es[0] && (es + [e])[1..] == es[1..] + [e];
      RunThen(step, step(s, es[0]).value, es[1..], t, e);
    }
  }

  /** Within a schedule: the run so far, and the run to come, at its i-th event. */
  lemma RunAt<S, E>(step: (S, E) -> Option<S>, s: S, es: seq<E>, i: nat, t: S)
    requires i < |es| && Run(step, s, es[..i]) == Some(t)
    ensures Run(step, s, es[..i + 1]) == step(t, es[i])
    ensures Run(step, t, es[i..]) == if step(t, es[i]).None? then None else Run(step, step(t, es[i]).value, es[i + 1..])
  {
    assert es[i..][0] == es[i] && es[i..][1..] == es[i + 1..];
    assert es[..i + 1] == es[..i] + [es[i]];
    RunThen(step, s, es[..i], t, es[i]);
  }

  /** One run after another. */
  lemma {:induction false} RunConcat<S, E>(step: (S, E) -> Option<S>, s: S, es: seq<E>, t: S, fs: seq<E>)
    requires Run(step, s, es) == Some(t)
    ensures Run(step, s, es + fs) == Run(step, t, fs)
    decreases |es|
  {
    if |es| == 0 {
      assert es + fs == fs;
    } else {
      assert (es + fs)[0] == es[0] && (es + fs)[1..] == es[1..] + fs;
      RunConcat(step, step(s, es[0]).value, es[1..], t, fs);
    }
  }

  /** The last event of a run. */
  lemma {:induction false} RunLast<S, E>(step: (S, E) -> Option<S>, s: S, es: seq<E>, t: S) returns (u: S)
    requires |es| > 0 && Run(step, s, es) == Some(t)
    ensures Run(step, s, es[..|es| - 1]) == Some(u) && step(u, es[|es| - 1]) == Some(t)
    decreases |es|
  {
    var n := |es| - 1;
    if n == 0 {
      u := s;
      assert es[1..] == [];
    } else {
      u := RunLast(step, step(s, es[0]).value, es[1..], t);
      assert es[..n][0] == es[0] && es[..n][1..] == es[1..][..n - 1];
    }
  }

  function Count<E(==)>(es: seq<E>, e: E): nat {
    if |es| == 0 then 0 else Count(es[..|es| - 1], e) + if es[|es| - 1] == e then 1 else 0
  }

  /** Each event could happen after those before it, when `can` says what can happen after a history. */
  ghost predicate Allowed<E>(can: (seq<E>, E) -> bool, es: seq<E>) {
    |es| == 0 || (Allowed(can, es[..|es| - 1]) && can(es[..|es| - 1], es[|es| - 1]))
  }

  /** `can` says, of the events of a run only, which steps are possible then. */
  ghost predicate Characterizes<S(!new), E(!new)>(can: (seq<E>, E) -> bool, step: (S, E) -> Option<S>, init: S) {
    forall es, s, e | Run(step, init, es) == Some(s) :: can(es, e) <==> step(s, e).Some?
  }

  /** The runs are then exactly the schedules in which each event could happen when it did. */
  lemma {:induction false} RunsAreAllowed<S(!new), E(!new)>(can: (seq<E>, E) -> bool, step: (S, E) -> Option<S>,
                                                           init: S, es: seq<E>)
    requires Characterizes(can, step, init)
    ensures Run(step, init, es).Some? <==> Allowed(can, es)
  {
    if |es| > 0 {
      var n := |es| - 1;
      RunsAreAllowed(can, step, init, es[..n]);
      if Run(step, init, es).Some? {
        var t := RunLast(step, init, es, Run(step, init, es).value);
        assert can(es[..n], es[n]);
      } else if Run(step, init, es[..n]).Some? {
        var t := Run(step, init, es[..n]).value;
        RunThen(step, init, es[..n], t, es[n]);
        assert es[..n] + [es[n]] == es;
        assert !can(es[..n], es[n]);
      }
    }
  }

  /** A run taken one event further. */
  lemma Extend<S, E>(step: (S, E) -> Option<S>, init: S, es: seq<E>, s: S, e: E) returns (es': seq<E>, s': S)
    requires Run(step, init, es) == Some(s) && step(s, e).Some?
    ensures es' == es + [e] && s' == step(s, e).value
    ensures Run(step, init, es') == Some(s')
  {
    es', s' := es + [e], step(s, e).value;
    RunThen(step, init, es, s, e);
  }
}
