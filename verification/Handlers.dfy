/**
  Who did what. Every step of a server's goroutines is recorded under the number of the
  goroutine that took it, so that a handler can say exactly which steps were its own,
  whatever the others did in between.
 */
module Handlers {
  import opened Runs

  datatype By<E> = By(who: nat, e: E)

  /** The steps of goroutine `who`, in order. */
  function Own<E>(log: seq<By<E>>, who: nat): seq<E> {
    if |log| == 0 then []
    else
      var n := |log| - 1;
      Own(log[..n], who) + (if log[n].who == who then [log[n].e] else [])
  }

  function Events<E>(log: seq<By<E>>): seq<E> {
    seq(|log|, i requires 0 <= i < |log| => log[i].e)
  }

  /** The log is the whole history of `s`: nothing happened that it does not record. */
  ghost predicate Recorded<S, E>(step: (S, E) -> Option<S>, init: S, log: seq<By<E>>, s: S) {
    Run(step, init, Events(log)) == Some(s)
  }

  lemma NothingRecorded<S, E>(step: (S, E) -> Option<S>, init: S)
    ensures Recorded(step, init, [], init)
  {
    var none: seq<By<E>> := [];
    assert Events(none) == [];
  }

  lemma RecordedStep<S, E>(step: (S, E) -> Option<S>, init: S, log: seq<By<E>>, s: S, x: By<E>, t: S)
    requires Recorded(step, init, log, s) && step(s, x.e) == Some(t)
    ensures Recorded(step, init, log + [x], t)
  {
    RunThen(step, init, Events(log), s, x.e);
    assert Events(log + [x]) == Events(log) + [x.e];
  }

  /** Within a schedule: the run so far, and the run to come, at its i-th step. */
  lemma ScheduleAt<S, E>(step: (S, E) -> Option<S>, s: S, es: seq<By<E>>, i: nat, t: S, log: seq<By<E>>)
    requires i < |es| && Run(step, s, Events(es[..i])) == Some(t)
    ensures Run(step, s, Events(es[..i + 1])) == step(t, es[i].e)
    ensures Run(step, t, Events(es[i..])) ==
            if step(t, es[i].e).None? then None else Run(step, step(t, es[i].e).value, Events(es[i + 1..]))
    ensures log + es[..i] + [es[i]] == log + es[..i + 1]
  {
    assert Events(es[..i]) == Events(es)[..i] && Events(es[..i + 1]) == Events(es)[..i + 1];
    assert Events(es[i..]) == Events(es)[i..] && Events(es[i + 1..]) == Events(es)[i + 1..];
    RunAt(step, s, Events(es), i, t);
  }

  /** The log went from `l` to `m`, and of what was added, `own` is what goroutine `me` did. */
  ghost predicate Wrote<E>(l: seq<By<E>>, own: seq<E>, m: seq<By<E>>, me: nat) {
    l <= m && Own(m[|l|..], me) == own
  }

  lemma WroteNothing<E>(l: seq<By<E>>, me: nat)
    ensures Wrote(l, [], l, me)
  {
  }

  lemma WroteOne<E>(l: seq<By<E>>, me: nat, e: E)
    ensures Wrote(l, [e], l + [By(me, e)], me)
  {
    assert (l + [By(me, e)])[|l|..] == [By(me, e)];
    assert [By(me, e)][..0] == [];
  }

  lemma {:induction false} OthersWrote<E>(l: seq<By<E>>, es: seq<By<E>>, me: nat)
    requires forall i | 0 <= i < |es| :: es[i].who != me
    ensures Wrote(l, [], l + es, me)
  {
    assert (l + es)[|l|..] == es;
    OthersOwn(es, me);
  }

  lemma {:induction false} OthersOwn<E>(es: seq<By<E>>, me: nat)
    requires forall i | 0 <= i < |es| :: es[i].who != me
    ensures Own(es, me) == []
  {
    if |es| > 0 {
      OthersOwn(es[..|es| - 1], me);
    }
  }

  lemma {:induction false} OwnConcat<E>(l: seq<By<E>>, m: seq<By<E>>, me: nat)
    ensures Own(l + m, me) == Own(l, me) + Own(m, me)
  {
    if |m| == 0 {
      assert l + m == l;
    } else {
      var n := |m| - 1;
      assert (l + m)[..|l| + n] == l + m[..n];
      OwnConcat(l, m[..n], me);
    }
  }

  /** One stretch after another. */
  lemma WroteThen<E>(l: seq<By<E>>, own: seq<E>, m: seq<By<E>>, next: seq<E>, n: seq<By<E>>, me: nat)
    requires Wrote(l, own, m, me) && Wrote(m, next, n, me)
    ensures Wrote(l, own + next, n, me)
  {
    OwnConcat(m[|l|..], n[|m|..], me);
    assert n[|l|..] == m[|l|..] + n[|m|..];
  }

  // ----- a call in progress -----

  /** A call made by goroutine `me` when the log was `start`, and the steps it has taken so far. */
  datatype Call<E> = Call(me: nat, start: seq<By<E>>, own: seq<E>)

  ghost predicate SoFar<E>(c: Call<E>, log: seq<By<E>>) {
    Wrote(c.start, c.own, log, c.me)
  }

  function Then<E>(c: Call<E>, e: E): Call<E> {
    c.(own := c.own + [e])
  }

  lemma CallStarts<E>(me: nat, log: seq<By<E>>)
    ensures SoFar(Call(me, log, []), log)
  {
    WroteNothing(log, me);
  }

  lemma CallActs<E>(c: Call<E>, log: seq<By<E>>, e: E)
    requires SoFar(c, log)
    ensures SoFar(Then(c, e), log + [By(c.me, e)])
  {
    WroteOne(log, c.me, e);
    WroteThen(c.start, c.own, log, [e], log + [By(c.me, e)], c.me);
  }

  lemma CallWaits<E>(c: Call<E>, log: seq<By<E>>, es: seq<By<E>>)
    requires SoFar(c, log) && forall i | 0 <= i < |es| :: es[i].who != c.me
    ensures SoFar(c, log + es)
  {
    OthersWrote(log, es, c.me);
    WroteThen(c.start, c.own, log, [], log + es, c.me);
    assert c.own + [] == c.own;
  }

  // ----- selects -----

  /** What a select meets beside its channel: whether the context is done by then, and whether Go then picks that
      even though a value is ready too. */
  datatype Poll = Poll(done: bool, preferred: bool)

  /** A turn of a forwarding loop: its select, and whether the stream fails on what was received. */
  datatype Turn = Turn(poll: Poll, fails: bool)

  /** How a select ends, if it does. */
  datatype Outcome<T> = Obtained(v: T) | ContextEnded | NothingYet

  /** How a forwarding loop ends; Unseen if it goes on after the turns that were looked at. */
  datatype Ending = GaveUp | StreamFailed | StillWaiting | Unseen

  predicate GivesUp(p: Poll, ready: bool) {
    p.done && (p.preferred || !ready)
  }

  /** The select ends by the context only if that is done, and waits only if there is nothing to receive. */
  predicate Decided<T>(p: Poll, ready: bool, r: Outcome<T>) {
    if GivesUp(p, ready) then r.ContextEnded? else if ready then r.Obtained? else r.NothingYet?
  }

  /** No turn but the last of these ended the loop. */
  predicate WentOn(turns: seq<Turn>, n: nat) {
    n <= |turns| && forall i | 0 <= i < n :: !turns[i].fails && !(turns[i].poll.done && turns[i].poll.preferred)
  }

  /** The loop forwarded `n` values and ended as its turns say; `ready` says whether there was a value to receive
      when its last select ran. */
  predicate LoopEnded(turns: seq<Turn>, n: nat, ready: bool, ending: Ending) {
    && n <= |turns|
    && match ending
       case Unseen => n == |turns| && WentOn(turns, n)
       case StillWaiting => n < |turns| && WentOn(turns, n) && !turns[n].poll.done && !ready
       case GaveUp => n < |turns| && WentOn(turns, n) && GivesUp(turns[n].poll, ready)
       case StreamFailed =>
         && n > 0 && WentOn(turns, n - 1)
         && turns[n - 1].fails && !(turns[n - 1].poll.done && turns[n - 1].poll.preferred)
  }

  /** How a turn ends the loop, if it does. */
  function EndingOf<T>(turn: Turn, r: Outcome<T>): Ending {
    match r
    case ContextEnded => GaveUp
    case NothingYet => StillWaiting
    case Obtained(_) => if turn.fails then StreamFailed else Unseen
  }

  /** What a handler has received when its select has ended like this. */
  function Values<T>(r: Outcome<T>): seq<T> {
    if r.Obtained? then [r.v] else []
  }

  /** `ready` when the select ran, and `now` unless it received something. */
  lemma TurnEnds<T>(turns: seq<Turn>, n: nat, ready: bool, now: bool, r: Outcome<T>)
    requires n < |turns| && WentOn(turns, n) && Decided(turns[n].poll, ready, r) && (!r.Obtained? ==> now == ready)
    ensures var ending, m := EndingOf(turns[n], r), n + |Values(r)|;
            if ending.Unseen? then m == n + 1 && WentOn(turns, m) else LoopEnded(turns, m, now, ending)
  {
  }

  /** What was added to the log is a run of all goroutines together, and `own` are the caller's steps in it. */
  lemma WroteRun<S, E>(step: (S, E) -> Option<S>, init: S, l: seq<By<E>>, s: S, own: seq<E>, m: seq<By<E>>, t: S,
                       me: nat)
    requires Recorded(step, init, l, s) && Recorded(step, init, m, t) && Wrote(l, own, m, me)
    ensures Run(step, s, Events(m[|l|..])) == Some(t) && Own(m[|l|..], me) == own
  {
    RunConcat(step, init, Events(l), s, Events(m[|l|..]));
    assert Events(m) == Events(l) + Events(m[|l|..]);
  }
}
