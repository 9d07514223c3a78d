/**
  The offerer's side as the Go code has it: two maps of unbuffered channels under one
  lock, their routers and handlers, and the clean-ups that SendOffer starts. The
  waiting handlers are whole methods: between two of a handler's own steps any other
  goroutine may take steps on both maps, and a select that finds no value ends with
  the context.
 */
module OffererServers {
  import opened Runs
  import opened Packets
  import opened Handlers
  import opened RendezvousTables
  import N = NonCreatingRouter
  import F = CandidateStreams

  // ----- both tables and the clean-ups as one state -----

  datatype State = Tables(answers: N.State<string>, ice: N.State<F.Candidate>, timers: set<Key>)

  datatype Event =
    | Register(id: Key)                    // SendOffer's locked section, and the clean-up it starts
    | Cleanup(id: Key)
    | AnswersStep(a: N.Event<string>)
    | IceStep(c: N.Event<F.Candidate>)

  function Init(): State {
    Tables(N.Init(true), N.Init(false), {})
  }

  function Step(s: State, e: Event): Option<State> {
    match e
    case Register(id) =>
      var a, c := N.Step(s.answers, N.Mint(id)), N.Step(s.ice, N.Mint(id));
      if a.Some? && c.Some? then Some(Tables(a.value, c.value, s.timers + {id})) else None
    case Cleanup(id) =>
      var a, c := N.Step(s.answers, N.Delete(id)), N.Step(s.ice, N.Delete(id));
      if id in s.timers && a.Some? && c.Some? then Some(Tables(a.value, c.value, s.timers - {id})) else None
    case AnswersStep(n) =>
      var t := N.Step(s.answers, n);
      if !n.Mint? && !n.Delete? && t.Some? then Some(s.(answers := t.value)) else None
    case IceStep(n) =>
      var t := N.Step(s.ice, n);
      if !n.Mint? && t.Some? then Some(s.(ice := t.value)) else None
  }

  /** An id is mapped for answers exactly while its clean-up is pending, and for candidates at most that long. */
  ghost predicate Lifecycle(s: State) {
    && s.answers.slots.Keys == s.ice.slots.Keys
    && s.answers.live == s.timers && s.ice.live <= s.timers <= s.answers.slots.Keys
  }

  ghost predicate Inv(s: State) {
    && N.Inv(s.answers) && s.answers.oneShot && N.Inv(s.ice) && !s.ice.oneShot && Lifecycle(s)
  }

  lemma InvInit()
    ensures Inv(Init())
  {
    N.InvInit<string>(true);
    N.InvInit<F.Candidate>(false);
  }

  /** What one step does to the keys of a table. */
  lemma StepKeys<T>(s: N.State<T>, e: N.Event<T>)
    requires N.Step(s, e).Some?
    ensures var t := N.Step(s, e).value;
            && t.oneShot == s.oneShot
            && t.slots.Keys == s.slots.Keys + (if e.Mint? then {e.key} else {})
            && t.live == (if e.Mint? then s.live + {e.key} else if e.Delete? then s.live - {e.key} else s.live)
  {
    if e.HandOver? {
      assert N.Step(s, e).value.slots.Keys == s.slots.Keys;
    }
  }

  lemma InvStep(s: State, e: Event)
    requires Inv(s) && Step(s, e).Some?
    ensures Inv(Step(s, e).value)
  {
    match e {
      case Register(id) => BothStep(s, N.Mint(id), N.Mint(id));
      case Cleanup(id) => BothStep(s, N.Delete(id), N.Delete(id));
      case AnswersStep(n) =>
        N.InvStep(s.answers, n);
        StepKeys(s.answers, n);
      case IceStep(n) =>
        N.InvStep(s.ice, n);
        StepKeys(s.ice, n);
    }
  }

  lemma BothStep(s: State, a: N.Event<string>, c: N.Event<F.Candidate>)
    requires Inv(s) && N.Step(s.answers, a).Some? && N.Step(s.ice, c).Some?
    ensures N.Inv(N.Step(s.answers, a).value) && N.Inv(N.Step(s.ice, c).value)
    ensures N.Step(s.answers, a).value.oneShot && !N.Step(s.ice, c).value.oneShot
  {
    N.InvStep(s.answers, a);
    N.InvStep(s.ice, c);
    StepKeys(s.answers, a);
    StepKeys(s.ice, c);
  }

  // What the objects do, one region at a time, is a step of both tables.

  lemma AnswersMove(s: State, n: N.Event<string>, a: N.State<string>)
    requires Inv(s) && !n.Mint? && !n.Delete? && N.Step(s.answers, n) == Some(a)
    ensures Step(s, AnswersStep(n)) == Some(Tables(a, s.ice, s.timers)) && Inv(Tables(a, s.ice, s.timers))
  {
    InvStep(s, AnswersStep(n));
  }

  lemma AnswersStuck(s: State, n: N.Event<string>)
    requires N.Step(s.answers, n).None?
    ensures Step(s, AnswersStep(n)).None?
  {
  }

  lemma IceStuck(s: State, n: N.Event<F.Candidate>)
    requires N.Step(s.ice, n).None?
    ensures Step(s, IceStep(n)).None?
  {
  }

  lemma IceMove(s: State, n: N.Event<F.Candidate>, c: N.State<F.Candidate>)
    requires Inv(s) && !n.Mint? && N.Step(s.ice, n) == Some(c)
    ensures Step(s, IceStep(n)) == Some(Tables(s.answers, c, s.timers)) && Inv(Tables(s.answers, c, s.timers))
  {
    InvStep(s, IceStep(n));
  }

  lemma RegisterMove(s: State, id: Key, a: N.State<string>, c: N.State<F.Candidate>)
    requires Inv(s) && N.Step(s.answers, N.Mint(id)) == Some(a) && N.Step(s.ice, N.Mint(id)) == Some(c)
    ensures Step(s, Register(id)) == Some(Tables(a, c, s.timers + {id})) && Inv(Tables(a, c, s.timers + {id}))
  {
    InvStep(s, Register(id));
  }

  lemma CleanupMove(s: State, id: Key, a: N.State<string>, c: N.State<F.Candidate>)
    requires Inv(s) && id in s.timers
    requires N.Step(s.answers, N.Delete(id)) == Some(a) && N.Step(s.ice, N.Delete(id)) == Some(c)
    ensures Step(s, Cleanup(id)) == Some(Tables(a, c, s.timers - {id})) && Inv(Tables(a, c, s.timers - {id}))
  {
    InvStep(s, Cleanup(id));
  }

  /** When a handler's steps are possible. */
  lemma WhenPossible(s: State, h: nat, id: Key)
    ensures Step(s, AnswersStep(N.Acquire(id))).Some? <==> id in s.answers.live
    ensures Step(s, IceStep(N.Acquire(id))).Some? <==> id in s.ice.live
    ensures Step(s, AnswersStep(N.Leave(h))).Some? <==> h < |s.answers.refs|
    ensures Step(s, IceStep(N.Leave(h))).Some? <==> h < |s.ice.refs|
    ensures Step(s, IceStep(N.Delete(id))).Some?
  {
  }

  lemma WhenMet(s: State, h: nat, id: Key)
    requires Inv(s)
    ensures h < |s.answers.refs| && s.answers.refs[h] == id && h !in s.answers.left && N.Holds(s.answers.hand, id) ==>
              Step(s, AnswersStep(N.HandOver(h))).Some?
    ensures h < |s.ice.refs| && s.ice.refs[h] == id && h !in s.ice.left && N.Holds(s.ice.hand, id) ==>
              Step(s, IceStep(N.HandOver(h))).Some?
  {
  }

  // ----- what one handler keeps while the others run -----

  /** The steps that only the handler `h` of the answer table takes. */
  predicate OfAnswerHandler(h: nat, e: Event) {
    e == AnswersStep(N.HandOver(h)) || e == AnswersStep(N.Leave(h))
  }

  predicate OfIceHandler(h: nat, e: Event) {
    e == IceStep(N.HandOver(h)) || e == IceStep(N.Leave(h))
  }

  function AnswerSteps(h: nat): Event -> bool {
    e => OfAnswerHandler(h, e)
  }

  function IceSteps(h: nat): Event -> bool {
    e => OfIceHandler(h, e)
  }

  /** The event's step on the answer table, if it is one. */
  function OnAnswers(e: Event): Option<N.Event<string>> {
    match e
    case Register(id) => Some(N.Mint(id))
    case Cleanup(id) => Some(N.Delete(id))
    case AnswersStep(n) => Some(n)
    case IceStep(_) => None
  }

  function OnIce(e: Event): Option<N.Event<F.Candidate>> {
    match e
    case Register(id) => Some(N.Mint(id))
    case Cleanup(id) => Some(N.Delete(id))
    case AnswersStep(_) => None
    case IceStep(n) => Some(n)
  }

  lemma AnswerHandlerStep(s: State, e: Event, h: nat)
    requires Inv(s) && h < |s.answers.refs| && Step(s, e).Some? && !OfAnswerHandler(h, e)
    ensures Inv(Step(s, e).value) && N.SameHandler(s.answers, Step(s, e).value.answers, h)
  {
    InvStep(s, e);
    if OnAnswers(e).Some? {
      N.ReceivedStep(s.answers, OnAnswers(e).value, h);
      N.StepKeepsHandler(s.answers, OnAnswers(e).value, h);
    }
  }

  lemma {:induction false} AnswerHandlerKept(s: State, es: seq<Event>, t: State, h: nat)
    requires Inv(s) && h < |s.answers.refs| && Run(Step, s, es) == Some(t)
    requires forall i | 0 <= i < |es| :: !OfAnswerHandler(h, es[i])
    ensures Inv(t) && N.SameHandler(s.answers, t.answers, h)
    decreases |es|
  {
    if |es| > 0 {
      AnswerHandlerStep(s, es[0], h);
      AnswerHandlerKept(Step(s, es[0]).value, es[1..], t, h);
    }
  }

  lemma IceHandlerStep(s: State, e: Event, h: nat)
    requires Inv(s) && h < |s.ice.refs| && Step(s, e).Some? && !OfIceHandler(h, e)
    ensures Inv(Step(s, e).value) && N.SameHandler(s.ice, Step(s, e).value.ice, h)
  {
    InvStep(s, e);
    if OnIce(e).Some? {
      N.ReceivedStep(s.ice, OnIce(e).value, h);
      N.StepKeepsHandler(s.ice, OnIce(e).value, h);
    }
  }

  lemma {:induction false} IceHandlerKept(s: State, es: seq<Event>, t: State, h: nat)
    requires Inv(s) && h < |s.ice.refs| && Run(Step, s, es) == Some(t)
    requires forall i | 0 <= i < |es| :: !OfIceHandler(h, es[i])
    ensures Inv(t) && N.SameHandler(s.ice, t.ice, h)
    decreases |es|
  {
    if |es| > 0 {
      IceHandlerStep(s, es[0], h);
      IceHandlerKept(Step(s, es[0]).value, es[1..], t, h);
    }
  }

  // ----- the states of a handler -----

  /** Handler `h` of the answer table looked `id` up, has been handed `vs`, and waits for more or has returned. */
  ghost predicate AnswerHandler(s: State, h: nat, id: Key, vs: seq<string>, waiting: bool)
    requires Inv(s)
  {
    && h < |s.answers.refs| && s.answers.refs[h] == id
    && N.ReceivedBy(s.answers, h) == vs && (waiting <==> h !in s.answers.left)
  }

  ghost predicate IceHandler(s: State, h: nat, id: Key, vs: seq<F.Candidate>, waiting: bool)
    requires Inv(s)
  {
    && h < |s.ice.refs| && s.ice.refs[h] == id
    && N.ReceivedBy(s.ice, h) == vs && (waiting <==> h !in s.ice.left)
  }

  /** The router waits to hand a value over on the channel that handler `h` looked up. */
  predicate AnswerReady(s: State, h: nat) {
    h < |s.answers.refs| && N.Holds(s.answers.hand, s.answers.refs[h])
  }

  predicate CandidateReady(s: State, h: nat) {
    h < |s.ice.refs| && N.Holds(s.ice.hand, s.ice.refs[h])
  }

  /** How the select of a WaitForAnswer call ends, as a step. */
  function SelectStep(h: nat, r: Outcome<string>): Event
    requires !r.NothingYet?
  {
    AnswersStep(if r.Obtained? then N.HandOver(h) else N.Leave(h))
  }

  /** The select ran when the log was `before` and the state `at`: it received the answer that the router held there,
      unless the context was done and Go preferred that; it ended with the context only if that was done; and it
      waits only if the router held nothing for it. */
  ghost predicate AnswerPolled(poll: Poll, me: nat, h: nat, r: Outcome<string>, before: seq<By<Event>>, at: State,
                               log: seq<By<Event>>)
  {
    && Recorded(Step, Init(), before, at) && Decided(poll, AnswerReady(at, h), r)
    && (r.Obtained? ==> r.v == at.answers.hand.p.body)
    && (if r.NothingYet? then before == log else before + [By(me, SelectStep(h, r))] <= log)
  }

  /** The steps of one WaitForAnswer call. */
  function AnswerCall(id: Key, h: nat, r: Outcome<string>): seq<Event> {
    [AnswersStep(N.Acquire(id))] + (if r.NothingYet? then [] else [SelectStep(h, r)])
  }

  lemma AnswerHandlerBegins(s: State, id: Key, t: State)
    requires Inv(s) && Step(s, AnswersStep(N.Acquire(id))) == Some(t)
    ensures Inv(t) && AnswerHandler(t, |s.answers.refs|, id, [], true)
  {
    InvStep(s, AnswersStep(N.Acquire(id)));
    N.ReceivedNothing(s.answers, id);
  }

  lemma AnswerHandlerReceives(s: State, h: nat, id: Key, t: State)
    requires Inv(s) && AnswerHandler(s, h, id, [], true) && Step(s, AnswersStep(N.HandOver(h))) == Some(t)
    ensures s.answers.hand.Holding? && Inv(t) && AnswerHandler(t, h, id, [s.answers.hand.p.body], false)
    ensures Packet(id, s.answers.hand.p.body) in t.answers.consumed
  {
    InvStep(s, AnswersStep(N.HandOver(h)));
    N.ReceivedStep(s.answers, N.HandOver(h), h);
    N.ReceivedForKey(t.answers, h, s.answers.hand.p.body);
  }

  lemma AnswerHandlerLeaves(s: State, h: nat, id: Key, t: State)
    requires Inv(s) && AnswerHandler(s, h, id, [], true) && Step(s, AnswersStep(N.Leave(h))) == Some(t)
    ensures Inv(t) && AnswerHandler(t, h, id, [], false)
  {
    InvStep(s, AnswersStep(N.Leave(h)));
    N.ReceivedStep(s.answers, N.Leave(h), h);
  }

  function HandOvers(h: nat, n: nat): seq<Event> {
    seq(n, _ => IceStep(N.HandOver(h)))
  }

  /** The steps of one WaitForICECandidate call that forwards `n` candidates, and those after its loop if that has
      ended; the last one only if its send on closeIceToAnsCh was received. */
  function IceCall(id: Key, h: nat, n: nat, ended: bool, received: bool): seq<Event> {
    [IceStep(N.Acquire(id))] + HandOvers(h, n) +
    (if !ended then [] else [IceStep(N.Leave(h))] + (if received then [IceStep(N.Delete(id))] else []))
  }

  predicate LoopLeft(ending: Ending) {
    ending.GaveUp? || ending.StreamFailed?
  }

  /** The loop's last select ran when the log was `before` and the state `at`; when the loop has ended, the handler's
      return follows at once. */
  ghost predicate LoopPolled(turns: seq<Turn>, me: nat, h: nat, n: nat, ending: Ending, before: seq<By<Event>>,
                             at: State, log: seq<By<Event>>)
  {
    && Recorded(Step, Init(), before, at) && LoopEnded(turns, n, CandidateReady(at, h), ending)
    && (if LoopLeft(ending) then before + [By(me, IceStep(N.Leave(h)))] <= log else before == log)
  }

  function Forwarded(c: Call<Event>, h: nat, n: nat): Call<Event> {
    c.(own := c.own + HandOvers(h, n))
  }

  function Ended(c: Call<Event>, h: nat, id: Key, deleted: bool): Call<Event> {
    if deleted then Then(Then(c, IceStep(N.Leave(h))), IceStep(N.Delete(id))) else Then(c, IceStep(N.Leave(h)))
  }

  lemma ForwardedNone(c: Call<Event>, h: nat)
    ensures Forwarded(c, h, 0) == c
  {
  }

  lemma ForwardedOneMore(c: Call<Event>, h: nat, n: nat)
    ensures Then(Forwarded(c, h, n), IceStep(N.HandOver(h))) == Forwarded(c, h, n + 1)
  {
  }

  lemma AnswerCallDone(me: nat, start: seq<By<Event>>, id: Key, h: nat, r: Outcome<string>)
    ensures var c := Then(Call(me, start, []), AnswersStep(N.Acquire(id)));
            (if r.NothingYet? then c else Then(c, SelectStep(h, r))) == Call(me, start, AnswerCall(id, h, r))
  {
    assert [] + [AnswersStep(N.Acquire(id))] == [AnswersStep(N.Acquire(id))];
  }

  lemma AcquiredOnly(me: nat, start: seq<By<Event>>, id: Key)
    ensures Then(Call(me, start, []), AnswersStep(N.Acquire(id))) == Call(me, start, [AnswersStep(N.Acquire(id))])
  {
  }

  lemma IceCallDone(me: nat, start: seq<By<Event>>, id: Key, h: nat, n: nat, received: bool)
    ensures var c := Forwarded(Then(Call(me, start, []), IceStep(N.Acquire(id))), h, n);
            && c == Call(me, start, IceCall(id, h, n, false, received))
            && Ended(c, h, id, received) == Call(me, start, IceCall(id, h, n, true, received))
  {
    assert [] + [IceStep(N.Acquire(id))] == [IceStep(N.Acquire(id))];
  }

  lemma IceHandlerBegins(s: State, id: Key, t: State)
    requires Inv(s) && Step(s, IceStep(N.Acquire(id))) == Some(t)
    ensures Inv(t) && IceHandler(t, |s.ice.refs|, id, [], true)
  {
    InvStep(s, IceStep(N.Acquire(id)));
    N.ReceivedNothing(s.ice, id);
  }

  lemma IceHandlerReceives(s: State, h: nat, id: Key, vs: seq<F.Candidate>, t: State)
    requires Inv(s) && IceHandler(s, h, id, vs, true) && Step(s, IceStep(N.HandOver(h))) == Some(t)
    ensures s.ice.hand.Holding? && Inv(t) && IceHandler(t, h, id, vs + [s.ice.hand.p.body], true)
  {
    InvStep(s, IceStep(N.HandOver(h)));
    N.ReceivedStep(s.ice, N.HandOver(h), h);
  }

  lemma IceHandlerLeaves(s: State, h: nat, id: Key, vs: seq<F.Candidate>, t: State)
    requires Inv(s) && IceHandler(s, h, id, vs, true) && Step(s, IceStep(N.Leave(h))) == Some(t)
    ensures Inv(t) && IceHandler(t, h, id, vs, false)
  {
    InvStep(s, IceStep(N.Leave(h)));
    N.ReceivedStep(s.ice, N.Leave(h), h);
  }

  lemma IceHandlerDeletes(s: State, h: nat, id: Key, vs: seq<F.Candidate>, t: State)
    requires Inv(s) && IceHandler(s, h, id, vs, false) && Step(s, IceStep(N.Delete(id))) == Some(t)
    ensures Inv(t) && IceHandler(t, h, id, vs, false) && id !in t.ice.live
  {
    InvStep(s, IceStep(N.Delete(id)));
    N.ReceivedStep(s.ice, N.Delete(id), h);
  }

  /** Whatever a handler has been handed was sent for its id. */
  lemma IceHandlerForId(s: State, h: nat, id: Key, vs: seq<F.Candidate>, waiting: bool)
    requires Inv(s) && IceHandler(s, h, id, vs, waiting)
    ensures forall v | v in vs :: Packet(id, v) in s.ice.consumed
  {
    forall v | v in vs ensures Packet(id, v) in s.ice.consumed {
      N.ReceivedForKey(s.ice, h, v);
    }
  }

  class OffererServer {
    const answers: RendezvousTable<string>
    const ice: RendezvousTable<F.Candidate>
    var timers: set<Key>                         // clean-ups still asleep
    ghost var state: State
    ghost var log: seq<By<Event>>                // every step so far, and who took it

    ghost predicate TablesValid()
      reads this, answers, ice
    {
      answers.Valid() && ice.Valid() && answers as object != ice
    }

    ghost predicate Valid()
      reads this, answers, ice
    {
      && TablesValid() && state == Tables(answers.View(), ice.View(), timers)
      && Inv(state) && Recorded(Step, Init(), log, state)
    }

    constructor ()
      ensures Valid() && fresh(answers) && fresh(ice) && state == Init() && log == []
    {
      answers := new RendezvousTable<string>(true);
      ice := new RendezvousTable<F.Candidate>(false);
      timers, state, log := {}, Init(), [];
      new;
      InvInit();
      NothingRecorded(Step, Init());
    }

    /** Takes over the new state of the tables, and records the step that led there. */
    ghost method Record(who: nat, e: Event, t: State)
      requires TablesValid() && t == Tables(answers.View(), ice.View(), timers) && Inv(t)
      requires Recorded(Step, Init(), log, state) && Step(state, e) == Some(t)
      modifies this`state, this`log
      ensures Valid() && state == t && log == old(log) + [By(who, e)]
    {
      RecordedStep(Step, Init(), log, state, By(who, e), t);
      state, log := t, log + [By(who, e)];
    }

    // ----- one step of goroutine `who` -----

    /** The other table does not notice. */
    method RunAnswers(n: N.Event<string>, ghost a: N.State<string>, ghost c: N.State<F.Candidate>)
      returns (ok: bool, ghost t: N.State<string>)
      requires TablesValid() && a == answers.View() && c == ice.View()
      modifies answers
      ensures TablesValid() && answers.View() == t && ice.View() == c
      ensures N.Step(a, n) == (if ok then Some(t) else None) && (!ok ==> t == a)
    {
      ok := answers.Execute(n);
      t := answers.View();
    }

    method MoveAnswers(n: N.Event<string>, ghost s: State) returns (ok: bool, ghost t: State)
      requires TablesValid() && s == Tables(answers.View(), ice.View(), timers) && Inv(s) && !n.Mint? && !n.Delete?
      modifies answers
      ensures TablesValid() && t == Tables(answers.View(), ice.View(), timers) && Inv(t)
      ensures Step(s, AnswersStep(n)) == (if ok then Some(t) else None) && (!ok ==> t == s)
    {
      ghost var a;
      ok, a := RunAnswers(n, s.answers, s.ice);
      t := Tables(a, s.ice, s.timers);
      if ok {
        AnswersMove(s, n, a);
      } else {
        AnswersStuck(s, n);
      }
    }

    method ExecuteAnswers(who: nat, n: N.Event<string>) returns (ok: bool)
      requires Valid() && !n.Mint? && !n.Delete?
      modifies this, answers, ice
      ensures Valid() && Step(old(state), AnswersStep(n)) == if ok then Some(state) else None
      ensures if ok then log == old(log) + [By(who, AnswersStep(n))] else state == old(state) && log == old(log)
    {
      ghost var t;
      ok, t := MoveAnswers(n, state);
      if ok {
        Record(who, AnswersStep(n), t);
      }
    }

    /** The other table does not notice. */
    method RunIce(n: N.Event<F.Candidate>, ghost a: N.State<string>, ghost c: N.State<F.Candidate>)
      returns (ok: bool, ghost t: N.State<F.Candidate>)
      requires TablesValid() && a == answers.View() && c == ice.View()
      modifies ice
      ensures TablesValid() && ice.View() == t && answers.View() == a
      ensures N.Step(c, n) == (if ok then Some(t) else None) && (!ok ==> t == c)
    {
      ok := ice.Execute(n);
      t := ice.View();
    }

    method MoveIce(n: N.Event<F.Candidate>, ghost s: State) returns (ok: bool, ghost t: State)
      requires TablesValid() && s == Tables(answers.View(), ice.View(), timers) && Inv(s) && !n.Mint?
      modifies ice
      ensures TablesValid() && t == Tables(answers.View(), ice.View(), timers) && Inv(t)
      ensures Step(s, IceStep(n)) == (if ok then Some(t) else None) && (!ok ==> t == s)
    {
      ghost var c;
      ok, c := RunIce(n, s.answers, s.ice);
      t := Tables(s.answers, c, s.timers);
      if ok {
        IceMove(s, n, c);
      } else {
        IceStuck(s, n);
      }
    }

    method ExecuteIce(who: nat, n: N.Event<F.Candidate>) returns (ok: bool)
      requires Valid() && !n.Mint?
      modifies this, answers, ice
      ensures Valid() && Step(old(state), IceStep(n)) == if ok then Some(state) else None
      ensures if ok then log == old(log) + [By(who, IceStep(n))] else state == old(state) && log == old(log)
    {
      ghost var t;
      ok, t := MoveIce(n, state);
      if ok {
        Record(who, IceStep(n), t);
      }
    }

    /** SendOffer's locked section: both channels of a new id, and one clean-up for both. */
    method RegisterId(who: nat, id: Key)
      requires Valid() && id !in state.answers.slots
      modifies this, answers, ice
      ensures Valid() && Step(old(state), Register(id)) == Some(state)
      ensures log == old(log) + [By(who, Register(id))]
    {
      ghost var t := MoveRegister(id, state);
      Record(who, Register(id), t);
    }

    method MoveRegister(id: Key, ghost s: State) returns (ghost t: State)
      requires TablesValid() && s == Tables(answers.View(), ice.View(), timers) && Inv(s) && id !in s.answers.slots
      modifies this`timers, answers, ice
      ensures TablesValid() && t == Tables(answers.View(), ice.View(), timers) && Inv(t)
      ensures Step(s, Register(id)) == Some(t)
    {
      ghost var a, c := MintBoth(id, s.answers, s.ice);
      RegisterMove(s, id, a, c);
      timers := timers + {id};
      t := Tables(a, c, timers);
    }

    method MintBoth(id: Key, ghost a: N.State<string>, ghost c: N.State<F.Candidate>)
      returns (ghost a': N.State<string>, ghost c': N.State<F.Candidate>)
      requires TablesValid() && a == answers.View() && c == ice.View() && id !in a.slots && id !in c.slots
      modifies answers, ice
      ensures TablesValid() && answers.View() == a' && ice.View() == c'
      ensures N.Step(a, N.Mint(id)) == Some(a') && N.Step(c, N.Mint(id)) == Some(c')
    {
      ice.Mint(id);
      answers.Mint(id);
      a', c' := answers.View(), ice.View();
    }

    /** The clean-up wakes up and deletes its id from both maps. */
    method CleanupFired(who: nat, id: Key)
      requires Valid() && id in timers
      modifies this, answers, ice
      ensures Valid() && Step(old(state), Cleanup(id)) == Some(state)
      ensures log == old(log) + [By(who, Cleanup(id))]
    {
      ghost var t := MoveCleanup(id, state);
      Record(who, Cleanup(id), t);
    }

    method MoveCleanup(id: Key, ghost s: State) returns (ghost t: State)
      requires TablesValid() && s == Tables(answers.View(), ice.View(), timers) && Inv(s) && id in timers
      modifies this`timers, answers, ice
      ensures TablesValid() && t == Tables(answers.View(), ice.View(), timers) && Inv(t)
      ensures Step(s, Cleanup(id)) == Some(t)
    {
      ghost var a, c := DeleteBoth(id, s.answers, s.ice);
      CleanupMove(s, id, a, c);
      timers := timers - {id};
      t := Tables(a, c, timers);
    }

    method DeleteBoth(id: Key, ghost a: N.State<string>, ghost c: N.State<F.Candidate>)
      returns (ghost a': N.State<string>, ghost c': N.State<F.Candidate>)
      requires TablesValid() && a == answers.View() && c == ice.View()
      modifies answers, ice
      ensures TablesValid() && answers.View() == a' && ice.View() == c'
      ensures N.Step(a, N.Delete(id)) == Some(a') && N.Step(c, N.Delete(id)) == Some(c')
    {
      ice.Delete(id);
      answers.Delete(id);
      a', c' := answers.View(), ice.View();
    }

    /** One scheduled step, if it can run now. A new id is a UUID: none that was handed out before. */
    method Execute(x: By<Event>) returns (ok: bool)
      requires Valid()
      modifies this, answers, ice
      ensures Valid() && Step(old(state), x.e) == if ok then Some(state) else None
      ensures if ok then log == old(log) + [x] else state == old(state) && log == old(log)
    {
      ok := true;
      match x.e {
        case Register(id) =>
          if id !in answers.minted { RegisterId(x.who, id); } else { ok := false; }
        case Cleanup(id) =>
          if id in timers { CleanupFired(x.who, id); } else { ok := false; }
        case AnswersStep(n) =>
          if !n.Mint? && !n.Delete? { ok := ExecuteAnswers(x.who, n); } else { ok := false; }
        case IceStep(n) =>
          if !n.Mint? { ok := ExecuteIce(x.who, n); } else { ok := false; }
      }
    }

    /** Any schedule of steps on both tables. */
    method ExecuteAll(es: seq<By<Event>>) returns (ok: bool, ghost done: nat)
      requires Valid()
      modifies this, answers, ice
      ensures Valid() && (ok <==> Run(Step, old(state), Events(es)).Some?) && (ok ==> done == |es|)
      ensures done <= |es| && log == old(log) + es[..done] && Run(Step, old(state), Events(es[..done])) == Some(state)
    {
      ghost var start := state;
      assert es[0..] == es && es[..0] == [] && log + [] == log;
      for i := 0 to |es|
        invariant Valid() && log == old(log) + es[..i]
        invariant Run(Step, start, Events(es[..i])) == Some(state)
        invariant Run(Step, start, Events(es)) == Run(Step, state, Events(es[i..]))
      {
        ScheduleAt(Step, start, es, i, state, old(log));
        done := i;
        ok := Execute(es[i]);
        if !ok { return; }
      }
      ok, done := true, |es|;
      assert es[..done] == es;
    }

    /** The other goroutines take any steps, on both tables, but those that only the caller takes. */
    method Interfere(me: nat, mine: Event -> bool, ghost c: Call<Event>) returns (ghost es: seq<Event>)
      requires Valid() && c.me == me && SoFar(c, log)
      modifies this, answers, ice
      ensures Valid() && SoFar(c, log) && old(log) <= log && Run(Step, old(state), es) == Some(state)
      ensures forall i | 0 <= i < |es| :: !mine(es[i])
    {
      var schedule: seq<By<Event>> := *;
      es := [];
      if forall i | 0 <= i < |schedule| :: schedule[i].who != me && !mine(schedule[i].e) {
        var _, done := ExecuteAll(schedule);
        CallWaits(c, old(log), schedule[..done]);
        es := Events(schedule[..done]);
      }
    }

    // ----- WaitForAnswer -----

    /** Others run. */
    method YieldAnswer(me: nat, h: nat, ghost id: Key, ghost vs: seq<string>, ghost waiting: bool, ghost c: Call<Event>)
      requires Valid() && AnswerHandler(state, h, id, vs, waiting) && c.me == me && SoFar(c, log)
      modifies this, answers, ice
      ensures Valid() && AnswerHandler(state, h, id, vs, waiting) && SoFar(c, log) && old(log) <= log
    {
      ghost var s := state;
      ghost var es := Interfere(me, AnswerSteps(h), c);
      AnswerHandlerKept(s, es, state, h);
    }

    /** The locked look-up. */
    method LookUpAnswer(me: nat, id: Key, ghost c: Call<Event>) returns (found: bool, h: nat)
      requires Valid() && c.me == me && SoFar(c, log)
      modifies this, answers, ice
      ensures Valid() && h == |old(state).answers.refs|
      ensures found <==> id in old(state).answers.live
      ensures !found ==> state == old(state) && log == old(log)
      ensures found ==> AnswerHandler(state, h, id, [], true) && SoFar(Then(c, AnswersStep(N.Acquire(id))), log)
    {
      ghost var s := state;
      h := |answers.handlers|;
      WhenPossible(s, h, id);
      CallActs(c, log, AnswersStep(N.Acquire(id)));
      found := ExecuteAnswers(me, N.Acquire(id));
      if found {
        AnswerHandlerBegins(s, id, state);
      }
    }

    /** ch <- answer meets answer := <-ch: the router holds the channel that this handler looked up. */
    method MeetAnswer(me: nat, h: nat, ghost id: Key) returns (v: string)
      requires Valid() && AnswerHandler(state, h, id, [], true) && answers.router.Found?
      requires answers.handlers[h].ch == answers.router.ch
      modifies this, answers, ice
      ensures Valid() && Step(old(state), AnswersStep(N.HandOver(h))) == Some(state)
      ensures log == old(log) + [By(me, AnswersStep(N.HandOver(h)))]
      ensures old(state).answers.hand.Holding? && v == old(state).answers.hand.p.body
    {
      assert answers.handlers[h].key == answers.router.p.key;
      WhenMet(state, h, id);
      v := answers.router.p.body;
      var _ := ExecuteAnswers(me, N.HandOver(h));
    }

    /** The router's channel is this handler's exactly if the router holds a value for its id. */
    lemma MeetingPossible(h: nat)
      requires Valid() && h < |answers.handlers|
      ensures answers.router.Found? && answers.router.ch == answers.handlers[h].ch <==> AnswerReady(state, h)
    {
    }

    /** The select between the context and the channel, on which the router may be waiting. */
    method SelectAnswer(me: nat, h: nat, ghost id: Key, poll: Poll, ghost c: Call<Event>) returns (r: Outcome<string>)
      requires Valid() && AnswerHandler(state, h, id, [], true) && c.me == me && SoFar(c, log)
      modifies this, answers, ice
      ensures Valid() && AnswerHandler(state, h, id, Values(r), r.NothingYet?)
      ensures r.Obtained? ==> Packet(id, r.v) in state.answers.consumed
      ensures AnswerPolled(poll, me, h, r, old(log), old(state), log)
      ensures SoFar(if r.NothingYet? then c else Then(c, SelectStep(h, r)), log)
    {
      var ready := answers.router.Found? && answers.router.ch == answers.handlers[h].ch;
      MeetingPossible(h);
      if poll.done && (poll.preferred || !ready) {
        EndAnswer(me, h, id, c);
        r := ContextEnded;
      } else if ready {
        var v := ReceiveAnswer(me, h, id, c);
        r := Obtained(v);
      } else {
        r := NothingYet;
      }
    }

    method EndAnswer(me: nat, h: nat, ghost id: Key, ghost c: Call<Event>)
      requires Valid() && AnswerHandler(state, h, id, [], true) && c.me == me && SoFar(c, log)
      modifies this, answers, ice
      ensures Valid() && AnswerHandler(state, h, id, [], false)
      ensures log == old(log) + [By(me, AnswersStep(N.Leave(h)))] && SoFar(Then(c, AnswersStep(N.Leave(h))), log)
    {
      ghost var s := state;
      CallActs(c, log, AnswersStep(N.Leave(h)));
      WhenPossible(s, h, id);
      var _ := ExecuteAnswers(me, N.Leave(h));
      AnswerHandlerLeaves(s, h, id, state);
    }

    method ReceiveAnswer(me: nat, h: nat, ghost id: Key, ghost c: Call<Event>) returns (v: string)
      requires Valid() && AnswerHandler(state, h, id, [], true) && c.me == me && SoFar(c, log)
      requires answers.router.Found? && answers.handlers[h].ch == answers.router.ch
      modifies this, answers, ice
      ensures Valid() && AnswerHandler(state, h, id, [v], false) && Packet(id, v) in state.answers.consumed
      ensures old(state).answers.hand.Holding? && v == old(state).answers.hand.p.body
      ensures log == old(log) + [By(me, AnswersStep(N.HandOver(h)))] && SoFar(Then(c, AnswersStep(N.HandOver(h))), log)
    {
      ghost var s := state;
      CallActs(c, log, AnswersStep(N.HandOver(h)));
      v := MeetAnswer(me, h, id);
      AnswerHandlerReceives(s, h, id, state);
    }

    /** NotFound exactly if the id is unmapped. Else it waits for an answer, or until the context is done. When its
        select ran, at `at`, the call had only looked the id up; it received the answer that the router held for it,
        unless the context was done and Go preferred that; it gave up only if the context was done; and it still
        waits only if the router held none. An answer received is the only one, and was sent for `id`. Of all the
        steps recorded during the call, exactly those listed are its own, all on the answer table; others ran in
        between, on both tables. */
    method WaitForAnswer(me: nat, id: Key, poll: Poll)
      returns (found: bool, r: Outcome<string>, h: nat, ghost before: seq<By<Event>>, ghost at: State)
      requires Valid()
      modifies this, answers, ice
      ensures Valid() && h == |old(state).answers.refs|
      ensures found <==> id in old(state).answers.live
      ensures !found ==> state == old(state) && log == old(log) && r.NothingYet?
      ensures found ==>
                && Wrote(old(log), [AnswersStep(N.Acquire(id))], before, me)
                && AnswerPolled(poll, me, h, r, before, at, log)
                && Wrote(old(log), AnswerCall(id, h, r), log, me)
                && AnswerHandler(state, h, id, Values(r), r.NothingYet?)
      ensures r.Obtained? ==> Packet(id, r.v) in state.answers.consumed
    {
      r, before, at := NothingYet, log, state;
      CallStarts(me, log);
      ghost var c := Call(me, log, []);
      found, h := LookUpAnswer(me, id, c);
      if found {
        r, before, at := AwaitAnswer(me, h, id, poll, Then(c, AnswersStep(N.Acquire(id))));
        AnswerCallDone(me, old(log), id, h, r);
        AcquiredOnly(me, old(log), id);
      }
    }

    /** Others run, then the select. */
    method AwaitAnswer(me: nat, h: nat, ghost id: Key, poll: Poll, ghost c: Call<Event>)
      returns (r: Outcome<string>, ghost before: seq<By<Event>>, ghost at: State)
      requires Valid() && AnswerHandler(state, h, id, [], true) && c.me == me && SoFar(c, log)
      modifies this, answers, ice
      ensures Valid() && AnswerHandler(state, h, id, Values(r), r.NothingYet?)
      ensures r.Obtained? ==> Packet(id, r.v) in state.answers.consumed
      ensures SoFar(c, before) && AnswerPolled(poll, me, h, r, before, at, log)
      ensures SoFar(if r.NothingYet? then c else Then(c, SelectStep(h, r)), log)
    {
      YieldAnswer(me, h, id, [], true, c);
      before, at := log, state;
      r := SelectAnswer(me, h, id, poll, c);
    }

    // ----- WaitForICECandidate -----

    method YieldIce(me: nat, h: nat, ghost id: Key, ghost vs: seq<F.Candidate>, ghost waiting: bool,
                    ghost c: Call<Event>)
      requires Valid() && IceHandler(state, h, id, vs, waiting) && c.me == me && SoFar(c, log)
      modifies this, answers, ice
      ensures Valid() && IceHandler(state, h, id, vs, waiting) && SoFar(c, log) && old(log) <= log
    {
      ghost var s := state;
      ghost var es := Interfere(me, IceSteps(h), c);
      IceHandlerKept(s, es, state, h);
    }

    method LookUpIce(me: nat, id: Key, ghost c: Call<Event>) returns (found: bool, h: nat)
      requires Valid() && c.me == me && SoFar(c, log)
      modifies this, answers, ice
      ensures Valid() && h == |old(state).ice.refs|
      ensures found <==> id in old(state).ice.live
      ensures !found ==> state == old(state) && log == old(log)
      ensures found ==> IceHandler(state, h, id, [], true) && SoFar(Then(c, IceStep(N.Acquire(id))), log)
    {
      ghost var s := state;
      h := |ice.handlers|;
      WhenPossible(s, h, id);
      CallActs(c, log, IceStep(N.Acquire(id)));
      found := ExecuteIce(me, N.Acquire(id));
      if found {
        IceHandlerBegins(s, id, state);
      }
    }

    method MeetCandidate(me: nat, h: nat, ghost id: Key, ghost vs: seq<F.Candidate>) returns (v: F.Candidate)
      requires Valid() && IceHandler(state, h, id, vs, true) && ice.router.Found?
      requires ice.handlers[h].ch == ice.router.ch
      modifies this, answers, ice
      ensures Valid() && Step(old(state), IceStep(N.HandOver(h))) == Some(state)
      ensures log == old(log) + [By(me, IceStep(N.HandOver(h)))]
      ensures old(state).ice.hand.Holding? && v == old(state).ice.hand.p.body
    {
      assert ice.handlers[h].key == ice.router.p.key;
      WhenMet(state, h, id);
      v := ice.router.p.body;
      var _ := ExecuteIce(me, N.HandOver(h));
    }

    lemma CandidatePossible(h: nat)
      requires Valid() && h < |ice.handlers|
      ensures ice.router.Found? && ice.router.ch == ice.handlers[h].ch <==> CandidateReady(state, h)
    {
    }

    /** The select between the context and the channel. */
    method SelectCandidate(me: nat, h: nat, ghost id: Key, poll: Poll, ghost vs: seq<F.Candidate>, ghost c: Call<Event>)
      returns (r: Outcome<F.Candidate>)
      requires Valid() && IceHandler(state, h, id, vs, true) && c.me == me && SoFar(c, log)
      modifies this, answers, ice
      ensures Valid() && IceHandler(state, h, id, vs + Values(r), true)
      ensures Decided(poll, CandidateReady(old(state), h), r)
      ensures if r.Obtained? then SoFar(Then(c, IceStep(N.HandOver(h))), log)
              else state == old(state) && log == old(log)
    {
      var ready := ice.router.Found? && ice.router.ch == ice.handlers[h].ch;
      CandidatePossible(h);
      assert vs + [] == vs;
      if poll.done && (poll.preferred || !ready) {
        r := ContextEnded;
      } else if ready {
        ghost var s := state;
        CallActs(c, log, IceStep(N.HandOver(h)));
        var v := MeetCandidate(me, h, id, vs);
        IceHandlerReceives(s, h, id, vs, state);
        r := Obtained(v);
      } else {
        r := NothingYet;
      }
    }

    /** One turn of the loop: others run, then the select. */
    method ForwardNext(me: nat, h: nat, ghost id: Key, poll: Poll, ghost vs: seq<F.Candidate>, ghost c: Call<Event>)
      returns (r: Outcome<F.Candidate>, ghost ready: bool)
      requires Valid() && IceHandler(state, h, id, vs, true) && c.me == me && SoFar(c, log)
      modifies this, answers, ice
      ensures Valid() && IceHandler(state, h, id, vs + Values(r), true)
      ensures SoFar(if r.Obtained? then Then(c, IceStep(N.HandOver(h))) else c, log)
      ensures Decided(poll, ready, r) && (!r.Obtained? ==> ready == CandidateReady(state, h))
    {
      YieldIce(me, h, id, vs, true, c);
      ready := CandidateReady(state, h);
      r := SelectCandidate(me, h, id, poll, vs, c);
    }

    /** The handler's loop has forwarded `vs`, since the steps `c`. */
    ghost predicate Forwarding(h: nat, id: Key, vs: seq<F.Candidate>, c: Call<Event>)
      requires Valid()
      reads this, answers, ice
    {
      IceHandler(state, h, id, vs, true) && SoFar(Forwarded(c, h, |vs|), log)
    }

    method ForwardTurn(me: nat, h: nat, ghost id: Key, turns: seq<Turn>, vs: seq<F.Candidate>, ghost c: Call<Event>)
      returns (ws: seq<F.Candidate>, ending: Ending)
      requires Valid() && c.me == me && Forwarding(h, id, vs, c) && |vs| < |turns| && WentOn(turns, |vs|)
      modifies this, answers, ice
      ensures Valid() && Forwarding(h, id, ws, c)
      ensures if ending.Unseen? then |ws| == |vs| + 1 && WentOn(turns, |ws|)
              else LoopEnded(turns, |ws|, CandidateReady(state, h), ending)
    {
      ForwardedOneMore(c, h, |vs|);
      var r, ready := ForwardNext(me, h, id, turns[|vs|].poll, vs, Forwarded(c, h, |vs|));
      TurnEnds(turns, |vs|, ready, CandidateReady(state, h), r);
      ws, ending := vs + Values(r), EndingOf(turns[|vs|], r);
    }

    /** The loop, for as many turns as are given, or until it ends. */
    method ForwardAll(me: nat, h: nat, ghost id: Key, turns: seq<Turn>, ghost c: Call<Event>)
      returns (forwarded: seq<F.Candidate>, ending: Ending)
      requires Valid() && IceHandler(state, h, id, [], true) && c.me == me && SoFar(c, log)
      modifies this, answers, ice
      ensures Valid() && Forwarding(h, id, forwarded, c)
      ensures LoopEnded(turns, |forwarded|, CandidateReady(state, h), ending)
    {
      forwarded, ending := [], Unseen;
      ForwardedNone(c, h);
      while |forwarded| < |turns|
        invariant Valid() && Forwarding(h, id, forwarded, c)
        invariant WentOn(turns, |forwarded|) && ending == Unseen
        decreases |turns| - |forwarded|
      {
        forwarded, ending := ForwardTurn(me, h, id, turns, forwarded, c);
        if !ending.Unseen? {
          return;
        }
      }
    }

    /** The handler leaves its loop. */
    method LeaveIce(me: nat, h: nat, ghost id: Key, ghost vs: seq<F.Candidate>, ghost c: Call<Event>)
      requires Valid() && IceHandler(state, h, id, vs, true) && c.me == me && SoFar(c, log)
      modifies this, answers, ice
      ensures Valid() && IceHandler(state, h, id, vs, false)
      ensures log == old(log) + [By(me, IceStep(N.Leave(h)))] && SoFar(Then(c, IceStep(N.Leave(h))), log)
    {
      ghost var s := state;
      CallActs(c, log, IceStep(N.Leave(h)));
      WhenPossible(s, h, id);
      var _ := ExecuteIce(me, N.Leave(h));
      IceHandlerLeaves(s, h, id, vs, state);
    }

    method DeleteEntry(me: nat, h: nat, id: Key, ghost vs: seq<F.Candidate>, ghost c: Call<Event>)
      requires Valid() && IceHandler(state, h, id, vs, false) && c.me == me && SoFar(c, log)
      modifies this, answers, ice
      ensures Valid() && IceHandler(state, h, id, vs, false) && id !in state.ice.live
      ensures SoFar(Then(c, IceStep(N.Delete(id))), log) && old(log) <= log
    {
      ghost var s := state;
      CallActs(c, log, IceStep(N.Delete(id)));
      WhenPossible(s, h, id);
      var _ := ExecuteIce(me, N.Delete(id));
      IceHandlerDeletes(s, h, id, vs, state);
    }

    /** The deferred function: `received` says whether its send on closeIceToAnsCh was ever received; only then
        does it delete the entry. */
    method EndIce(me: nat, h: nat, id: Key, received: bool, ghost vs: seq<F.Candidate>, ghost c: Call<Event>)
      requires Valid() && IceHandler(state, h, id, vs, true) && c.me == me && SoFar(c, log)
      modifies this, answers, ice
      ensures Valid() && IceHandler(state, h, id, vs, false) && (received ==> id !in state.ice.live)
      ensures SoFar(Ended(c, h, id, received), log) && old(log) + [By(me, IceStep(N.Leave(h)))] <= log
    {
      ghost var d := Then(c, IceStep(N.Leave(h)));
      LeaveIce(me, h, id, vs, c);
      YieldIce(me, h, id, vs, false, d);
      if received {
        DeleteEntry(me, h, id, vs, d);
      }
    }

    /** NotFound exactly if the id is unmapped. Else it forwards what the router hands it, in order, all of it sent
        for `id`, for the turns given. It leaves its loop only if the context was done when its select ran, or the
        stream failed; and it waits only if the router held nothing for it. Once out of the loop, if its send on
        closeIceToAnsCh is received, it deletes the entry of `id`. Of all the steps recorded during the call, exactly
        those listed are its own, all on the candidate table. */
    method WaitForICECandidate(me: nat, id: Key, turns: seq<Turn>, received: bool)
      returns (found: bool, forwarded: seq<F.Candidate>, ending: Ending, h: nat, ghost before: seq<By<Event>>,
               ghost at: State)
      requires Valid()
      modifies this, answers, ice
      ensures Valid() && h == |old(state).ice.refs|
      ensures found <==> id in old(state).ice.live
      ensures !found ==> state == old(state) && log == old(log) && forwarded == []
      ensures found ==>
                && Wrote(old(log), IceCall(id, h, |forwarded|, LoopLeft(ending), received), log, me)
                && LoopPolled(turns, me, h, |forwarded|, ending, before, at, log)
                && IceHandler(state, h, id, forwarded, !LoopLeft(ending))
                && (LoopLeft(ending) && received ==> id !in state.ice.live)
      ensures forall v | v in forwarded :: Packet(id, v) in state.ice.consumed
    {
      forwarded, ending, before, at := [], Unseen, log, state;
      CallStarts(me, log);
      ghost var c := Call(me, log, []);
      found, h := LookUpIce(me, id, c);
      if found {
        forwarded, ending, before, at := ForwardAndEnd(me, h, id, turns, received, Then(c, IceStep(N.Acquire(id))));
        IceCallDone(me, old(log), id, h, |forwarded|, received);
      }
    }

    /** The loop and what follows it. */
    method ForwardAndEnd(me: nat, h: nat, id: Key, turns: seq<Turn>, received: bool, ghost c: Call<Event>)
      returns (forwarded: seq<F.Candidate>, ending: Ending, ghost before: seq<By<Event>>, ghost at: State)
      requires Valid() && IceHandler(state, h, id, [], true) && c.me == me && SoFar(c, log)
      modifies this, answers, ice
      ensures Valid() && LoopPolled(turns, me, h, |forwarded|, ending, before, at, log)
      ensures IceHandler(state, h, id, forwarded, !LoopLeft(ending))
      ensures LoopLeft(ending) && received ==> id !in state.ice.live
      ensures var d := Forwarded(c, h, |forwarded|);
              SoFar(if LoopLeft(ending) then Ended(d, h, id, received) else d, log)
      ensures forall v | v in forwarded :: Packet(id, v) in state.ice.consumed
    {
      forwarded, ending := ForwardAll(me, h, id, turns, c);
      before, at := log, state;
      if LoopLeft(ending) {
        EndIce(me, h, id, received, forwarded, Forwarded(c, h, |forwarded|));
      }
      IceHandlerForId(state, h, id, forwarded, !LoopLeft(ending));
    }
  }
}
