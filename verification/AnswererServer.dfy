/**
  The answerer's side as the Go code has it: two tables of mailboxes under one
  lock, their routers, handlers and clean-ups. The waiting handlers are whole
  methods: between two of a handler's own steps any other goroutine may take steps
  on both tables, and a select whose channel stays empty ends with the context.
 */
module AnswererServers {
  import opened Runs
  import opened Packets
  import opened Handlers
  import opened MailboxTables
  import C = CreatingRouter
  import B = Broker
  import F = CandidateStreams

  // ----- both tables as one state -----

  datatype State = Tables(offers: C.State<B.Offering>, ice: C.State<F.Candidate>)

  datatype Event =
    | LookUpOffer(host: Key)                  // WaitForOffer's first locked section
    | OffersStep(o: C.Event<B.Offering>)
    | EnsureIce(id: Key)                      // its second
    | IceStep(c: C.Event<F.Candidate>)

  function Init(): State {
    Tables(C.Init(1, true), C.Init(B.QUEUE, false))
  }

  function Step(s: State, e: Event): Option<State> {
    match e
    case LookUpOffer(host) =>
      var t := C.Step(C.Ensured(s.offers, host, false), C.Acquire(host));
      if t.Some? then Some(s.(offers := t.value)) else None
    case OffersStep(o) =>
      var t := C.Step(s.offers, o);
      if !o.Ensure? && !o.Acquire? && t.Some? then Some(s.(offers := t.value)) else None
    case EnsureIce(id) => Some(s.(ice := C.Ensured(s.ice, id, true)))
    case IceStep(c) =>
      var t := C.Step(s.ice, c);
      if !c.Ensure? && t.Some? then Some(s.(ice := t.value)) else None
  }

  ghost predicate Inv(s: State) {
    && C.Inv(s.offers) && s.offers.capacity == 1 && s.offers.oneShot
    && C.Inv(s.ice) && s.ice.capacity == B.QUEUE && !s.ice.oneShot && C.AllTimed(s.ice.boxes)
  }

  lemma InvInit()
    ensures Inv(Init())
  {
    C.InvInit<B.Offering>(1, true);
    C.InvInit<F.Candidate>(B.QUEUE, false);
  }

  lemma InvOffersStep(s: State, e: Event)
    requires Inv(s) && (e.LookUpOffer? || e.OffersStep?) && Step(s, e).Some?
    ensures Inv(Step(s, e).value)
  {
    if e.LookUpOffer? {
      InvLookUp(s.offers, e.host);
    } else {
      C.InvStep(s.offers, e.o);
    }
  }

  lemma InvLookUp(offers: C.State<B.Offering>, host: Key)
    requires C.Inv(offers) && C.Step(C.Ensured(offers, host, false), C.Acquire(host)).Some?
    ensures var t := C.Step(C.Ensured(offers, host, false), C.Acquire(host)).value;
            C.Inv(t) && t.capacity == offers.capacity && t.oneShot == offers.oneShot
  {
    C.InvEnsured(offers, host, false);
    C.InvAcquire(C.Ensured(offers, host, false), host);
  }

  lemma InvIceStep(s: State, e: Event)
    requires Inv(s) && (e.EnsureIce? || e.IceStep?) && Step(s, e).Some?
    ensures Inv(Step(s, e).value)
  {
    if e.EnsureIce? {
      C.InvEnsured(s.ice, e.id, true);
    } else {
      C.InvStep(s.ice, e.c);
      C.TimedStep(s.ice, e.c);
    }
  }

  lemma InvStep(s: State, e: Event)
    requires Inv(s) && Step(s, e).Some?
    ensures Inv(Step(s, e).value)
  {
    if e.LookUpOffer? || e.OffersStep? {
      InvOffersStep(s, e);
    } else {
      InvIceStep(s, e);
    }
  }

  /** The event that is `c` on the candidate table. */
  function IceEvent(c: C.Event<F.Candidate>): Event {
    if c.Ensure? then EnsureIce(c.key) else IceStep(c)
  }

  predicate MakesUntimed(c: C.Event<F.Candidate>) {
    c.Ensure? && !c.timed
  }

  // What the objects do, one region at a time, is a step of both tables.

  lemma IceMove(s: State, c: C.Event<F.Candidate>, t: C.State<F.Candidate>)
    requires Inv(s) && !MakesUntimed(c) && C.Step(s.ice, c) == Some(t)
    ensures Step(s, IceEvent(c)) == Some(Tables(s.offers, t)) && Inv(Tables(s.offers, t))
  {
    InvIceStep(s, IceEvent(c));
  }

  lemma IceStuck(s: State, c: C.Event<F.Candidate>)
    requires !MakesUntimed(c) && C.Step(s.ice, c).None?
    ensures Step(s, IceEvent(c)).None?
  {
  }

  lemma OffersStuck(s: State, o: C.Event<B.Offering>)
    requires C.Step(s.offers, o).None?
    ensures Step(s, OffersStep(o)).None?
  {
  }

  lemma OffersMove(s: State, o: C.Event<B.Offering>, t: C.State<B.Offering>)
    requires Inv(s) && !o.Ensure? && !o.Acquire? && C.Step(s.offers, o) == Some(t)
    ensures Step(s, OffersStep(o)) == Some(Tables(t, s.ice)) && Inv(Tables(t, s.ice))
  {
    InvOffersStep(s, OffersStep(o));
  }

  lemma LookUpMove(s: State, host: Key, t: C.State<B.Offering>)
    requires Inv(s) && C.Step(C.Ensured(s.offers, host, false), C.Acquire(host)) == Some(t)
    ensures Step(s, LookUpOffer(host)) == Some(Tables(t, s.ice)) && Inv(Tables(t, s.ice))
  {
    InvOffersStep(s, LookUpOffer(host));
  }

  /** When a handler's steps are possible. */
  lemma WhenPossible(s: State, h: nat, id: Key)
    ensures Step(s, IceStep(C.Acquire(id))).Some? <==> id in s.ice.live
    ensures Step(s, OffersStep(C.Leave(h))).Some? <==> h < |s.offers.refs|
    ensures Step(s, IceStep(C.Leave(h))).Some? <==> h < |s.ice.refs|
    ensures Step(s, IceStep(C.Delete(id))).Some? && Step(s, EnsureIce(id)).Some?
  {
  }

  // ----- what one handler keeps while the others run -----

  /** The steps that only the handler `h` of the offer table takes. */
  predicate OfOfferHandler(h: nat, e: Event) {
    e == OffersStep(C.Take(h)) || e == OffersStep(C.Leave(h))
  }

  predicate OfIceHandler(h: nat, e: Event) {
    e == IceStep(C.Take(h)) || e == IceStep(C.Leave(h))
  }

  function OfferSteps(h: nat): Event -> bool {
    e => OfOfferHandler(h, e)
  }

  function IceSteps(h: nat): Event -> bool {
    e => OfIceHandler(h, e)
  }

  lemma OfferHandlerStep(s: State, e: Event, h: nat)
    requires Inv(s) && h < |s.offers.refs| && Step(s, e).Some? && !OfOfferHandler(h, e)
    ensures Inv(Step(s, e).value) && C.SameHandler(s.offers, Step(s, e).value.offers, h)
  {
    InvStep(s, e);
    if e.OffersStep? {
      KeptByStep(s.offers, e.o, h);
    } else if e.LookUpOffer? {
      KeptByLookUp(s.offers, e.host, h);
    }
  }

  lemma KeptByStep<T>(c: C.State<T>, e: C.Event<T>, h: nat)
    requires C.Inv(c) && h < |c.refs| && C.Step(c, e).Some? && e != C.Take(h) && e != C.Leave(h)
    ensures C.Inv(C.Step(c, e).value) && C.SameHandler(c, C.Step(c, e).value, h)
  {
    C.ReceivedStep(c, e, h);
    C.StepKeepsHandler(c, e, h);
  }

  lemma KeptByLookUp<T>(c: C.State<T>, key: Key, h: nat)
    requires C.Inv(c) && h < |c.refs| && C.Step(C.Ensured(c, key, false), C.Acquire(key)).Some?
    ensures var t := C.Step(C.Ensured(c, key, false), C.Acquire(key)).value; C.Inv(t) && C.SameHandler(c, t, h)
  {
    KeptByStep(c, C.Ensure(key, false), h);
    KeptByStep(C.Ensured(c, key, false), C.Acquire(key), h);
  }

  lemma {:induction false} OfferHandlerKept(s: State, es: seq<Event>, t: State, h: nat)
    requires Inv(s) && h < |s.offers.refs| && Run(Step, s, es) == Some(t)
    requires forall i | 0 <= i < |es| :: !OfOfferHandler(h, es[i])
    ensures Inv(t) && C.SameHandler(s.offers, t.offers, h)
    decreases |es|
  {
    if |es| > 0 {
      OfferHandlerStep(s, es[0], h);
      OfferHandlerKept(Step(s, es[0]).value, es[1..], t, h);
    }
  }

  lemma IceHandlerStep(s: State, e: Event, h: nat)
    requires Inv(s) && h < |s.ice.refs| && Step(s, e).Some? && !OfIceHandler(h, e)
    ensures Inv(Step(s, e).value) && C.SameHandler(s.ice, Step(s, e).value.ice, h)
  {
    InvStep(s, e);
    if e.IceStep? {
      KeptByStep(s.ice, e.c, h);
    } else if e.EnsureIce? {
      KeptByStep(s.ice, C.Ensure(e.id, true), h);
    }
  }

  lemma {:induction false} IceHandlerKept(s: State, es: seq<Event>, t: State, h: nat)
    requires Inv(s) && h < |s.ice.refs| && Run(Step, s, es) == Some(t)
    requires forall i | 0 <= i < |es| :: !OfIceHandler(h, es[i])
    ensures Inv(t) && C.SameHandler(s.ice, t.ice, h)
    decreases |es|
  {
    if |es| > 0 {
      IceHandlerStep(s, es[0], h);
      IceHandlerKept(Step(s, es[0]).value, es[1..], t, h);
    }
  }

  /** Handler `h` of the offer table looked `host` up, has received `vs`, and waits for more or has returned. */
  ghost predicate OfferHandler(s: State, h: nat, host: Key, vs: seq<B.Offering>, waiting: bool)
    requires Inv(s)
  {
    && h < |s.offers.refs| && s.offers.refs[h].key == host
    && C.ReceivedBy(s.offers, h) == vs && (waiting <==> h !in s.offers.left)
  }

  lemma OfferHandlerBegins(s: State, host: Key, t: State)
    requires Inv(s) && Step(s, LookUpOffer(host)) == Some(t)
    ensures Inv(t) && OfferHandler(t, |s.offers.refs|, host, [], true)
  {
    InvStep(s, LookUpOffer(host));
    C.InvEnsured(s.offers, host, false);
    C.ReceivedNothing(C.Ensured(s.offers, host, false), host);
  }

  lemma OfferHandlerTakes(s: State, h: nat, host: Key, t: State)
    requires Inv(s) && OfferHandler(s, h, host, [], true) && Step(s, OffersStep(C.Take(h))) == Some(t)
    ensures var m := s.offers.boxes[s.offers.refs[h].box];
            |m.takers| < |m.sent| && Inv(t) && OfferHandler(t, h, host, [m.sent[|m.takers|]], false)
  {
    InvStep(s, OffersStep(C.Take(h)));
    C.ReceivedStep(s.offers, C.Take(h), h);
  }

  lemma OfferHandlerLeaves(s: State, h: nat, host: Key, t: State)
    requires Inv(s) && OfferHandler(s, h, host, [], true) && Step(s, OffersStep(C.Leave(h))) == Some(t)
    ensures Inv(t) && OfferHandler(t, h, host, [], false)
  {
    InvStep(s, OffersStep(C.Leave(h)));
    C.ReceivedStep(s.offers, C.Leave(h), h);
  }

  /** Whatever a handler has received was sent to its host. */
  lemma OfferHandlerForHost(s: State, h: nat, host: Key, o: B.Offering)
    requires Inv(s) && OfferHandler(s, h, host, [o], false)
    ensures Packet(host, o) in s.offers.consumed
  {
    C.ReceivedForKey(s.offers, h, o);
  }

  /** The candidate mailbox of `id` is mapped, and a clean-up for it is pending. */
  ghost predicate HasMailbox(s: State, id: Key) {
    id in s.ice.live && s.ice.live[id] in s.ice.timers
  }

  /** Handler `h` of the candidate table looked `id` up and has received `vs`. */
  ghost predicate IceHandler(s: State, h: nat, id: Key, vs: seq<F.Candidate>, waiting: bool)
    requires Inv(s)
  {
    && h < |s.ice.refs| && s.ice.refs[h].key == id
    && C.ReceivedBy(s.ice, h) == vs && (waiting <==> h !in s.ice.left)
  }

  lemma IceHandlerBegins(s: State, id: Key, t: State)
    requires Inv(s) && Step(s, IceStep(C.Acquire(id))) == Some(t)
    ensures Inv(t) && IceHandler(t, |s.ice.refs|, id, [], true)
  {
    InvStep(s, IceStep(C.Acquire(id)));
    C.ReceivedNothing(s.ice, id);
  }

  lemma IceHandlerTakes(s: State, h: nat, id: Key, vs: seq<F.Candidate>, t: State)
    requires Inv(s) && IceHandler(s, h, id, vs, true) && Step(s, IceStep(C.Take(h))) == Some(t)
    ensures var m := s.ice.boxes[s.ice.refs[h].box];
            |m.takers| < |m.sent| && Inv(t) && IceHandler(t, h, id, vs + [m.sent[|m.takers|]], true)
  {
    InvStep(s, IceStep(C.Take(h)));
    C.ReceivedStep(s.ice, C.Take(h), h);
  }

  lemma IceHandlerLeaves(s: State, h: nat, id: Key, vs: seq<F.Candidate>, t: State)
    requires Inv(s) && IceHandler(s, h, id, vs, true) && Step(s, IceStep(C.Leave(h))) == Some(t)
    ensures Inv(t) && IceHandler(t, h, id, vs, false)
  {
    InvStep(s, IceStep(C.Leave(h)));
    C.ReceivedStep(s.ice, C.Leave(h), h);
  }

  lemma IceHandlerDeletes(s: State, h: nat, id: Key, vs: seq<F.Candidate>, t: State)
    requires Inv(s) && IceHandler(s, h, id, vs, false) && Step(s, IceStep(C.Delete(id))) == Some(t)
    ensures Inv(t) && IceHandler(t, h, id, vs, false) && id !in t.ice.live
  {
    InvStep(s, IceStep(C.Delete(id)));
    C.ReceivedStep(s.ice, C.Delete(id), h);
  }

  /** Whatever a handler has received was sent for its id. */
  lemma IceHandlerForId(s: State, h: nat, id: Key, vs: seq<F.Candidate>, waiting: bool)
    requires Inv(s) && IceHandler(s, h, id, vs, waiting)
    ensures forall v | v in vs :: Packet(id, v) in s.ice.consumed
  {
    forall v | v in vs ensures Packet(id, v) in s.ice.consumed {
      C.ReceivedForKey(s.ice, h, v);
    }
  }

  lemma OfferHandlerReturns(s: State, h: nat, host: Key, o: B.Offering, t: State)
    requires Inv(s) && OfferHandler(s, h, host, [o], false) && Step(s, EnsureIce(o.answererID)) == Some(t)
    ensures Inv(t) && OfferHandler(t, h, host, [o], false) && HasMailbox(t, o.answererID)
  {
    C.EnsuredHasTimer(s.ice, o.answererID);
    OfferHandlerStep(s, EnsureIce(o.answererID), h);
  }

  // ----- the steps of a call -----

  /** There is an offering in the mailbox that handler `h` looked up. */
  predicate OfferReady(s: State, h: nat) {
    && h < |s.offers.refs| && s.offers.refs[h].box < |s.offers.boxes|
    && var m := s.offers.boxes[s.offers.refs[h].box]; |m.takers| < |m.sent|
  }

  function OldestOffer(s: State, h: nat): B.Offering
    requires OfferReady(s, h)
  {
    var m := s.offers.boxes[s.offers.refs[h].box];
    m.sent[|m.takers|]
  }

  predicate CandidateReady(s: State, h: nat) {
    && h < |s.ice.refs| && s.ice.refs[h].box < |s.ice.boxes|
    && var m := s.ice.boxes[s.ice.refs[h].box]; |m.takers| < |m.sent|
  }

  function OldestCandidate(s: State, h: nat): F.Candidate
    requires CandidateReady(s, h)
  {
    var m := s.ice.boxes[s.ice.refs[h].box];
    m.sent[|m.takers|]
  }

  /** How the select of a WaitForOffer call ends, as a step. */
  function SelectStep(h: nat, r: Outcome<B.Offering>): Event
    requires !r.NothingYet?
  {
    OffersStep(if r.Obtained? then C.Take(h) else C.Leave(h))
  }

  /** The select ran when the log was `before` and the state `at`: it received the oldest offering there, unless the
      context was done and Go preferred that; it ended with the context only if that was done; and it waits
      only if there was no offering. */
  ghost predicate OfferPolled(poll: Poll, me: nat, h: nat, r: Outcome<B.Offering>, before: seq<By<Event>>, at: State,
                              log: seq<By<Event>>)
  {
    && Recorded(Step, Init(), before, at) && Decided(poll, OfferReady(at, h), r)
    && (r.Obtained? ==> r.v == OldestOffer(at, h))
    && (if r.NothingYet? then before == log else before + [By(me, SelectStep(h, r))] <= log)
  }

  /** The steps of one WaitForOffer call. */
  function OfferCall(host: Key, h: nat, r: Outcome<B.Offering>): seq<Event> {
    match r
    case NothingYet => [LookUpOffer(host)]
    case ContextEnded => [LookUpOffer(host), OffersStep(C.Leave(h))]
    case Obtained(o) => [LookUpOffer(host), OffersStep(C.Take(h)), EnsureIce(o.answererID)]
  }

  lemma OfferCallDone(me: nat, start: seq<By<Event>>, host: Key, h: nat, r: Outcome<B.Offering>)
    ensures var c := Then(Call(me, start, []), LookUpOffer(host));
            match r
            case NothingYet => c == Call(me, start, OfferCall(host, h, r))
            case ContextEnded => Then(c, SelectStep(h, r)) == Call(me, start, OfferCall(host, h, r))
            case Obtained(o) =>
              Then(Then(c, SelectStep(h, r)), EnsureIce(o.answererID)) == Call(me, start, OfferCall(host, h, r))
  {
    assert [] + [LookUpOffer(host)] == [LookUpOffer(host)];
  }

  function Takes(h: nat, n: nat): seq<Event> {
    seq(n, _ => IceStep(C.Take(h)))
  }

  /** The steps of one WaitForICECandidate call that forwards `n` candidates, and those after its loop if that has
      ended. */
  function IceCall(id: Key, h: nat, n: nat, ended: bool): seq<Event> {
    [IceStep(C.Acquire(id))] + Takes(h, n) + (if ended then [IceStep(C.Leave(h))] + [IceStep(C.Delete(id))] else [])
  }

  predicate Ended(ending: Ending) {
    ending.GaveUp? || ending.StreamFailed?
  }

  /** The loop's last select ran when the log was `before` and the state `at`; when the loop has ended, the handler's
      return follows at once. */
  ghost predicate LoopPolled(turns: seq<Turn>, me: nat, h: nat, n: nat, ending: Ending, before: seq<By<Event>>,
                             at: State, log: seq<By<Event>>)
  {
    && Recorded(Step, Init(), before, at) && LoopEnded(turns, n, CandidateReady(at, h), ending)
    && (if Ended(ending) then before + [By(me, IceStep(C.Leave(h)))] <= log else before == log)
  }

  function Forwarded(c: Call<Event>, h: nat, n: nat): Call<Event> {
    c.(own := c.own + Takes(h, n))
  }

  lemma ForwardedNone(c: Call<Event>, h: nat)
    ensures Forwarded(c, h, 0) == c
  {
  }

  lemma ForwardedOneMore(c: Call<Event>, h: nat, n: nat)
    ensures Then(Forwarded(c, h, n), IceStep(C.Take(h))) == Forwarded(c, h, n + 1)
  {
  }

  lemma IceCallDone(me: nat, start: seq<By<Event>>, id: Key, h: nat, n: nat)
    ensures var c := Forwarded(Then(Call(me, start, []), IceStep(C.Acquire(id))), h, n);
            && c == Call(me, start, IceCall(id, h, n, false))
            && Then(Then(c, IceStep(C.Leave(h))), IceStep(C.Delete(id))) == Call(me, start, IceCall(id, h, n, true))
  {
    assert [] + [IceStep(C.Acquire(id))] == [IceStep(C.Acquire(id))];
  }

  class AnswererServer {
    const offers: MailboxTable<B.Offering>       // hostID2waitingCh
    const ice: MailboxTable<F.Candidate>         // AnsID2iceToAnsChan
    ghost var state: State
    ghost var log: seq<By<Event>>                // every step so far, and who took it
    ghost var repr: set<object>                  // all that methods may modify beside `this`

    /** Both tables and their channels are in `r`. */
    ghost predicate Owned(r: set<object>)
      reads offers, ice
    {
      && offers in r && ice in r
      && (forall i | 0 <= i < |offers.made| :: offers.made[i] in r)
      && (forall i | 0 <= i < |ice.made| :: ice.made[i] in r)
    }

    ghost predicate TablesValid()
      reads this, offers, ice, offers.made, ice.made
    {
      offers.Valid() && ice.Valid() && offers as object != ice && Owned(repr) && this !in repr
    }

    ghost predicate Valid()
      reads this, repr
    {
      && offers in repr && ice in repr && Owned(repr)
      && TablesValid() && state == Tables(offers.View(), ice.View())
      && Inv(state) && Recorded(Step, Init(), log, state)
    }

    constructor ()
      ensures Valid() && fresh(repr) && state == Init() && log == []
    {
      offers := new MailboxTable<B.Offering>(1, true);
      ice := new MailboxTable<F.Candidate>(B.QUEUE, false);
      state, log, repr := Init(), [], {offers, ice};
      InvInit();
      NothingRecorded(Step, Init());
      new;
    }

    /** The tables and their channels, when some of these are new. */
    ghost predicate Changed(added: set<object>)
      reads this, offers, ice, offers.made, ice.made
    {
      offers.Valid() && ice.Valid() && offers as object != ice && Owned(repr + added) && this !in repr + added
    }

    /** Takes over the new state of the tables, and records the step that led there. */
    ghost method Record(who: nat, e: Event, t: State, added: set<object>)
      requires Changed(added) && t == Tables(offers.View(), ice.View()) && Inv(t)
      requires Recorded(Step, Init(), log, state) && Step(state, e) == Some(t)
      modifies this`state, this`log, this`repr
      ensures Valid() && state == t && log == old(log) + [By(who, e)] && repr == old(repr) + added
    {
      RecordedStep(Step, Init(), log, state, By(who, e), t);
      Adopt(added);
      state, log := t, log + [By(who, e)];
    }

    ghost method Adopt(added: set<object>)
      requires Changed(added)
      modifies this`repr
      ensures TablesValid() && repr == old(repr) + added
    {
      repr := repr + added;
    }

    // ----- one step of goroutine `who` -----

    /** The other table does not notice. */
    method RunOffers(e: C.Event<B.Offering>, ghost o: C.State<B.Offering>, ghost c: C.State<F.Candidate>)
      returns (ok: bool, ghost t: C.State<B.Offering>, ghost added: set<object>)
      requires TablesValid() && o == offers.View() && c == ice.View()
      modifies offers, offers.made
      ensures Changed(added) && fresh(added) && ice.View() == c && offers.View() == t
      ensures C.Step(o, e) == (if ok then Some(t) else None) && (!ok ==> t == o && added == {})
    {
      ghost var n := |offers.made|;
      ok := offers.Execute(e);
      t, added := offers.View(), set x | x in offers.made[n..];
    }

    method MoveOffers(e: C.Event<B.Offering>, ghost s: State)
      returns (ok: bool, ghost t: State, ghost added: set<object>)
      requires TablesValid() && s == Tables(offers.View(), ice.View()) && Inv(s) && !e.Ensure? && !e.Acquire?
      modifies offers, offers.made
      ensures Changed(added) && fresh(added) && t == Tables(offers.View(), ice.View()) && Inv(t)
      ensures Step(s, OffersStep(e)) == (if ok then Some(t) else None) && (!ok ==> t == s && added == {})
    {
      ghost var table;
      ok, table, added := RunOffers(e, s.offers, s.ice);
      t := Tables(table, s.ice);
      if ok {
        OffersMove(s, e, table);
      } else {
        OffersStuck(s, e);
      }
    }

    method ExecuteOffers(who: nat, o: C.Event<B.Offering>) returns (ok: bool)
      requires Valid() && !o.Ensure? && !o.Acquire?
      modifies this, repr
      ensures Valid() && fresh(repr - old(repr))
      ensures Step(old(state), OffersStep(o)) == if ok then Some(state) else None
      ensures if ok then log == old(log) + [By(who, OffersStep(o))] else state == old(state) && log == old(log)
    {
      ghost var t, added;
      ok, t, added := MoveOffers(o, state);
      if ok {
        Record(who, OffersStep(o), t, added);
      } else {
        assert repr + added == repr;
      }
    }

    /** The other table does not notice. */
    method RunIce(e: C.Event<F.Candidate>, ghost o: C.State<B.Offering>, ghost c: C.State<F.Candidate>)
      returns (ok: bool, ghost t: C.State<F.Candidate>, ghost added: set<object>)
      requires TablesValid() && o == offers.View() && c == ice.View()
      modifies ice, ice.made
      ensures Changed(added) && fresh(added) && offers.View() == o && ice.View() == t
      ensures C.Step(c, e) == (if ok then Some(t) else None) && (!ok ==> t == c && added == {})
    {
      ghost var n := |ice.made|;
      ok := ice.Execute(e);
      t, added := ice.View(), set x | x in ice.made[n..];
    }

    method MoveIce(e: C.Event<F.Candidate>, ghost s: State)
      returns (ok: bool, ghost t: State, ghost added: set<object>)
      requires TablesValid() && s == Tables(offers.View(), ice.View()) && Inv(s) && !MakesUntimed(e)
      modifies ice, ice.made
      ensures Changed(added) && fresh(added) && t == Tables(offers.View(), ice.View()) && Inv(t)
      ensures Step(s, IceEvent(e)) == (if ok then Some(t) else None) && (!ok ==> t == s && added == {})
    {
      ghost var table;
      ok, table, added := RunIce(e, s.offers, s.ice);
      t := Tables(s.offers, table);
      if ok {
        IceMove(s, e, table);
      } else {
        IceStuck(s, e);
      }
    }

    method ExecuteIce(who: nat, c: C.Event<F.Candidate>) returns (ok: bool)
      requires Valid() && !MakesUntimed(c)
      modifies this, repr
      ensures Valid() && fresh(repr - old(repr))
      ensures Step(old(state), IceEvent(c)) == if ok then Some(state) else None
      ensures if ok then log == old(log) + [By(who, IceEvent(c))] else state == old(state) && log == old(log)
    {
      ghost var t, added;
      ok, t, added := MoveIce(c, state);
      if ok {
        Record(who, IceEvent(c), t, added);
      } else {
        assert repr + added == repr;
      }
    }

    method LookUpTable(host: Key, ghost o: C.State<B.Offering>, ghost c: C.State<F.Candidate>)
      returns (h: nat, ghost t: C.State<B.Offering>, ghost added: set<object>)
      requires TablesValid() && o == offers.View() && c == ice.View()
      modifies offers
      ensures Changed(added) && fresh(added) && ice.View() == c && offers.View() == t
      ensures h == |o.refs| && C.Step(C.Ensured(o, host, false), C.Acquire(host)) == Some(t)
    {
      ghost var n := |offers.made|;
      h := offers.EnsureAndAcquire(host);
      t, added := offers.View(), set x | x in offers.made[n..];
    }

    method LookUpOffers(who: nat, host: Key) returns (h: nat)
      requires Valid()
      modifies this, repr
      ensures Valid() && fresh(repr - old(repr)) && h == |old(state).offers.refs|
      ensures Step(old(state), LookUpOffer(host)) == Some(state) && log == old(log) + [By(who, LookUpOffer(host))]
    {
      ghost var t, added;
      h, t, added := LookUpTable(host, state.offers, state.ice);
      LookUpMove(state, host, t);
      Record(who, LookUpOffer(host), Tables(t, state.ice), added);
    }

    /** One scheduled step, if it can run now. */
    method Execute(x: By<Event>) returns (ok: bool)
      requires Valid()
      modifies this, repr
      ensures Valid() && fresh(repr - old(repr))
      ensures Step(old(state), x.e) == if ok then Some(state) else None
      ensures if ok then log == old(log) + [x] else state == old(state) && log == old(log)
    {
      ok := true;
      match x.e {
        case LookUpOffer(host) =>
          var _ := LookUpOffers(x.who, host);
        case OffersStep(o) =>
          if !o.Ensure? && !o.Acquire? { ok := ExecuteOffers(x.who, o); } else { ok := false; }
        case EnsureIce(id) =>
          ok := ExecuteIce(x.who, C.Ensure(id, true));
        case IceStep(c) =>
          if !c.Ensure? { ok := ExecuteIce(x.who, c); } else { ok := false; }
      }
    }

    /** Any schedule of steps on both tables. */
    method ExecuteAll(es: seq<By<Event>>) returns (ok: bool, ghost done: nat)
      requires Valid()
      modifies this, repr
      ensures Valid() && fresh(repr - old(repr))
      ensures (ok <==> Run(Step, old(state), Events(es)).Some?) && (ok ==> done == |es|)
      ensures done <= |es| && log == old(log) + es[..done] && Run(Step, old(state), Events(es[..done])) == Some(state)
    {
      ghost var start := state;
      assert es[0..] == es && es[..0] == [] && log + [] == log;
      for i := 0 to |es|
        invariant Valid() && fresh(repr - old(repr)) && log == old(log) + es[..i]
        invariant Run(Step, start, Events(es[..i])) == Some(state)
        invariant Run(Step, start, Events(es)) == Run(Step, state, Events(es[i..]))
      {
        ScheduleAt(Step, start, es, i, state, old(log));
        done := i;
        ok := Execute(es[i]);
        if !ok { return; }
      }
      ok, done := true, |es|;
      assert es[..done] == es;
    }

    /** The other goroutines take any steps, on both tables, but those that only the caller takes. */
    method Interfere(me: nat, mine: Event -> bool, ghost c: Call<Event>) returns (ghost es: seq<Event>)
      requires Valid() && c.me == me && SoFar(c, log)
      modifies this, repr
      ensures Valid() && fresh(repr - old(repr))
      ensures SoFar(c, log) && old(log) <= log && Run(Step, old(state), es) == Some(state)
      ensures forall i | 0 <= i < |es| :: !mine(es[i])
    {
      var schedule: seq<By<Event>> := *;
      es := [];
      if forall i | 0 <= i < |schedule| :: schedule[i].who != me && !mine(schedule[i].e) {
        var _, done := ExecuteAll(schedule);
        CallWaits(c, old(log), schedule[..done]);
        es := Events(schedule[..done]);
      }
    }

    // ----- WaitForOffer -----

    /** Others run. */
    method YieldOffer(me: nat, h: nat, ghost host: Key, ghost vs: seq<B.Offering>, ghost waiting: bool,
                      ghost c: Call<Event>)
      requires Valid() && OfferHandler(state, h, host, vs, waiting) && c.me == me && SoFar(c, log)
      modifies this, repr
      ensures Valid() && fresh(repr - old(repr)) && OfferHandler(state, h, host, vs, waiting)
      ensures SoFar(c, log) && old(log) <= log
    {
      ghost var s := state;
      ghost var es := Interfere(me, OfferSteps(h), c);
      OfferHandlerKept(s, es, state, h);
    }

    /** The first locked section. */
    method BeginOffer(me: nat, host: Key, ghost c: Call<Event>) returns (h: nat)
      requires Valid() && c.me == me && SoFar(c, log)
      modifies this, repr
      ensures Valid() && fresh(repr - old(repr)) && h == |old(state).offers.refs|
      ensures OfferHandler(state, h, host, [], true) && SoFar(Then(c, LookUpOffer(host)), log)
    {
      ghost var s := state;
      CallActs(c, log, LookUpOffer(host));
      h := LookUpOffers(me, host);
      OfferHandlerBegins(s, host, state);
    }

    method TakeOffer(me: nat, h: nat) returns (o: B.Offering)
      requires Valid() && h < |offers.handlers| && h !in offers.left && offers.handlers[h].ch.buffer != []
      modifies this, repr
      ensures Valid() && fresh(repr - old(repr))
      ensures Step(old(state), OffersStep(C.Take(h))) == Some(state)
      ensures log == old(log) + [By(me, OffersStep(C.Take(h)))]
      ensures OfferReady(old(state), h) && o == OldestOffer(old(state), h)
    {
      o := offers.handlers[h].ch.buffer[0];
      TakePossible(h);
      var _ := ExecuteOffers(me, C.Take(h));
    }

    /** What lies in the channel that handler `h` looked up: the oldest offering not yet received comes first. */
    lemma TakePossible(h: nat)
      requires Valid() && h < |offers.handlers|
      ensures h < |state.offers.refs| && (offers.handlers[h].ch.buffer != [] <==> OfferReady(state, h))
      ensures OfferReady(state, h) ==> offers.handlers[h].ch.buffer[0] == OldestOffer(state, h)
      ensures OfferReady(state, h) && h !in offers.left ==> Step(state, OffersStep(C.Take(h))).Some?
    {
    }

    /** The select between the context and the channel. */
    method SelectOffer(me: nat, h: nat, ghost host: Key, poll: Poll, ghost c: Call<Event>)
      returns (r: Outcome<B.Offering>)
      requires Valid() && OfferHandler(state, h, host, [], true) && c.me == me && SoFar(c, log)
      modifies this, repr
      ensures Valid() && fresh(repr - old(repr)) && OfferHandler(state, h, host, Values(r), r.NothingYet?)
      ensures OfferPolled(poll, me, h, r, old(log), old(state), log)
      ensures SoFar(if r.NothingYet? then c else Then(c, SelectStep(h, r)), log)
    {
      var ready := offers.handlers[h].ch.buffer != [];
      TakePossible(h);
      if poll.done && (poll.preferred || !ready) {
        EndOffer(me, h, host, c);
        r := ContextEnded;
      } else if ready {
        var o := ReceiveOffering(me, h, host, c);
        r := Obtained(o);
      } else {
        r := NothingYet;
      }
    }

    method EndOffer(me: nat, h: nat, ghost host: Key, ghost c: Call<Event>)
      requires Valid() && OfferHandler(state, h, host, [], true) && c.me == me && SoFar(c, log)
      modifies this, repr
      ensures Valid() && fresh(repr - old(repr)) && OfferHandler(state, h, host, [], false)
      ensures log == old(log) + [By(me, OffersStep(C.Leave(h)))] && SoFar(Then(c, OffersStep(C.Leave(h))), log)
    {
      ghost var s := state;
      CallActs(c, log, OffersStep(C.Leave(h)));
      WhenPossible(s, h, host);
      var _ := ExecuteOffers(me, C.Leave(h));
      OfferHandlerLeaves(s, h, host, state);
    }

    method ReceiveOffering(me: nat, h: nat, ghost host: Key, ghost c: Call<Event>) returns (o: B.Offering)
      requires Valid() && OfferHandler(state, h, host, [], true) && c.me == me && SoFar(c, log)
      requires offers.handlers[h].ch.buffer != []
      modifies this, repr
      ensures Valid() && fresh(repr - old(repr)) && OfferReady(old(state), h) && o == OldestOffer(old(state), h)
      ensures OfferHandler(state, h, host, [o], false)
      ensures log == old(log) + [By(me, OffersStep(C.Take(h)))] && SoFar(Then(c, OffersStep(C.Take(h))), log)
    {
      ghost var s := state;
      CallActs(c, log, OffersStep(C.Take(h)));
      o := TakeOffer(me, h);
      OfferHandlerTakes(s, h, host, state);
    }

    /** The second locked section, after others have run. */
    method ReturnOffer(me: nat, h: nat, ghost host: Key, o: B.Offering, ghost c: Call<Event>)
      requires Valid() && OfferHandler(state, h, host, [o], false) && c.me == me && SoFar(c, log)
      modifies this, repr
      ensures Valid() && OfferHandler(state, h, host, [o], false) && HasMailbox(state, o.answererID)
      ensures Packet(host, o) in state.offers.consumed && old(log) <= log
      ensures SoFar(Then(c, EnsureIce(o.answererID)), log)
    {
      YieldOffer(me, h, host, [o], false, c);
      ghost var s := state;
      CallActs(c, log, EnsureIce(o.answererID));
      WhenPossible(s, h, o.answererID);
      var _ := ExecuteIce(me, C.Ensure(o.answererID, true));
      OfferHandlerReturns(s, h, host, o, state);
      OfferHandlerForHost(state, h, host, o);
    }

    /** Waits for an offering, or until the context is done. When its select ran, at `at`, the call had only looked
        the host up; it received the oldest offering in the mailbox it had found, unless the context was done and
        Go preferred that; it gave up only if the context was done; and it still waits only if there was no
        offering. An offering received is the only one, and was sent to `host`; the candidate mailbox of its id is
        then mapped, with a clean-up pending. Of all the steps recorded during the call, exactly those listed are
        its own; others ran in between, on both tables. */
    method WaitForOffer(me: nat, host: Key, poll: Poll)
      returns (r: Outcome<B.Offering>, h: nat, ghost before: seq<By<Event>>, ghost at: State)
      requires Valid()
      modifies this, repr
      ensures Valid() && h == |old(state).offers.refs|
      ensures Wrote(old(log), [LookUpOffer(host)], before, me) && OfferPolled(poll, me, h, r, before, at, log)
      ensures Wrote(old(log), OfferCall(host, h, r), log, me)
      ensures OfferHandler(state, h, host, Values(r), r.NothingYet?)
      ensures r.Obtained? ==> Packet(host, r.v) in state.offers.consumed && HasMailbox(state, r.v.answererID)
    {
      CallStarts(me, log);
      ghost var c := Call(me, log, []);
      r, h, before, at := ReceiveOffer(me, host, poll, c);
      OfferCallDone(me, old(log), host, h, r);
      if r.Obtained? {
        ReturnOffer(me, h, host, r.v, Then(Then(c, LookUpOffer(host)), SelectStep(h, r)));
      }
    }

    /** Up to the end of the select. */
    method ReceiveOffer(me: nat, host: Key, poll: Poll, ghost c: Call<Event>)
      returns (r: Outcome<B.Offering>, h: nat, ghost before: seq<By<Event>>, ghost at: State)
      requires Valid() && c.me == me && SoFar(c, log)
      modifies this, repr
      ensures Valid() && fresh(repr - old(repr)) && h == |old(state).offers.refs|
      ensures OfferHandler(state, h, host, Values(r), r.NothingYet?)
      ensures SoFar(Then(c, LookUpOffer(host)), before) && OfferPolled(poll, me, h, r, before, at, log)
      ensures var d := Then(c, LookUpOffer(host)); SoFar(if r.NothingYet? then d else Then(d, SelectStep(h, r)), log)
    {
      h := AwaitOffer(me, host, c);
      before, at := log, state;
      r := SelectOffer(me, h, host, poll, Then(c, LookUpOffer(host)));
    }

    method AwaitOffer(me: nat, host: Key, ghost c: Call<Event>) returns (h: nat)
      requires Valid() && c.me == me && SoFar(c, log)
      modifies this, repr
      ensures Valid() && fresh(repr - old(repr)) && h == |old(state).offers.refs|
      ensures OfferHandler(state, h, host, [], true) && SoFar(Then(c, LookUpOffer(host)), log)
    {
      h := BeginOffer(me, host, c);
      YieldOffer(me, h, host, [], true, Then(c, LookUpOffer(host)));
    }

    // ----- WaitForICECandidate -----

    method YieldIce(me: nat, h: nat, ghost id: Key, ghost vs: seq<F.Candidate>, ghost waiting: bool,
                    ghost c: Call<Event>)
      requires Valid() && IceHandler(state, h, id, vs, waiting) && c.me == me && SoFar(c, log)
      modifies this, repr
      ensures Valid() && fresh(repr - old(repr)) && IceHandler(state, h, id, vs, waiting)
      ensures SoFar(c, log) && old(log) <= log
    {
      ghost var s := state;
      ghost var es := Interfere(me, IceSteps(h), c);
      IceHandlerKept(s, es, state, h);
    }

    /** The locked look-up. */
    method LookUpIce(me: nat, id: Key, ghost c: Call<Event>) returns (found: bool, h: nat)
      requires Valid() && c.me == me && SoFar(c, log)
      modifies this, repr
      ensures Valid() && fresh(repr - old(repr)) && h == |old(state).ice.refs|
      ensures found <==> id in old(state).ice.live
      ensures !found ==> state == old(state) && log == old(log)
      ensures found ==> IceHandler(state, h, id, [], true) && SoFar(Then(c, IceStep(C.Acquire(id))), log)
    {
      ghost var s := state;
      h := |ice.handlers|;
      WhenPossible(s, h, id);
      CallActs(c, log, IceStep(C.Acquire(id)));
      found := ExecuteIce(me, C.Acquire(id));
      if found {
        IceHandlerBegins(s, id, state);
      }
    }

    method ReceiveCandidate(me: nat, h: nat) returns (v: F.Candidate)
      requires Valid() && h < |ice.handlers| && h !in ice.left && ice.handlers[h].ch.buffer != []
      modifies this, repr
      ensures Valid() && fresh(repr - old(repr))
      ensures Step(old(state), IceStep(C.Take(h))) == Some(state)
      ensures log == old(log) + [By(me, IceStep(C.Take(h)))]
      ensures CandidateReady(old(state), h) && v == OldestCandidate(old(state), h)
    {
      v := ice.handlers[h].ch.buffer[0];
      ReceivePossible(h);
      var _ := ExecuteIce(me, C.Take(h));
    }

    lemma ReceivePossible(h: nat)
      requires Valid() && h < |ice.handlers|
      ensures h < |state.ice.refs| && (ice.handlers[h].ch.buffer != [] <==> CandidateReady(state, h))
      ensures CandidateReady(state, h) ==> ice.handlers[h].ch.buffer[0] == OldestCandidate(state, h)
      ensures CandidateReady(state, h) && h !in ice.left ==> Step(state, IceStep(C.Take(h))).Some?
    {
    }

    /** The select between the context and the channel. */
    method SelectCandidate(me: nat, h: nat, ghost id: Key, poll: Poll, ghost vs: seq<F.Candidate>, ghost c: Call<Event>)
      returns (r: Outcome<F.Candidate>)
      requires Valid() && IceHandler(state, h, id, vs, true) && c.me == me && SoFar(c, log)
      modifies this, repr
      ensures Valid() && fresh(repr - old(repr)) && IceHandler(state, h, id, vs + Values(r), true)
      ensures Decided(poll, CandidateReady(old(state), h), r)
      ensures if r.Obtained? then SoFar(Then(c, IceStep(C.Take(h))), log) else state == old(state) && log == old(log)
    {
      var ready := ice.handlers[h].ch.buffer != [];
      ReceivePossible(h);
      assert vs + [] == vs;
      if poll.done && (poll.preferred || !ready) {
        r := ContextEnded;
      } else if ready {
        ghost var s := state;
        CallActs(c, log, IceStep(C.Take(h)));
        var v := ReceiveCandidate(me, h);
        IceHandlerTakes(s, h, id, vs, state);
        r := Obtained(v);
      } else {
        r := NothingYet;
      }
    }

    /** One turn of the loop: others run, then the select. */
    method ForwardNext(me: nat, h: nat, ghost id: Key, poll: Poll, ghost vs: seq<F.Candidate>, ghost c: Call<Event>)
      returns (r: Outcome<F.Candidate>, ghost ready: bool)
      requires Valid() && IceHandler(state, h, id, vs, true) && c.me == me && SoFar(c, log)
      modifies this, repr
      ensures Valid() && fresh(repr - old(repr)) && IceHandler(state, h, id, vs + Values(r), true)
      ensures SoFar(if r.Obtained? then Then(c, IceStep(C.Take(h))) else c, log)
      ensures Decided(poll, ready, r) && (!r.Obtained? ==> ready == CandidateReady(state, h))
    {
      YieldIce(me, h, id, vs, true, c);
      ready := CandidateReady(state, h);
      r := SelectCandidate(me, h, id, poll, vs, c);
    }

    /** The handler's loop has forwarded `vs`, since the steps `c`. */
    ghost predicate Forwarding(h: nat, id: Key, vs: seq<F.Candidate>, c: Call<Event>)
      requires Valid()
      reads this, repr
    {
      IceHandler(state, h, id, vs, true) && SoFar(Forwarded(c, h, |vs|), log)
    }

    method ForwardTurn(me: nat, h: nat, ghost id: Key, turns: seq<Turn>, vs: seq<F.Candidate>, ghost c: Call<Event>)
      returns (ws: seq<F.Candidate>, ending: Ending)
      requires Valid() && c.me == me && Forwarding(h, id, vs, c) && |vs| < |turns| && WentOn(turns, |vs|)
      modifies this, repr
      ensures Valid() && fresh(repr - old(repr)) && Forwarding(h, id, ws, c)
      ensures if ending.Unseen? then |ws| == |vs| + 1 && WentOn(turns, |ws|)
              else LoopEnded(turns, |ws|, CandidateReady(state, h), ending)
    {
      ForwardedOneMore(c, h, |vs|);
      var r, ready := ForwardNext(me, h, id, turns[|vs|].poll, vs, Forwarded(c, h, |vs|));
      TurnEnds(turns, |vs|, ready, CandidateReady(state, h), r);
      ws, ending := vs + Values(r), EndingOf(turns[|vs|], r);
    }

    /** The loop, for as many turns as are given, or until it ends. */
    method ForwardAll(me: nat, h: nat, ghost id: Key, turns: seq<Turn>, ghost c: Call<Event>)
      returns (forwarded: seq<F.Candidate>, ending: Ending)
      requires Valid() && IceHandler(state, h, id, [], true) && c.me == me && SoFar(c, log)
      modifies this, repr
      ensures Valid() && fresh(repr - old(repr)) && Forwarding(h, id, forwarded, c)
      ensures LoopEnded(turns, |forwarded|, CandidateReady(state, h), ending)
    {
      forwarded, ending := [], Unseen;
      ForwardedNone(c, h);
      while |forwarded| < |turns|
        invariant Valid() && fresh(repr - old(repr)) && Forwarding(h, id, forwarded, c)
        invariant WentOn(turns, |forwarded|) && ending == Unseen
        decreases |turns| - |forwarded|
      {
        forwarded, ending := ForwardTurn(me, h, id, turns, forwarded, c);
        if !ending.Unseen? {
          return;
        }
      }
    }

    /** The handler leaves its loop, */
    method LeaveIce(me: nat, h: nat, ghost id: Key, ghost vs: seq<F.Candidate>, ghost c: Call<Event>)
      requires Valid() && IceHandler(state, h, id, vs, true) && c.me == me && SoFar(c, log)
      modifies this, repr
      ensures Valid() && fresh(repr - old(repr)) && IceHandler(state, h, id, vs, false)
      ensures log == old(log) + [By(me, IceStep(C.Leave(h)))] && SoFar(Then(c, IceStep(C.Leave(h))), log)
    {
      ghost var s := state;
      CallActs(c, log, IceStep(C.Leave(h)));
      WhenPossible(s, h, id);
      var _ := ExecuteIce(me, C.Leave(h));
      IceHandlerLeaves(s, h, id, vs, state);
    }

    /** and its deferred clean-up deletes the entry. */
    method DeleteEntry(me: nat, h: nat, id: Key, ghost vs: seq<F.Candidate>, ghost c: Call<Event>)
      requires Valid() && IceHandler(state, h, id, vs, false) && c.me == me && SoFar(c, log)
      modifies this, repr
      ensures Valid() && fresh(repr - old(repr)) && IceHandler(state, h, id, vs, false) && id !in state.ice.live
      ensures SoFar(Then(c, IceStep(C.Delete(id))), log) && old(log) <= log
    {
      ghost var s := state;
      CallActs(c, log, IceStep(C.Delete(id)));
      WhenPossible(s, h, id);
      var _ := ExecuteIce(me, C.Delete(id));
      IceHandlerDeletes(s, h, id, vs, state);
    }

    method EndIce(me: nat, h: nat, id: Key, ghost vs: seq<F.Candidate>, ghost c: Call<Event>)
      requires Valid() && IceHandler(state, h, id, vs, true) && c.me == me && SoFar(c, log)
      modifies this, repr
      ensures Valid() && IceHandler(state, h, id, vs, false) && id !in state.ice.live
      ensures SoFar(Then(Then(c, IceStep(C.Leave(h))), IceStep(C.Delete(id))), log)
      ensures old(log) + [By(me, IceStep(C.Leave(h)))] <= log
    {
      ghost var d := Then(c, IceStep(C.Leave(h)));
      LeaveIce(me, h, id, vs, c);
      YieldIce(me, h, id, vs, false, d);
      DeleteEntry(me, h, id, vs, d);
    }

    /** NotFound exactly if the id is unmapped. Else it forwards what it receives from the mailbox it looked up, in
        order, all of it sent for `id`, for the turns given. It leaves its loop only if the context was done when its
        select ran, or the stream failed; and it waits only if there was no candidate. Once out of the loop it
        deletes the entry of `id`. Of all the steps recorded during the call, exactly those listed are its own, all
        on the candidate table. */
    method WaitForICECandidate(me: nat, id: Key, turns: seq<Turn>)
      returns (found: bool, forwarded: seq<F.Candidate>, ending: Ending, h: nat, ghost before: seq<By<Event>>,
               ghost at: State)
      requires Valid()
      modifies this, repr
      ensures Valid() && h == |old(state).ice.refs|
      ensures found <==> id in old(state).ice.live
      ensures !found ==> state == old(state) && log == old(log) && forwarded == []
      ensures found ==>
                && Wrote(old(log), IceCall(id, h, |forwarded|, Ended(ending)), log, me)
                && LoopPolled(turns, me, h, |forwarded|, ending, before, at, log)
                && IceHandler(state, h, id, forwarded, !Ended(ending)) && (Ended(ending) ==> id !in state.ice.live)
      ensures forall v | v in forwarded :: Packet(id, v) in state.ice.consumed
    {
      forwarded, ending, before, at := [], Unseen, log, state;
      CallStarts(me, log);
      ghost var c := Call(me, log, []);
      found, h := LookUpIce(me, id, c);
      if found {
        forwarded, ending, before, at := ForwardAndEnd(me, h, id, turns, Then(c, IceStep(C.Acquire(id))));
        IceCallDone(me, old(log), id, h, |forwarded|);
      }
    }

    /** The loop and what follows it. */
    method ForwardAndEnd(me: nat, h: nat, id: Key, turns: seq<Turn>, ghost c: Call<Event>)
      returns (forwarded: seq<F.Candidate>, ending: Ending, ghost before: seq<By<Event>>, ghost at: State)
      requires Valid() && IceHandler(state, h, id, [], true) && c.me == me && SoFar(c, log)
      modifies this, repr
      ensures Valid() && LoopPolled(turns, me, h, |forwarded|, ending, before, at, log)
      ensures IceHandler(state, h, id, forwarded, !Ended(ending)) && (Ended(ending) ==> id !in state.ice.live)
      ensures var d := Forwarded(c, h, |forwarded|);
              SoFar(if Ended(ending) then Then(Then(d, IceStep(C.Leave(h))), IceStep(C.Delete(id))) else d, log)
      ensures forall v | v in forwarded :: Packet(id, v) in state.ice.consumed
    {
      forwarded, ending := ForwardAll(me, h, id, turns, c);
      before, at := log, state;
      if Ended(ending) {
        EndIce(me, h, id, forwarded, Forwarded(c, h, |forwarded|));
      }
      IceHandlerForId(state, h, id, forwarded, !Ended(ending));
    }
  }
}
