/**
  The runs of the broker, exactly. Every part of the broker's state is what the events so
  far made it: the four tables are what their routers, the calls and the clean-ups did to
  them, each call is as far as it has come, and each agent holds what it was handed. So
  which step is possible can be read from the events alone.
 */
module BrokerRuns {
  import opened Runs
  import opened Packets
  import opened Broker
  import opened BrokerHistory
  import opened BrokerProofs
  import opened BrokerProjections
  import C = CreatingRouter
  import CH = CreatingHistory
  import N = NonCreatingRouter
  import NH = NonCreatingHistory
  import F = CandidateStreams
  import SH = StreamHistory

  // ----- what happened to hostID2waitingCh and offerRouter -----

  /** The call that minted `id` hands its offer, for its host, to the router. */
  function HandedOver(es: seq<Event>, id: Key): seq<C.Event<Offering>> {
    match MintedFor(es, id)
    case Some((host, offer)) => [C.Receive(Packet(host, Offering(host, id, offer)))]
    case None => []
  }

  function OffersTrace(es: seq<Event>): seq<C.Event<Offering>> {
    if |es| == 0 then []
    else
      var n := |es| - 1;
      OffersTrace(es[..n]) +
      match es[n]
      case HandOver(id) => HandedOver(es[..n], id)
      case OfferRouter(c) => [c]
      case WaitForOffer(host) => [C.Ensure(host, false), C.Acquire(host)]
      case TakeOffer(r) => [C.Take(r)]
      case Leave(r) => [C.Leave(r)]
      case _ => []
  }

  lemma {:induction false} OffersRunIs(es: seq<Event>, s: State)
    requires Reached(es, s)
    ensures CH.Reached(1, true, OffersTrace(es), s.offers)
  {
    if |es| > 0 {
      var n := |es| - 1;
      var t := RunLast(Step, Init(), es, s);
      OffersRunIs(es[..n], t);
      AgentsWaitForHosts(es[..n], t);
      OffersStep(t, es[n]);
      if es[n].HandOver? {
        SessionsAreMinted(es[..n], t, es[n].id);
      }
      assert OffersTrace(es) == OffersTrace(es[..n]) + OffersEvents(t, es[n]);
      RunConcat(C.Step, C.Init(1, true), OffersTrace(es[..n]), t.offers, OffersEvents(t, es[n]));
    }
  }

  // ----- the agents -----

  /** What agent `r` was handed, and at which position of its mailbox: the oldest value that nobody had taken from
      the channel its look-up found. */
  ghost function Taken(es: seq<Event>, r: nat): Option<(Offering, nat)> {
    if |es| == 0 then None
    else
      var n := |es| - 1;
      if es[n] == TakeOffer(r) then NextFor(OffersTrace(es[..n]), r) else Taken(es[..n], r)
  }

  ghost function NextFor(os: seq<C.Event<Offering>>, r: nat): Option<(Offering, nat)> {
    if r < |CH.Lookups(os)| then
      var box := CH.Lookups(os)[r].box;
      var at := |CH.TakersOf(os, box)|;
      if at < |CH.SentOn(os, box)| then Some((CH.SentOn(os, box)[at], at)) else None
    else None
  }

  /** The answer that agent `r` gave. */
  function Given(es: seq<Event>, r: nat): Option<string> {
    if |es| == 0 then None
    else match es[|es| - 1]
      case SendAnswer(q, answer) => if q == r then Some(answer) else Given(es[..|es| - 1], r)
      case _ => Given(es[..|es| - 1], r)
  }

  ghost function AgentAt(es: seq<Event>, r: nat): Agent {
    if Leave(r) in es then Gone
    else match Taken(es, r)
      case None => Waiting
      case Some((o, at)) =>
        (match Given(es, r)
         case Some(answer) => Answered(o, at, answer)
         case None => if ReturnOffer(r) in es then Returned(o, at) else Took(o, at))
  }

  ghost predicate AgentIs(es: seq<Event>, agents: seq<Agent>, r: nat) {
    && (if r < |agents| then agents[r] == AgentAt(es, r) else AgentAt(es, r).Waiting? && Taken(es, r).None?)
    && NothingWithoutOffer(es, r)
  }

  /** What a step does to one agent. */
  lemma AgentOnly(s: State, e: Event, r: nat)
    requires Step(s, e).Some? && |s.agents| == |s.offers.refs|
    ensures var t := Step(s, e).value;
            match e
            case TakeOffer(q) =>
              && |t.agents| == |s.agents| && q < |s.agents| && s.agents[q].Waiting? && C.Step(s.offers, C.Take(q)).Some?
              && (r < |s.agents| && r != q ==> t.agents[r] == s.agents[r])
              && (var m := s.offers.boxes[s.offers.refs[q].box];
                  t.agents[q] == Took(m.sent[|m.takers|], |m.takers|))
            case ReturnOffer(q) =>
              && |t.agents| == |s.agents| && q < |s.agents| && s.agents[q].Took?
              && t.agents == s.agents[q := Returned(s.agents[q].o, s.agents[q].at)]
            case Leave(q) => q < |s.agents| && s.agents[q].Waiting? && t.agents == s.agents[q := Gone]
            case SendAnswer(q, answer) =>
              && q < |s.agents| && s.agents[q].Returned?
              && t.agents == s.agents[q := Answered(s.agents[q].o, s.agents[q].at, answer)]
            case WaitForOffer(_) => t.agents == s.agents + [Waiting]
            case _ => t.agents == s.agents
  {
  }

  lemma HandedNext(es: seq<Event>, s: State, r: nat)
    requires Reached(es, s) && C.Step(s.offers, C.Take(r)).Some?
    ensures var m := s.offers.boxes[s.offers.refs[r].box];
            NextFor(OffersTrace(es), r) == Some((m.sent[|m.takers|], |m.takers|))
  {
    var os := OffersTrace(es);
    OffersRunIs(es, s);
    CH.StateIsHistory(1, true, os, s.offers);
    assert CH.BoxIs(os, s.offers.boxes, s.offers.refs[r].box);
  }

  /** The last event is not one of agent `r`. */
  predicate NotOf(e: Event, r: nat) {
    e != TakeOffer(r) && e != ReturnOffer(r) && e != Leave(r) && !(e.SendAnswer? && e.agent == r)
  }

  ghost predicate NothingWithoutOffer(es: seq<Event>, r: nat) {
    Taken(es, r).None? ==> ReturnOffer(r) !in es && Given(es, r).None?
  }

  /** What the last event does to where agent `r` is. */
  lemma AgentMoves(es: seq<Event>, r: nat)
    requires |es| > 0 && NothingWithoutOffer(es[..|es| - 1], r)
    ensures var before, e := AgentAt(es[..|es| - 1], r), es[|es| - 1];
            && (NotOf(e, r) ==> AgentAt(es, r) == before && Taken(es, r) == Taken(es[..|es| - 1], r))
            && (e == Leave(r) ==> AgentAt(es, r) == Gone)
            && (e == TakeOffer(r) && before.Waiting? && Taken(es, r).Some? ==>
                  AgentAt(es, r) == Took(Taken(es, r).value.0, Taken(es, r).value.1))
            && (e == ReturnOffer(r) && before.Took? ==> AgentAt(es, r) == Returned(before.o, before.at))
            && (e.SendAnswer? && e.agent == r && before.Returned? ==>
                  AgentAt(es, r) == Answered(before.o, before.at, e.answer))
            && (NotOf(e, r) || e == Leave(r) || (e == TakeOffer(r) && Taken(es, r).Some?) ||
                (e == ReturnOffer(r) && before.Took?) || (e.SendAnswer? && before.Returned?) ==>
                  NothingWithoutOffer(es, r))
  {
    var n := |es| - 1;
    assert es == es[..n] + [es[n]];
  }

  lemma AgentNext(es: seq<Event>, s: State, t: State, r: nat)
    requires |es| > 0 && Reached(es[..|es| - 1], s) && Step(s, es[|es| - 1]) == Some(t)
    requires AgentIs(es[..|es| - 1], s.agents, r)
    ensures AgentIs(es, t.agents, r)
  {
    var n := |es| - 1;
    AgentMoves(es, r);
    AgentsWaitForHosts(es[..n], s);
    AgentOnly(s, es[n], r);
    if es[n] == TakeOffer(r) {
      HandedNext(es[..n], s, r);
    }
  }

  /** Each agent is where its own events have brought it. */
  lemma {:induction false} AgentsAreHistory(es: seq<Event>, s: State, r: nat)
    requires Reached(es, s)
    ensures AgentIs(es, s.agents, r)
  {
    if |es| > 0 {
      var t := RunLast(Step, Init(), es, s);
      AgentsAreHistory(es[..|es| - 1], t, r);
      AgentNext(es, t, s, r);
    }
  }

  // ----- answerCh, and what happened to AnsID2AnsChan and answerRouter -----

  /** The answers that the agents gave, each for the id the agent was handed. */
  ghost function AnswersSent(es: seq<Event>): seq<Packet<string>> {
    if |es| == 0 then []
    else
      var n := |es| - 1;
      AnswersSent(es[..n]) +
      match es[n]
      case SendAnswer(r, answer) =>
        (match Taken(es[..n], r) case Some((o, _)) => [Packet(o.answererID, answer)] case None => [])
      case _ => []
  }

  lemma AnswerOnly(s: State, e: Event)
    requires Step(s, e).Some?
    ensures var t := Step(s, e).value;
            match e
            case SendAnswer(r, answer) =>
              && r < |s.agents| && s.agents[r].Returned?
              && t.sentAnswers == s.sentAnswers + [Packet(s.agents[r].o.answererID, answer)]
            case _ => t.sentAnswers == s.sentAnswers
  {
  }

  lemma {:induction false} AnswersSentInOrder(es: seq<Event>, s: State)
    requires Reached(es, s)
    ensures s.sentAnswers == AnswersSent(es)
  {
    if |es| > 0 {
      var n := |es| - 1;
      var t := RunLast(Step, Init(), es, s);
      AnswersSentInOrder(es[..n], t);
      AnswerOnly(t, es[n]);
      if es[n].SendAnswer? {
        AgentsAreHistory(es[..n], t, es[n].agent);
      }
    }
  }

  lemma ReceiveOnly(s: State, e: Event)
    requires Step(s, e).Some?
    ensures var t := Step(s, e).value;
            && |t.answers.consumed| == |s.answers.consumed| + (if e == AnswerReceive then 1 else 0)
            && |t.ansIce.consumed| == |s.ansIce.consumed| + (if e == AnsIceReceive then 1 else 0)
            && |t.offIce.consumed| == |s.offIce.consumed| + (if e == OffIceReceive then 1 else 0)
  {
  }

  /** Each router has received once for each of its receives. */
  lemma {:induction false} ReceivesCounted(es: seq<Event>, s: State)
    requires Reached(es, s)
    ensures |s.answers.consumed| == Count(es, AnswerReceive)
    ensures |s.ansIce.consumed| == Count(es, AnsIceReceive)
    ensures |s.offIce.consumed| == Count(es, OffIceReceive)
  {
    if |es| > 0 {
      var t := RunLast(Step, Init(), es, s);
      ReceivesCounted(es[..|es| - 1], t);
      ReceiveOnly(t, es[|es| - 1]);
    }
  }

  /** The oldest packet of a queue that has not been received. */
  function Oldest<T>(queue: seq<Packet<T>>, received: nat): seq<Packet<T>> {
    if received < |queue| then [queue[received]] else []
  }

  ghost function AnswersTrace(es: seq<Event>): seq<N.Event<string>> {
    if |es| == 0 then []
    else
      var n := |es| - 1;
      AnswersTrace(es[..n]) +
      match es[n]
      case Mint(id, _, _) => [N.Mint(id)]
      case Cleanup(id) => [N.Delete(id)]
      case AnswerReceive => Received(Oldest(AnswersSent(es[..n]), Count(es[..n], AnswerReceive)))
      case AnswerStep(n) => [n]
      case _ => []
  }

  function Received<T>(ps: seq<Packet<T>>): seq<N.Event<T>> {
    if |ps| == 0 then [] else [N.Receive(ps[0])]
  }

  lemma {:induction false} AnswersRunIs(es: seq<Event>, s: State)
    requires Reached(es, s)
    ensures NH.Reached(true, AnswersTrace(es), s.answers)
  {
    if |es| > 0 {
      var n := |es| - 1;
      var t := RunLast(Step, Init(), es, s);
      AnswersRunIs(es[..n], t);
      AnswersStep(t, es[n]);
      AnswersSentInOrder(es[..n], t);
      ReceivesCounted(es[..n], t);
      assert AnswersTrace(es) == AnswersTrace(es[..n]) + AnswersEvents(t, es[n]);
      RunConcat(N.Step, N.Init(true), AnswersTrace(es[..n]), t.answers, AnswersEvents(t, es[n]));
    }
  }

  // ----- the candidates -----

  /** What the offerers' streams pushed towards the answerers, */
  function ToAnswerers(es: seq<Event>): seq<Packet<F.Candidate>> {
    SH.Pushed(FromOfferers(es))
  }

  /** and the answerers' towards the offerers. */
  function ToOfferers(es: seq<Event>): seq<Packet<F.Candidate>> {
    SH.Pushed(FromAnswerers(es))
  }

  lemma CandidatesPushedInOrder(es: seq<Event>, s: State)
    requires Reached(es, s)
    ensures s.toAnswerer.accepted == ToAnswerers(es) && s.toOfferer.accepted == ToOfferers(es)
  {
    OfferersRun(es, s);
    AnswerersRun(es, s);
    SH.StateIsHistory(FromOfferers(es), s.toAnswerer);
    SH.StateIsHistory(FromAnswerers(es), s.toOfferer);
  }

  /** What an event does to the answerer's AnsID2iceToAnsChan and iceCandidateRouter, */
  ghost function AnsIceDoes(es: seq<Event>, e: Event): seq<C.Event<F.Candidate>> {
    match e
    case ReturnOffer(r) => (match Taken(es, r) case Some((o, _)) => [C.Ensure(o.answererID, true)] case None => [])
    case AnsIceReceive => ReceivedC(Oldest(ToAnswerers(es), Count(es, AnsIceReceive)))
    case AnsIceStep(c) => [c]
    case _ => []
  }

  /** and what happened to them. */
  ghost function AnsIceTrace(es: seq<Event>): seq<C.Event<F.Candidate>> {
    if |es| == 0 then [] else AnsIceTrace(es[..|es| - 1]) + AnsIceDoes(es[..|es| - 1], es[|es| - 1])
  }

  function ReceivedC<T>(ps: seq<Packet<T>>): seq<C.Event<T>> {
    if |ps| == 0 then [] else [C.Receive(ps[0])]
  }

  lemma ReturnNeedsTaken(s: State, r: nat)
    requires Step(s, ReturnOffer(r)).Some?
    ensures r < |s.agents| && s.agents[r].Took?
  {
  }

  lemma AnsIceDoesSo(es: seq<Event>, t: State, e: Event)
    requires Reached(es, t) && Step(t, e).Some?
    ensures AnsIceDoes(es, e) == AnsIceEvents(t, e)
  {
    CandidatesPushedInOrder(es, t);
    ReceivesCounted(es, t);
    if e.ReturnOffer? {
      AgentsAreHistory(es, t, e.agent);
      ReturnNeedsTaken(t, e.agent);
    }
  }

  lemma {:induction false} AnsIceRunIs(es: seq<Event>, s: State)
    requires Reached(es, s)
    ensures CH.Reached(QUEUE, false, AnsIceTrace(es), s.ansIce)
  {
    if |es| > 0 {
      var n := |es| - 1;
      var t := RunLast(Step, Init(), es, s);
      AnsIceRunIs(es[..n], t);
      AnsIceStepProjects(t, es[n]);
      AnsIceDoesSo(es[..n], t, es[n]);
      RunConcat(C.Step, C.Init(QUEUE, false), AnsIceTrace(es[..n]), t.ansIce, AnsIceEvents(t, es[n]));
    }
  }

  /** What an event does to the offerer's AnsID2iceToAnsChan and iceCandidateRouter, */
  function OffIceDoes(es: seq<Event>, looked: seq<Key>, e: Event): seq<N.Event<F.Candidate>> {
    match e
    case Mint(id, _, _) => [N.Mint(id)]
    case Cleanup(id) => [N.Delete(id)]
    case OffIceReceive => Received(Oldest(ToOfferers(es), Count(es, OffIceReceive)))
    case OffIceStep(n) => [n]
    case DeleteIce(h) => if h < |looked| then [N.Delete(looked[h])] else []
    case _ => []
  }

  /** and what happened to them. */
  ghost function OffIceTrace(es: seq<Event>): seq<N.Event<F.Candidate>> {
    if |es| == 0 then []
    else
      var before := OffIceTrace(es[..|es| - 1]);
      before + OffIceDoes(es[..|es| - 1], NH.Lookups(before), es[|es| - 1])
  }

  lemma OffIceDoesSo(es: seq<Event>, t: State, e: Event)
    requires t.toOfferer.accepted == ToOfferers(es) && |t.offIce.consumed| == Count(es, OffIceReceive)
    ensures OffIceDoes(es, t.offIce.refs, e) == OffIceEvents(t, e)
  {
  }

  lemma {:induction false} OffIceRunIs(es: seq<Event>, s: State)
    requires Reached(es, s)
    ensures NH.Reached(false, OffIceTrace(es), s.offIce)
  {
    if |es| > 0 {
      var n := |es| - 1;
      var t := RunLast(Step, Init(), es, s);
      OffIceRunIs(es[..n], t);
      OffIceStepProjects(t, es[n]);
      CandidatesPushedInOrder(es[..n], t);
      ReceivesCounted(es[..n], t);
      NH.StateIsHistory(false, OffIceTrace(es[..n]), t.offIce);
      OffIceDoesSo(es[..n], t, es[n]);
      RunConcat(N.Step, N.Init(false), OffIceTrace(es[..n]), t.offIce, OffIceEvents(t, es[n]));
    }
  }

  // ----- the SendOffer calls -----

  /** How far the call that minted `id` has come. */
  function PhaseOf(es: seq<Event>, id: Key): Option<Phase> {
    if MintedFor(es, id).None? then None
    else if HandOver(id) in es then Some(Accepted)
    else if GiveUp(id) in es then Some(GivenUp)
    else if Notify(id) in es then Some(Notified)
    else Some(Minted)
  }

  ghost predicate CallIs(es: seq<Event>, s: State, id: Key) {
    && PhaseOf(es, id) == (if id in s.sessions then Some(s.sessions[id].phase) else None)
    && (id in s.timers <==> MintedFor(es, id).Some? && Cleanup(id) !in es)
    && (id !in s.sessions ==> HandOver(id) !in es && GiveUp(id) !in es && Notify(id) !in es && Cleanup(id) !in es)
    && (id in s.sessions && s.sessions[id].phase.GivenUp? ==> HandOver(id) !in es)
  }

  /** What a step does to one call and its clean-up. */
  lemma CallOnly(s: State, e: Event, id: Key)
    requires Step(s, e).Some?
    ensures var t := Step(s, e).value;
            && (id in t.sessions <==> id in s.sessions || (e.Mint? && e.id == id))
            && (e.Mint? && e.id == id ==> id !in s.sessions && t.sessions[id].phase.Minted? && id in t.timers)
            && (e == Notify(id) ==> id in s.sessions && s.sessions[id].phase.Minted? && t.sessions[id].phase.Notified?)
            && (e == HandOver(id) ==>
                  id in s.sessions && s.sessions[id].phase.Notified? && t.sessions[id].phase.Accepted?)
            && (e == GiveUp(id) ==>
                  && id in s.sessions && (s.sessions[id].phase.Minted? || s.sessions[id].phase.Notified?)
                  && t.sessions[id].phase.GivenUp?)
            && (e == Cleanup(id) ==> id in s.timers && id !in t.timers)
            && (id in s.sessions && e != Notify(id) && e != HandOver(id) && e != GiveUp(id) ==>
                  t.sessions[id].phase == s.sessions[id].phase)
            && (e != Cleanup(id) && !(e.Mint? && e.id == id) ==> (id in t.timers <==> id in s.timers))
  {
  }

  lemma CallNext(es: seq<Event>, s: State, t: State, id: Key)
    requires |es| > 0 && Reached(es[..|es| - 1], s) && Step(s, es[|es| - 1]) == Some(t)
    requires CallIs(es[..|es| - 1], s, id)
    ensures CallIs(es, t, id)
  {
    var n := |es| - 1;
    assert es == es[..n] + [es[n]];
    CallOnly(s, es[n], id);
  }

  /** Each SendOffer call, and its clean-up, is where its own events have brought it. */
  lemma {:induction false} CallsAreHistory(es: seq<Event>, s: State, id: Key)
    requires Reached(es, s)
    ensures CallIs(es, s, id)
  {
    if |es| > 0 {
      var t := RunLast(Step, Init(), es, s);
      CallsAreHistory(es[..|es| - 1], t, id);
      CallNext(es, t, s, id);
    }
  }

  lemma ClosesOnly(s: State, e: Event, h: nat)
    requires Step(s, e).Some?
    ensures h in Step(s, e).value.closed <==> h in s.closed || e == CloseIce(h)
    ensures h in Step(s, e).value.deleted <==> h in s.deleted || e == DeleteIce(h)
  {
  }

  lemma LastOrBefore(es: seq<Event>, e: Event)
    requires |es| > 0
    ensures e in es <==> e in es[..|es| - 1] || es[|es| - 1] == e
  {
    assert es == es[..|es| - 1] + [es[|es| - 1]];
  }

  lemma {:induction false} ClosesAreHistory(es: seq<Event>, s: State, h: nat)
    requires Reached(es, s)
    ensures h in s.closed <==> CloseIce(h) in es
    ensures h in s.deleted <==> DeleteIce(h) in es
  {
    if |es| > 0 {
      var n := |es| - 1;
      var t := RunLast(Step, Init(), es, s);
      ClosesAreHistory(es[..n], t, h);
      ClosesOnly(t, es[n], h);
      LastOrBefore(es, CloseIce(h));
      LastOrBefore(es, DeleteIce(h));
    }
  }

  // ----- what can happen next -----

  /** A new UUID: no call was given it, and no packet names it. */
  ghost predicate Unused(es: seq<Event>, id: Key) {
    && MintedFor(es, id).None?
    && (forall p | p in AnswersSent(es) :: p.key != id)
    && (forall p | p in ToOfferers(es) :: p.key != id)
  }

  ghost predicate OfferCall(es: seq<Event>, e: Event) {
    match e
    case Mint(id, _, _) => Unused(es, id)
    case Notify(id) => PhaseOf(es, id) == Some(Minted)
    case HandOver(id) => PhaseOf(es, id) == Some(Notified) && CH.Held(OffersTrace(es)).Idle?
    case GiveUp(id) => PhaseOf(es, id) == Some(Minted) || PhaseOf(es, id) == Some(Notified)
    case Cleanup(id) => MintedFor(es, id).Some? && Cleanup(id) !in es
    case _ => false
  }

  ghost predicate AgentCall(es: seq<Event>, e: Event) {
    match e
    case WaitForOffer(_) => true
    case TakeOffer(r) =>
      r < |HostsAwaited(es)| && AgentAt(es, r).Waiting? && CH.CanHappen(1, true, OffersTrace(es), C.Take(r))
    case ReturnOffer(r) => r < |HostsAwaited(es)| && AgentAt(es, r).Took?
    case Leave(r) => r < |HostsAwaited(es)| && AgentAt(es, r).Waiting?
    case SendAnswer(r, _) =>
      && r < |HostsAwaited(es)| && AgentAt(es, r).Returned?
      && |AnswersSent(es)| < Count(es, AnswerReceive) + QUEUE
    case _ => false
  }

  /** What can happen after a history. */
  ghost predicate CanHappen(es: seq<Event>, e: Event) {
    match e
    case OfferRouter(c) => OfferStepAlone(c) && CH.CanHappen(1, true, OffersTrace(es), c)
    case AnswerReceive => Count(es, AnswerReceive) < |AnswersSent(es)| && NH.Held(AnswersTrace(es)).Idle?
    case AnswerStep(n) => AnswerStepAlone(n) && NH.CanHappen(true, AnswersTrace(es), n)
    case ToAnswerer(f) =>
      && SH.CanHappen(FromOfferers(es), f)
      && (f.Push? ==> |ToAnswerers(es)| < Count(es, AnsIceReceive) + QUEUE)
    case AnsIceReceive => Count(es, AnsIceReceive) < |ToAnswerers(es)| && CH.Held(AnsIceTrace(es)).Idle?
    case AnsIceStep(c) => AnsIceStepAlone(c) && CH.CanHappen(QUEUE, false, AnsIceTrace(es), c)
    case ToOfferer(f) =>
      && SH.CanHappen(FromAnswerers(es), f)
      && (f.Push? ==> |ToOfferers(es)| < Count(es, OffIceReceive) + QUEUE)
    case OffIceReceive => Count(es, OffIceReceive) < |ToOfferers(es)| && NH.Held(OffIceTrace(es)).Idle?
    case OffIceStep(n) => OffIceStepAlone(n) && NH.CanHappen(false, OffIceTrace(es), n)
    case CloseIce(h) =>
      NH.Returned(false, OffIceTrace(es), h) && CloseIce(h) !in es && CH.Held(AnsIceTrace(es)).Idle?
    case DeleteIce(h) => CloseIce(h) in es && DeleteIce(h) !in es
    case _ => OfferCall(es, e) || AgentCall(es, e)
  }

  /** Both maps of the offerer know the minted ids only. */
  lemma FreshIsEnough(s: State, id: Key, host: Key, offer: string)
    requires Inv(s)
    ensures Step(s, Mint(id, host, offer)).Some? <==> Fresh(s, id)
  {
  }

  lemma MintCan(es: seq<Event>, s: State, id: Key, host: Key, offer: string)
    requires Reached(es, s)
    ensures Step(s, Mint(id, host, offer)).Some? <==> Unused(es, id)
  {
    SessionsAreMinted(es, s, id);
    AnswersSentInOrder(es, s);
    CandidatesPushedInOrder(es, s);
    InvRun(es, s);
    FreshIsEnough(s, id, host, offer);
  }

  lemma OfferCallCan(es: seq<Event>, s: State, e: Event)
    requires Reached(es, s) && (e.Notify? || e.HandOver? || e.GiveUp? || e.Cleanup?)
    ensures Step(s, e).Some? <==> OfferCall(es, e)
  {
    CallsAreHistory(es, s, e.id);
    SessionsAreMinted(es, s, e.id);
    if e.HandOver? {
      OffersRunIs(es, s);
      CH.StateIsHistory(1, true, OffersTrace(es), s.offers);
    }
  }

  lemma WaitAlways(s: State, host: Key)
    ensures Step(s, WaitForOffer(host)).Some?
  {
  }

  lemma AgentCallCan(es: seq<Event>, s: State, e: Event)
    requires Reached(es, s) && (e.TakeOffer? || e.ReturnOffer? || e.Leave? || e.SendAnswer?)
    ensures Step(s, e).Some? <==> AgentCall(es, e)
  {
    AgentsWaitForHosts(es, s);
    AgentsAreHistory(es, s, e.agent);
    if e.TakeOffer? {
      OffersRunIs(es, s);
      CH.HappensExactly(1, true, OffersTrace(es), s.offers, C.Take(e.agent));
    } else if e.SendAnswer? {
      AnswersSentInOrder(es, s);
      ReceivesCounted(es, s);
    }
  }

  lemma OfferRouterCan(es: seq<Event>, s: State, e: Event)
    requires Reached(es, s) && e.OfferRouter?
    ensures Step(s, e).Some? <==> CanHappen(es, e)
  {
    OffersRunIs(es, s);
    CH.HappensExactly(1, true, OffersTrace(es), s.offers, e.offerStep);
  }

  lemma AnswerRouterCan(es: seq<Event>, s: State, e: Event)
    requires Reached(es, s) && (e.AnswerReceive? || e.AnswerStep?)
    ensures Step(s, e).Some? <==> CanHappen(es, e)
  {
    AnswersRunIs(es, s);
    if e.AnswerStep? {
      NH.HappensExactly(true, AnswersTrace(es), s.answers, e.answerStep);
    } else {
      NH.StateIsHistory(true, AnswersTrace(es), s.answers);
      AnswersSentInOrder(es, s);
      ReceivesCounted(es, s);
    }
  }

  lemma AnsIceRouterCan(es: seq<Event>, s: State, e: Event)
    requires Reached(es, s) && (e.AnsIceReceive? || e.AnsIceStep?)
    ensures Step(s, e).Some? <==> CanHappen(es, e)
  {
    AnsIceRunIs(es, s);
    if e.AnsIceStep? {
      CH.HappensExactly(QUEUE, false, AnsIceTrace(es), s.ansIce, e.ansIceStep);
    } else {
      CH.StateIsHistory(QUEUE, false, AnsIceTrace(es), s.ansIce);
      CandidatesPushedInOrder(es, s);
      ReceivesCounted(es, s);
    }
  }

  lemma OffIceRouterCan(es: seq<Event>, s: State, e: Event)
    requires Reached(es, s) && (e.OffIceReceive? || e.OffIceStep?)
    ensures Step(s, e).Some? <==> CanHappen(es, e)
  {
    OffIceRunIs(es, s);
    if e.OffIceStep? {
      NH.HappensExactly(false, OffIceTrace(es), s.offIce, e.offIceStep);
    } else {
      NH.StateIsHistory(false, OffIceTrace(es), s.offIce);
      CandidatesPushedInOrder(es, s);
      ReceivesCounted(es, s);
    }
  }

  lemma PushOnly(f: F.State, e: F.Event)
    requires F.Step(f, e).Some?
    ensures |F.Step(f, e).value.accepted| == |f.accepted| + if e.Push? then 1 else 0
  {
  }

  lemma StreamCan(es: seq<Event>, s: State, e: Event)
    requires Reached(es, s) && (e.ToAnswerer? || e.ToOfferer?)
    ensures Step(s, e).Some? <==> CanHappen(es, e)
  {
    InvRun(es, s);
    CandidatesPushedInOrder(es, s);
    ReceivesCounted(es, s);
    if e.ToAnswerer? {
      OfferersRun(es, s);
      SH.HappensExactly(FromOfferers(es), s.toAnswerer, e.upload);
      if F.Step(s.toAnswerer, e.upload).Some? {
        PushOnly(s.toAnswerer, e.upload);
      }
    } else {
      AnswerersRun(es, s);
      SH.HappensExactly(FromAnswerers(es), s.toOfferer, e.upload);
      if F.Step(s.toOfferer, e.upload).Some? {
        PushOnly(s.toOfferer, e.upload);
      }
    }
  }

  /** The call `h` has left its loop exactly if it has returned from the select. */
  lemma LeftIsReturned(es: seq<Event>, s: State, h: nat)
    requires Reached(es, s)
    ensures h in s.offIce.left <==> NH.Returned(false, OffIceTrace(es), h)
  {
    OffIceRunIs(es, s);
    NH.StateIsHistory(false, OffIceTrace(es), s.offIce);
  }

  lemma AnsIceHandIs(es: seq<Event>, s: State)
    requires Reached(es, s)
    ensures s.ansIce.hand == CH.Held(AnsIceTrace(es))
  {
    AnsIceRunIs(es, s);
    CH.StateIsHistory(QUEUE, false, AnsIceTrace(es), s.ansIce);
  }

  lemma ClosedHaveCalls(s: State)
    requires Inv(s)
    ensures s.deleted <= s.closed && forall h | h in s.closed :: h < |s.offIce.refs|
  {
  }

  lemma CloseCan(es: seq<Event>, s: State, e: Event)
    requires Reached(es, s) && (e.CloseIce? || e.DeleteIce?)
    ensures Step(s, e).Some? <==> CanHappen(es, e)
  {
    ClosesAreHistory(es, s, e.call);
    LeftIsReturned(es, s, e.call);
    AnsIceHandIs(es, s);
    InvRun(es, s);
    ClosedHaveCalls(s);
  }

  /** A step of the broker is possible exactly when the history allows it. */
  lemma HappensExactly(es: seq<Event>, s: State, e: Event)
    requires Reached(es, s)
    ensures Step(s, e).Some? <==> CanHappen(es, e)
  {
    match e {
      case Mint(id, host, offer) => MintCan(es, s, id, host, offer);
      case WaitForOffer(host) => WaitAlways(s, host);
      case OfferRouter(_) => OfferRouterCan(es, s, e);
      case AnswerReceive => AnswerRouterCan(es, s, e);
      case AnswerStep(_) => AnswerRouterCan(es, s, e);
      case ToAnswerer(_) => StreamCan(es, s, e);
      case ToOfferer(_) => StreamCan(es, s, e);
      case AnsIceReceive => AnsIceRouterCan(es, s, e);
      case AnsIceStep(_) => AnsIceRouterCan(es, s, e);
      case OffIceReceive => OffIceRouterCan(es, s, e);
      case OffIceStep(_) => OffIceRouterCan(es, s, e);
      case CloseIce(_) => CloseCan(es, s, e);
      case DeleteIce(_) => CloseCan(es, s, e);
      case _ => if e.Notify? || e.HandOver? || e.GiveUp? || e.Cleanup? {
                  OfferCallCan(es, s, e);
                } else {
                  AgentCallCan(es, s, e);
                }
    }
  }

  ghost function Can(): (seq<Event>, Event) -> bool {
    (es, e) => CanHappen(es, e)
  }

  /** The runs of the broker are exactly the schedules whose events could each happen then. */
  lemma RunsAreHistories(es: seq<Event>)
    ensures Run(Step, Init(), es).Some? <==> Allowed(Can(), es)
  {
    forall fs, s, e | Reached(fs, s) ensures Can()(fs, e) <==> Step(s, e).Some? {
      HappensExactly(fs, s, e);
    }
    RunsAreAllowed(Can(), Step, Init(), es);
  }
}
