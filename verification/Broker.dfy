/**
  The signalling broker: OffererServer and AnswererServerImpl with their four
  routers, the channels `server.Serve` wires between them, the handlers' calls,
  and agents that follow `initWebRTCAsAnswerer`. Each event is one region of the
  Go code that runs without interleaving; a run is any interleaving of them.
 */
module Broker {
  import opened Runs
  import opened Packets
  import C = CreatingRouter
  import N = NonCreatingRouter
  import F = CandidateStreams

  /** Capacity of the shared answer and candidate channels. */
  const QUEUE := 1024

  datatype Offering = Offering(hostID: Key, answererID: Key, offer: string)

  /** How far the SendOffer call that minted an id has come. */
  datatype Phase = Minted | Notified | Accepted | GivenUp

  datatype Session = Session(host: Key, offer: string, phase: Phase)

  /** One WaitForOffer call and the agent that made it. `at` is the position of the
      offering in the mailbox it was received from. */
  datatype Agent =
    | Waiting
    | Gone
    | Took(o: Offering, at: nat)
    | Returned(o: Offering, at: nat)
    | Answered(o: Offering, at: nat, answer: string)

  datatype State = State(
    sessions: map<Key, Session>,           // by minted answerer id
    timers: set<Key>,                      // ids whose SendOffer clean-up has not run
    notified: seq<Key>,                    // ids whose host was notified, in order
    offers: C.State<Offering>,             // hostID2waitingCh and offerRouter
    agents: seq<Agent>,                    // one per look-up in hostID2waitingCh
    sentAnswers: seq<Packet<string>>,      // everything put on answerCh
    authors: seq<nat>,                     // the agent that sent each answer
    answers: N.State<string>,              // AnsID2AnsChan and answerRouter
    toAnswerer: F.State,                   // the offerer's SendIceCandidate streams and iceToAnsCh
    ansIce: C.State<F.Candidate>,          // the answerer's AnsID2iceToAnsChan and iceCandidateRouter
    toOfferer: F.State,                    // the answerer's SendIceCandidate streams and iceToOfferCh
    offIce: N.State<F.Candidate>,          // the offerer's AnsID2iceToAnsChan and iceCandidateRouter
    closed: set<nat>,                      // WaitForICECandidate calls whose send on closeIceToAnsCh is done
    deleted: set<nat>)                     // those that have deleted their entry too

  datatype Event =
    | Mint(id: Key, host: Key, offer: string)
    | Notify(id: Key)
    | HandOver(id: Key)
    | GiveUp(id: Key)
    | Cleanup(id: Key)
    | OfferRouter(offerStep: C.Event<Offering>)
    | WaitForOffer(host: Key)
    | TakeOffer(agent: nat)
    | ReturnOffer(agent: nat)
    | Leave(agent: nat)
    | SendAnswer(agent: nat, answer: string)
    | AnswerReceive
    | AnswerStep(answerStep: N.Event<string>)
    | ToAnswerer(upload: F.Event)
    | AnsIceReceive
    | AnsIceStep(ansIceStep: C.Event<F.Candidate>)
    | ToOfferer(upload: F.Event)
    | OffIceReceive
    | OffIceStep(offIceStep: N.Event<F.Candidate>)
    | CloseIce(call: nat)
    | DeleteIce(call: nat)

  function Init(): State {
    State(map[], {}, [], C.Init(1, true), [], [], [], N.Init(true), F.Init(), C.Init(QUEUE, false), F.Init(),
          N.Init(false), {}, {})
  }

  /** A new UUID: no session has it and no packet carries it. */
  predicate Fresh(s: State, id: Key) {
    && id !in s.sessions
    && (forall p | p in s.sentAnswers :: p.key != id)
    && (forall p | p in s.toOfferer.accepted :: p.key != id)
  }

  /** What may happen on its own around an offer or candidate table: the other steps belong to the events above. */
  predicate OfferStepAlone(e: C.Event<Offering>) { e.Resolve? || e.Send? || e.Fire? }
  predicate AnswerStepAlone(e: N.Event<string>) { e.Resolve? || e.HandOver? || e.Acquire? || e.Leave? }
  predicate AnsIceStepAlone(e: C.Event<F.Candidate>) { !e.Receive? && !e.Ensure? }
  predicate OffIceStepAlone(e: N.Event<F.Candidate>) { e.Resolve? || e.HandOver? || e.Acquire? || e.Leave? }

  function Step(s: State, e: Event): Option<State> {
    match e
    case Mint(id, host, offer) => StepMint(s, id, host, offer)
    case Notify(id) =>
      if id in s.sessions && s.sessions[id].phase.Minted? then
        Some(s.(sessions := s.sessions[id := s.sessions[id].(phase := Notified)], notified := s.notified + [id]))
      else None
    case HandOver(id) => StepHandOver(s, id)
    case GiveUp(id) =>
      if id in s.sessions && (s.sessions[id].phase.Minted? || s.sessions[id].phase.Notified?) then
        Some(s.(sessions := s.sessions[id := s.sessions[id].(phase := GivenUp)]))
      else None
    case Cleanup(id) =>
      if id in s.timers then
        Some(s.(timers := s.timers - {id},
                answers := s.answers.(live := s.answers.live - {id}),
                offIce := s.offIce.(live := s.offIce.live - {id})))
      else None
    case OfferRouter(c) =>
      var o := C.Step(s.offers, c);
      if OfferStepAlone(c) && o.Some? then Some(s.(offers := o.value)) else None
    case WaitForOffer(host) =>
      var o := C.Step(C.Ensured(s.offers, host, false), C.Acquire(host));
      if o.Some? then Some(s.(offers := o.value, agents := s.agents + [Waiting])) else None
    case TakeOffer(r) => StepTakeOffer(s, r)
    case ReturnOffer(r) =>
      if r < |s.agents| && s.agents[r].Took? then
        Some(s.(agents := s.agents[r := Returned(s.agents[r].o, s.agents[r].at)],
                ansIce := C.Ensured(s.ansIce, s.agents[r].o.answererID, true)))
      else None
    case Leave(r) =>
      if r < |s.agents| && s.agents[r].Waiting? then
        Some(s.(offers := C.Left(s.offers, r), agents := s.agents[r := Gone]))
      else None
    case SendAnswer(r, answer) =>
      if r < |s.agents| && s.agents[r].Returned? && |s.sentAnswers| < |s.answers.consumed| + QUEUE then
        Some(s.(agents := s.agents[r := Answered(s.agents[r].o, s.agents[r].at, answer)],
                sentAnswers := s.sentAnswers + [Packet(s.agents[r].o.answererID, answer)],
                authors := s.authors + [r]))
      else None
    case AnswerReceive =>
      if |s.answers.consumed| < |s.sentAnswers| then
        var n := N.Step(s.answers, N.Receive(s.sentAnswers[|s.answers.consumed|]));
        if n.Some? then Some(s.(answers := n.value)) else None
      else None
    case AnswerStep(n) =>
      var o := N.Step(s.answers, n);
      if AnswerStepAlone(n) && o.Some? then Some(s.(answers := o.value)) else None
    case ToAnswerer(f) =>
      var o := F.Step(s.toAnswerer, f);
      if o.Some? && |o.value.accepted| <= |s.ansIce.consumed| + QUEUE then Some(s.(toAnswerer := o.value)) else None
    case AnsIceReceive =>
      if |s.ansIce.consumed| < |s.toAnswerer.accepted| then
        var o := C.Step(s.ansIce, C.Receive(s.toAnswerer.accepted[|s.ansIce.consumed|]));
        if o.Some? then Some(s.(ansIce := o.value)) else None
      else None
    case AnsIceStep(c) =>
      var o := C.Step(s.ansIce, c);
      if AnsIceStepAlone(c) && o.Some? then Some(s.(ansIce := o.value)) else None
    case ToOfferer(f) =>
      var o := F.Step(s.toOfferer, f);
      if o.Some? && |o.value.accepted| <= |s.offIce.consumed| + QUEUE then Some(s.(toOfferer := o.value)) else None
    case OffIceReceive =>
      if |s.offIce.consumed| < |s.toOfferer.accepted| then
        var n := N.Step(s.offIce, N.Receive(s.toOfferer.accepted[|s.offIce.consumed|]));
        if n.Some? then Some(s.(offIce := n.value)) else None
      else None
    case OffIceStep(n) =>
      var o := N.Step(s.offIce, n);
      if OffIceStepAlone(n) && o.Some? then Some(s.(offIce := o.value)) else None
    case CloseIce(h) => StepCloseIce(s, h)
    case DeleteIce(h) =>
      if h in s.closed && h !in s.deleted && h < |s.offIce.refs| then
        Some(s.(deleted := s.deleted + {h}, offIce := s.offIce.(live := s.offIce.live - {s.offIce.refs[h]})))
      else None
  }

  /** SendOffer's locked section and the clean-up it starts. */
  function StepMint(s: State, id: Key, host: Key, offer: string): Option<State> {
    if !Fresh(s, id) then None
    else
      var a := N.Step(s.answers, N.Mint(id));
      var i := N.Step(s.offIce, N.Mint(id));
      if a.Some? && i.Some? then
        Some(s.(sessions := s.sessions[id := Session(host, offer, Minted)],
                timers := s.timers + {id}, answers := a.value, offIce := i.value))
      else None
  }

  /** The unbuffered offerCh: SendOffer's send meets offerRouter's receive. */
  function StepHandOver(s: State, id: Key): Option<State> {
    if id in s.sessions && s.sessions[id].phase.Notified? then
      var session := s.sessions[id];
      var o := C.Step(s.offers, C.Receive(Packet(session.host, Offering(session.host, id, session.offer))));
      if o.Some? then Some(s.(sessions := s.sessions[id := session.(phase := Accepted)], offers := o.value)) else None
    else None
  }

  /** The deferred function of the offerer's WaitForICECandidate first sends on the unbuffered closeIceToAnsCh:
      only the answerer's candidate router, at its select, receives from it. */
  function StepCloseIce(s: State, h: nat): Option<State> {
    if h in s.offIce.left && h !in s.closed && s.ansIce.hand.Idle? then Some(s.(closed := s.closed + {h})) else None
  }

  function StepTakeOffer(s: State, r: nat): Option<State> {
    var o := C.Step(s.offers, C.Take(r));
    if r < |s.agents| && s.agents[r].Waiting? && o.Some? then
      var m := s.offers.boxes[s.offers.refs[r].box];
      Some(s.(offers := o.value, agents := s.agents[r := Took(m.sent[|m.takers|], |m.takers|)]))
    else None
  }

  // ----- the invariant, part by part -----

  ghost predicate Parts(s: State) {
    && C.Inv(s.offers) && s.offers.capacity == 1 && s.offers.oneShot
    && C.Inv(s.ansIce) && s.ansIce.capacity == QUEUE
    && N.Inv(s.answers) && s.answers.oneShot && N.Inv(s.offIce) && F.Inv(s.toAnswerer) && F.Inv(s.toOfferer)
  }

  ghost predicate QueueOf<T>(consumed: seq<Packet<T>>, accepted: seq<Packet<T>>) {
    consumed <= accepted && |accepted| - |consumed| <= QUEUE
  }

  ghost predicate Queues(s: State) {
    && QueueOf(s.answers.consumed, s.sentAnswers)
    && QueueOf(s.ansIce.consumed, s.toAnswerer.accepted)
    && QueueOf(s.offIce.consumed, s.toOfferer.accepted)
  }

  /** Both maps of the offerer know exactly the minted ids; an id is mapped for answers exactly while its
      clean-up is pending, and for candidates at most that long. */
  ghost predicate Lifecycle(s: State) {
    && s.answers.slots.Keys == s.sessions.Keys
    && s.offIce.slots.Keys == s.sessions.Keys
    && s.answers.live == s.timers
    && s.offIce.live <= s.timers <= s.sessions.Keys
    && (forall id | id in s.sessions :: id in s.answers.slots && s.answers.slots[id].early == [])
    && (forall id | id in s.sessions :: id in s.offIce.slots && s.offIce.slots[id].early == [])
  }

  ghost predicate Genuine(sessions: map<Key, Session>, p: Packet<Offering>) {
    && p.body.answererID in sessions
    && p == Packet(sessions[p.body.answererID].host,
                   Offering(p.key, p.body.answererID, sessions[p.body.answererID].offer))
    && sessions[p.body.answererID].phase.Accepted?
  }

  ghost predicate OffersKnown(sessions: map<Key, Session>, consumed: seq<Packet<Offering>>) {
    NoDup(consumed) && forall i | 0 <= i < |consumed| :: Genuine(sessions, consumed[i])
  }

  ghost predicate AgentKnown(offers: C.State<Offering>, a: Agent, r: nat)
    requires r < |offers.refs|
  {
    a.Waiting? || a.Gone? ||
    (var b := offers.refs[r].box;
     && b < |offers.boxes|
     && a.at < |offers.boxes[b].takers| && offers.boxes[b].takers[a.at] == r
     && a.at < |offers.boxes[b].sent| && offers.boxes[b].sent[a.at] == a.o)
  }

  ghost predicate AgentsKnown(offers: C.State<Offering>, agents: seq<Agent>) {
    |agents| == |offers.refs| && forall r | 0 <= r < |agents| :: AgentKnown(offers, agents[r], r)
  }

  ghost predicate Authored(agents: seq<Agent>, p: Packet<string>, r: nat) {
    r < |agents| && agents[r].Answered? && agents[r].o.answererID == p.key && agents[r].answer == p.body
  }

  ghost predicate AnswersKnown(agents: seq<Agent>, sent: seq<Packet<string>>, authors: seq<nat>) {
    && |authors| == |sent|
    && (forall i | 0 <= i < |sent| :: Authored(agents, sent[i], authors[i]))
    && (forall i, j | 0 <= i < j < |sent| :: sent[i].key != sent[j].key)
  }

  ghost predicate NotifiedKnown(sessions: map<Key, Session>, notified: seq<Key>) {
    && NoDup(notified)
    && (forall i | 0 <= i < |notified| :: notified[i] in sessions && !sessions[notified[i]].phase.Minted?)
    && (forall id | id in sessions && (sessions[id].phase.Notified? || sessions[id].phase.Accepted?) :: id in notified)
  }

  ghost predicate Inv(s: State) {
    && Parts(s) && C.AllTimed(s.ansIce.boxes) && Queues(s) && Lifecycle(s)
    && OffersKnown(s.sessions, s.offers.consumed)
    && AgentsKnown(s.offers, s.agents)
    && AnswersKnown(s.agents, s.sentAnswers, s.authors)
    && NotifiedKnown(s.sessions, s.notified)
    && s.deleted <= s.closed <= s.offIce.left
  }
}
