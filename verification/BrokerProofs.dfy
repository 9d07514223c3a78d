/** Every event of the broker keeps its invariant. */
module BrokerProofs {
  import opened Runs
  import opened Packets
  import opened Broker
  import C = CreatingRouter
  import N = NonCreatingRouter
  import F = CandidateStreams

  lemma InvInit()
    ensures Inv(Init())
  {
    C.InvInit<Offering>(1, true);
    C.InvInit<F.Candidate>(QUEUE, false);
    N.InvInit<string>(true);
    N.InvInit<F.Candidate>(false);
  }

  // ----- offers and agents -----

  lemma {:induction false} StreamNoDup<T>(ps: seq<Packet<T>>, k: Key)
    requires NoDup(ps)
    ensures NoDup(Stream(ps, k))
  {
    if |ps| > 0 {
      var n := |ps| - 1;
      StreamNoDup(ps[..n], k);
      StreamMembers(ps[..n], k, ps[n].body);
      assert forall i | 0 <= i < n :: ps[..n][i] != ps[n];
    }
  }

  /** A mailbox holds only genuine offerings, none of them twice. */
  lemma OfferingsUnique(s: State, b: nat, i: nat, c: nat, j: nat)
    requires C.Inv(s.offers) && OffersKnown(s.sessions, s.offers.consumed)
    requires b < |s.offers.boxes| && i < |s.offers.boxes[b].sent|
    requires c < |s.offers.boxes| && j < |s.offers.boxes[c].sent|
    requires s.offers.boxes[b].sent[i].answererID == s.offers.boxes[c].sent[j].answererID
    ensures b == c && i == j
    ensures Genuine(s.sessions, Packet(s.offers.boxes[b].key, s.offers.boxes[b].sent[i]))
  {
    OfferingGenuine(s, b, i);
    OfferingGenuine(s, c, j);
    var k := s.offers.boxes[b].key;
    StreamNoDup(s.offers.consumed, k);
    assert C.History(s.offers.boxes, k) <= Stream(s.offers.consumed, k) by {
      assert C.History(s.offers.boxes, k) + C.InHand(s.offers.hand, k) == Stream(s.offers.consumed, k);
    }
    C.DistinctPositions(s.offers.boxes, b, i, c, j);
  }

  lemma OfferingGenuine(s: State, b: nat, i: nat)
    requires C.Inv(s.offers) && OffersKnown(s.sessions, s.offers.consumed)
    requires b < |s.offers.boxes| && i < |s.offers.boxes[b].sent|
    ensures Genuine(s.sessions, Packet(s.offers.boxes[b].key, s.offers.boxes[b].sent[i]))
  {
    var k := s.offers.boxes[b].key;
    var o := s.offers.boxes[b].sent[i];
    C.HistoryMember(s.offers.boxes, b, i);
    assert C.History(s.offers.boxes, k) + C.InHand(s.offers.hand, k) == Stream(s.offers.consumed, k);
    StreamMembers(s.offers.consumed, k, o);
  }

  predicate HasOffer(a: Agent) { a.Took? || a.Returned? || a.Answered? }

  /** At most one agent is ever handed an id. */
  lemma AgentUnique(s: State, r: nat, q: nat)
    requires Parts(s) && OffersKnown(s.sessions, s.offers.consumed) && AgentsKnown(s.offers, s.agents)
    requires r < |s.agents| && q < |s.agents| && HasOffer(s.agents[r]) && HasOffer(s.agents[q])
    requires s.agents[r].o.answererID == s.agents[q].o.answererID
    ensures r == q
  {
    assert AgentKnown(s.offers, s.agents[r], r) && AgentKnown(s.offers, s.agents[q], q);
    OfferingsUnique(s, s.offers.refs[r].box, s.agents[r].at, s.offers.refs[q].box, s.agents[q].at);
  }

  /** Steps of the offer table that make no new look-up leave every agent's offering where it was. */
  lemma AgentsFramed(s: C.State<Offering>, t: C.State<Offering>, agents: seq<Agent>)
    requires AgentsKnown(s, agents) && C.Extends(s, t) && |t.refs| == |s.refs|
    ensures AgentsKnown(t, agents)
  {
    forall r | 0 <= r < |agents| ensures AgentKnown(t, agents[r], r) {
      assert AgentKnown(s, agents[r], r);
      assert t.refs == s.refs;
    }
  }

  lemma QueueGrows<T>(consumed: seq<Packet<T>>, accepted: seq<Packet<T>>, accepted': seq<Packet<T>>)
    requires QueueOf(consumed, accepted) && accepted <= accepted' && |accepted'| <= |consumed| + QUEUE
    ensures QueueOf(consumed, accepted')
  {
  }

  lemma QueueShifts<T>(consumed: seq<Packet<T>>, accepted: seq<Packet<T>>)
    requires QueueOf(consumed, accepted) && |consumed| < |accepted|
    ensures QueueOf(consumed + [accepted[|consumed|]], accepted)
  {
  }

  lemma NoPacketNoStream<T>(ps: seq<Packet<T>>, k: Key)
    requires forall p | p in ps :: p.key != k
    ensures Stream(ps, k) == []
  {
    if Stream(ps, k) != [] {
      StreamMembers(ps, k, Stream(ps, k)[0]);
      assert false;
    }
  }

  lemma FreshMeansNothingDropped<T>(n: N.State<T>, accepted: seq<Packet<T>>, id: Key)
    requires N.Inv(n) && n.consumed <= accepted && id !in n.slots
    requires forall p | p in accepted :: p.key != id
    ensures Stream(n.dropped, id) == []
  {
    NoPacketNoStream(n.consumed, id);
    assert N.KeyInOrder(n, id);
  }

  // ----- SendOffer -----

  lemma TablesMint(s: State, id: Key, host: Key, offer: string)
    requires Parts(s) && Queues(s) && Lifecycle(s) && StepMint(s, id, host, offer).Some?
    ensures var t := StepMint(s, id, host, offer).value;
            && N.Inv(t.answers) && t.answers.consumed == s.answers.consumed && t.answers.oneShot
            && N.Inv(t.offIce) && t.offIce.consumed == s.offIce.consumed
            && Lifecycle(t)
  {
    N.InvMint(s.answers, id);
    N.InvMint(s.offIce, id);
    FreshMeansNothingDropped(s.answers, s.sentAnswers, id);
    FreshMeansNothingDropped(s.offIce, s.toOfferer.accepted, id);
    LifecycleMint(s, id, host, offer);
  }

  lemma InvMint(s: State, id: Key, host: Key, offer: string)
    requires Inv(s) && StepMint(s, id, host, offer).Some?
    ensures Inv(StepMint(s, id, host, offer).value)
  {
    TablesMint(s, id, host, offer);
    MintFrame(s, id, host, offer);
    MintKeepsRest(s, StepMint(s, id, host, offer).value, id, host, offer);
  }

  lemma MintFrame(s: State, id: Key, host: Key, offer: string)
    requires StepMint(s, id, host, offer).Some?
    ensures var t := StepMint(s, id, host, offer).value;
            && id !in s.sessions && t.offIce.left == s.offIce.left
            && t == s.(sessions := s.sessions[id := Session(host, offer, Minted)], timers := s.timers + {id},
                       answers := t.answers, offIce := t.offIce)
  {
  }

  lemma MintKeepsRest(s: State, t: State, id: Key, host: Key, offer: string)
    requires Inv(s) && id !in s.sessions && t.offIce.left == s.offIce.left
    requires t == s.(sessions := s.sessions[id := Session(host, offer, Minted)], timers := s.timers + {id},
                     answers := t.answers, offIce := t.offIce)
    requires N.Inv(t.answers) && t.answers.consumed == s.answers.consumed && t.answers.oneShot
    requires N.Inv(t.offIce) && t.offIce.consumed == s.offIce.consumed && Lifecycle(t)
    ensures Inv(t)
  {
    OffersFramed(s.sessions, t.sessions, s.offers.consumed);
    NotifiedMint(s.sessions, s.notified, id, host, offer);
  }

  lemma NotifiedMint(sessions: map<Key, Session>, notified: seq<Key>, id: Key, host: Key, offer: string)
    requires NotifiedKnown(sessions, notified) && id !in sessions
    ensures NotifiedKnown(sessions[id := Session(host, offer, Minted)], notified)
  {
  }

  lemma LifecycleMint(s: State, id: Key, host: Key, offer: string)
    requires Lifecycle(s) && StepMint(s, id, host, offer).Some?
    requires Stream(s.answers.dropped, id) == [] && Stream(s.offIce.dropped, id) == []
    ensures Lifecycle(StepMint(s, id, host, offer).value)
  {
  }

  lemma InvNotify(s: State, id: Key)
    requires Inv(s) && Step(s, Notify(id)).Some?
    ensures Inv(Step(s, Notify(id)).value)
  {
    var t := Step(s, Notify(id)).value;
    OffersFramed(s.sessions, t.sessions, s.offers.consumed);
    assert NotifiedKnown(t.sessions, t.notified) by {
      assert t.notified[|s.notified|] == id;
      forall x | x in s.notified ensures x in t.notified { }
    }
  }

  lemma OffersFramed(sessions: map<Key, Session>, sessions': map<Key, Session>, consumed: seq<Packet<Offering>>)
    requires OffersKnown(sessions, consumed)
    requires forall id | id in sessions && sessions[id].phase.Accepted? ::
               id in sessions' && sessions'[id] == sessions[id]
    ensures OffersKnown(sessions', consumed)
  {
    forall i | 0 <= i < |consumed| ensures Genuine(sessions', consumed[i]) {
      assert Genuine(sessions, consumed[i]);
    }
  }

  lemma InvGiveUp(s: State, id: Key)
    requires Inv(s) && Step(s, GiveUp(id)).Some?
    ensures Inv(Step(s, GiveUp(id)).value)
  {
    var t := Step(s, GiveUp(id)).value;
    OffersFramed(s.sessions, t.sessions, s.offers.consumed);
  }

  lemma InvHandOver(s: State, id: Key)
    requires Inv(s) && StepHandOver(s, id).Some?
    ensures Inv(StepHandOver(s, id).value)
  {
    var t := StepHandOver(s, id).value;
    var p := Packet(s.sessions[id].host, Offering(s.sessions[id].host, id, s.sessions[id].offer));
    C.InvReceive(s.offers, p);
    C.StepExtends(s.offers, C.Receive(p));
    AgentsFramed(s.offers, t.offers, s.agents);
    OffersHandOver(s.sessions, s.offers.consumed, id);
  }

  lemma OffersHandOver(sessions: map<Key, Session>, consumed: seq<Packet<Offering>>, id: Key)
    requires OffersKnown(sessions, consumed) && id in sessions && sessions[id].phase.Notified?
    ensures OffersKnown(sessions[id := sessions[id].(phase := Accepted)],
              consumed + [Packet(sessions[id].host, Offering(sessions[id].host, id, sessions[id].offer))])
  {
    var p := Packet(sessions[id].host, Offering(sessions[id].host, id, sessions[id].offer));
    var sessions' := sessions[id := sessions[id].(phase := Accepted)];
    assert Genuine(sessions', p);
    forall i | 0 <= i < |consumed| ensures Genuine(sessions', consumed[i]) && consumed[i] != p {
      assert Genuine(sessions, consumed[i]);
    }
  }

  lemma InvCleanup(s: State, id: Key)
    requires Inv(s) && Step(s, Cleanup(id)).Some?
    ensures Inv(Step(s, Cleanup(id)).value)
  {
    N.InvStep(s.answers, N.Delete(id));
    N.InvStep(s.offIce, N.Delete(id));
  }

  // ----- offers -----

  lemma InvOfferRouter(s: State, c: C.Event<Offering>)
    requires Inv(s) && Step(s, OfferRouter(c)).Some?
    ensures Inv(Step(s, OfferRouter(c)).value)
  {
    C.InvStep(s.offers, c);
    C.StepExtends(s.offers, c);
    AgentsFramed(s.offers, C.Step(s.offers, c).value, s.agents);
  }

  lemma InvLookUp(offers: C.State<Offering>, host: Key)
    requires C.Inv(offers) && C.Step(C.Ensured(offers, host, false), C.Acquire(host)).Some?
    ensures var t := C.Step(C.Ensured(offers, host, false), C.Acquire(host)).value;
            C.Inv(t) && t.capacity == offers.capacity && t.oneShot == offers.oneShot && t.consumed == offers.consumed
  {
    C.InvEnsured(offers, host, false);
    C.InvAcquire(C.Ensured(offers, host, false), host);
  }

  lemma InvWaitForOffer(s: State, host: Key)
    requires Inv(s) && Step(s, WaitForOffer(host)).Some?
    ensures Inv(Step(s, WaitForOffer(host)).value)
  {
    InvLookUp(s.offers, host);
    AgentsJoin(s.offers, s.agents, host);
    AnswersJoin(s.agents, s.sentAnswers, s.authors);
  }

  lemma AgentsJoin(offers: C.State<Offering>, agents: seq<Agent>, host: Key)
    requires AgentsKnown(offers, agents) && C.Step(C.Ensured(offers, host, false), C.Acquire(host)).Some?
    ensures AgentsKnown(C.Step(C.Ensured(offers, host, false), C.Acquire(host)).value, agents + [Waiting])
  {
    var t := C.Step(C.Ensured(offers, host, false), C.Acquire(host)).value;
    forall r | 0 <= r < |agents| ensures AgentKnown(t, agents[r], r) {
      assert AgentKnown(offers, agents[r], r);
    }
  }

  lemma AnswersJoin(agents: seq<Agent>, sent: seq<Packet<string>>, authors: seq<nat>)
    requires AnswersKnown(agents, sent, authors)
    ensures AnswersKnown(agents + [Waiting], sent, authors)
  {
    forall i | 0 <= i < |sent| ensures Authored(agents + [Waiting], sent[i], authors[i]) {
      assert Authored(agents, sent[i], authors[i]);
    }
  }

  /** Changing an agent that has not answered leaves the answers' authorship alone. */
  lemma AnswersFramed(agents: seq<Agent>, r: nat, a: Agent, sent: seq<Packet<string>>, authors: seq<nat>)
    requires AnswersKnown(agents, sent, authors) && r < |agents| && !agents[r].Answered?
    ensures AnswersKnown(agents[r := a], sent, authors)
  {
    forall i | 0 <= i < |sent| ensures Authored(agents[r := a], sent[i], authors[i]) {
      assert Authored(agents, sent[i], authors[i]);
    }
  }

  lemma InvTakeOffer(s: State, r: nat)
    requires Inv(s) && StepTakeOffer(s, r).Some?
    ensures Inv(StepTakeOffer(s, r).value)
  {
    var t := StepTakeOffer(s, r).value;
    C.InvTake(s.offers, r);
    C.StepExtends(s.offers, C.Take(r));
    AgentsFramed(s.offers, t.offers, s.agents);
    AnswersFramed(s.agents, r, t.agents[r], s.sentAnswers, s.authors);
    assert AgentKnown(t.offers, t.agents[r], r);
    assert AgentsKnown(t.offers, t.agents) by {
      forall q | 0 <= q < |t.agents| ensures AgentKnown(t.offers, t.agents[q], q) {
        assert AgentKnown(t.offers, s.agents[q], q);
      }
    }
  }

  lemma InvReturnOffer(s: State, r: nat)
    requires Inv(s) && Step(s, ReturnOffer(r)).Some?
    ensures Inv(Step(s, ReturnOffer(r)).value)
  {
    var t := Step(s, ReturnOffer(r)).value;
    C.InvEnsured(s.ansIce, s.agents[r].o.answererID, true);
    AnswersFramed(s.agents, r, t.agents[r], s.sentAnswers, s.authors);
    AgentReplaced(s, r, t.agents[r]);
  }

  lemma AgentReplaced(s: State, r: nat, a: Agent)
    requires AgentsKnown(s.offers, s.agents) && r < |s.agents|
    requires a.Gone? || (HasOffer(a) && HasOffer(s.agents[r]) && a.o == s.agents[r].o && a.at == s.agents[r].at)
    ensures AgentsKnown(s.offers, s.agents[r := a])
  {
    var agents := s.agents[r := a];
    forall q | 0 <= q < |agents| ensures AgentKnown(s.offers, agents[q], q) {
      assert AgentKnown(s.offers, s.agents[q], q);
    }
  }

  lemma InvLeave(s: State, r: nat)
    requires Inv(s) && Step(s, Leave(r)).Some?
    ensures Inv(Step(s, Leave(r)).value)
  {
    C.InvLeave(s.offers, r);
    AgentsFramed(s.offers, C.Left(s.offers, r), s.agents);
    AnswersFramed(s.agents, r, Gone, s.sentAnswers, s.authors);
    AgentReplaced(s, r, Gone);
  }

  // ----- answers -----

  lemma InvSendAnswer(s: State, r: nat, answer: string)
    requires Inv(s) && Step(s, SendAnswer(r, answer)).Some?
    ensures Inv(Step(s, SendAnswer(r, answer)).value)
  {
    var t := Step(s, SendAnswer(r, answer)).value;
    var p := Packet(s.agents[r].o.answererID, answer);
    AgentReplaced(s, r, t.agents[r]);
    AnswersFramed(s.agents, r, t.agents[r], s.sentAnswers, s.authors);
    QueueGrows(s.answers.consumed, s.sentAnswers, t.sentAnswers);
    assert AnswersKnown(t.agents, t.sentAnswers, t.authors) by {
      assert Authored(t.agents, p, r);
      forall i | 0 <= i < |s.sentAnswers| ensures s.sentAnswers[i].key != p.key {
        assert Authored(s.agents, s.sentAnswers[i], s.authors[i]);
        if s.sentAnswers[i].key == p.key {
          AgentUnique(s, s.authors[i], r);
        }
      }
    }
  }

  lemma InvAnswerReceive(s: State)
    requires Inv(s) && Step(s, AnswerReceive).Some?
    ensures Inv(Step(s, AnswerReceive).value)
  {
    N.InvReceive(s.answers, s.sentAnswers[|s.answers.consumed|]);
    QueueShifts(s.answers.consumed, s.sentAnswers);
  }

  /** Around a non-creating table, only minting and deleting touch the maps. */
  lemma StepKeepsSlots<T>(n: N.State<T>, e: N.Event<T>)
    requires N.Step(n, e).Some? && (e.Resolve? || e.HandOver? || e.Acquire? || e.Leave? || e.Delete?)
    ensures var t := N.Step(n, e).value;
            && t.slots.Keys == n.slots.Keys && t.consumed == n.consumed
            && (e.Delete? || t.live == n.live) && t.live <= n.live && n.left <= t.left
            && forall k | k in n.slots :: k in t.slots && t.slots[k].early == n.slots[k].early
  {
    if e.HandOver? {
      assert N.Step(n, e).value.slots.Keys == n.slots.Keys;
    }
  }

  lemma InvAnswerStep(s: State, n: N.Event<string>)
    requires Inv(s) && Step(s, AnswerStep(n)).Some?
    ensures Inv(Step(s, AnswerStep(n)).value)
  {
    N.InvStep(s.answers, n);
    StepKeepsSlots(s.answers, n);
  }

  // ----- candidates -----

  lemma UploadsGrow(f: F.State, e: F.Event)
    requires F.Step(f, e).Some?
    ensures f.accepted <= F.Step(f, e).value.accepted
  {
  }

  lemma InvToAnswerer(s: State, f: F.Event)
    requires Inv(s) && Step(s, ToAnswerer(f)).Some?
    ensures Inv(Step(s, ToAnswerer(f)).value)
  {
    F.InvStep(s.toAnswerer, f);
    UploadsGrow(s.toAnswerer, f);
    QueueGrows(s.ansIce.consumed, s.toAnswerer.accepted, F.Step(s.toAnswerer, f).value.accepted);
  }

  lemma InvToOfferer(s: State, f: F.Event)
    requires Inv(s) && Step(s, ToOfferer(f)).Some?
    ensures Inv(Step(s, ToOfferer(f)).value)
  {
    F.InvStep(s.toOfferer, f);
    UploadsGrow(s.toOfferer, f);
    QueueGrows(s.offIce.consumed, s.toOfferer.accepted, F.Step(s.toOfferer, f).value.accepted);
  }

  lemma InvAnsIceReceive(s: State)
    requires Inv(s) && Step(s, AnsIceReceive).Some?
    ensures Inv(Step(s, AnsIceReceive).value)
  {
    C.InvReceive(s.ansIce, s.toAnswerer.accepted[|s.ansIce.consumed|]);
    QueueShifts(s.ansIce.consumed, s.toAnswerer.accepted);
  }

  lemma InvAnsIceStep(s: State, c: C.Event<F.Candidate>)
    requires Inv(s) && Step(s, AnsIceStep(c)).Some?
    ensures Inv(Step(s, AnsIceStep(c)).value)
  {
    C.InvStep(s.ansIce, c);
    StaysTimed(s.ansIce, c);
  }

  lemma StaysTimed(c: C.State<F.Candidate>, e: C.Event<F.Candidate>)
    requires C.AllTimed(c.boxes) && !e.Ensure? && C.Step(c, e).Some?
    ensures C.AllTimed(C.Step(c, e).value.boxes)
    ensures C.Step(c, e).value.capacity == c.capacity && (e.Receive? || C.Step(c, e).value.consumed == c.consumed)
  {
  }

  lemma InvOffIceReceive(s: State)
    requires Inv(s) && Step(s, OffIceReceive).Some?
    ensures Inv(Step(s, OffIceReceive).value)
  {
    N.InvReceive(s.offIce, s.toOfferer.accepted[|s.offIce.consumed|]);
    QueueShifts(s.offIce.consumed, s.toOfferer.accepted);
  }

  lemma InvOffIceStep(s: State, n: N.Event<F.Candidate>)
    requires Inv(s) && Step(s, OffIceStep(n)).Some?
    ensures Inv(Step(s, OffIceStep(n)).value)
  {
    N.InvStep(s.offIce, n);
    StepKeepsSlots(s.offIce, n);
  }

  lemma InvCloseIce(s: State, h: nat)
    requires Inv(s) && StepCloseIce(s, h).Some?
    ensures Inv(StepCloseIce(s, h).value)
  {
  }

  lemma InvDeleteIce(s: State, h: nat)
    requires Inv(s) && Step(s, DeleteIce(h)).Some?
    ensures Inv(Step(s, DeleteIce(h)).value)
  {
    LifecycleDeleteIce(s, h);
  }

  lemma LifecycleDeleteIce(s: State, h: nat)
    requires Lifecycle(s) && N.Inv(s.offIce) && Step(s, DeleteIce(h)).Some?
    ensures var t := Step(s, DeleteIce(h)).value;
            && Lifecycle(t) && N.Inv(t.offIce) && t.offIce.consumed == s.offIce.consumed
            && t == s.(deleted := t.deleted, offIce := t.offIce)
  {
    N.InvStep(s.offIce, N.Delete(s.offIce.refs[h]));
  }

  // ----- all events -----

  lemma InvStep(s: State, e: Event)
    requires Inv(s) && Step(s, e).Some?
    ensures Inv(Step(s, e).value)
  {
    match e {
      case Mint(id, host, offer) => InvMint(s, id, host, offer);
      case Notify(id) => InvNotify(s, id);
      case HandOver(id) => InvHandOver(s, id);
      case GiveUp(id) => InvGiveUp(s, id);
      case Cleanup(id) => InvCleanup(s, id);
      case OfferRouter(c) => InvOfferRouter(s, c);
      case WaitForOffer(host) => InvWaitForOffer(s, host);
      case TakeOffer(r) => InvTakeOffer(s, r);
      case ReturnOffer(r) => InvReturnOffer(s, r);
      case Leave(r) => InvLeave(s, r);
      case SendAnswer(r, answer) => InvSendAnswer(s, r, answer);
      case AnswerReceive => InvAnswerReceive(s);
      case AnswerStep(n) => InvAnswerStep(s, n);
      case ToAnswerer(f) => InvToAnswerer(s, f);
      case AnsIceReceive => InvAnsIceReceive(s);
      case AnsIceStep(c) => InvAnsIceStep(s, c);
      case ToOfferer(f) => InvToOfferer(s, f);
      case OffIceReceive => InvOffIceReceive(s);
      case OffIceStep(n) => InvOffIceStep(s, n);
      case CloseIce(h) => InvCloseIce(s, h);
      case DeleteIce(h) => InvDeleteIce(s, h);
    }
  }

  /** The invariant holds after every run. */
  lemma InvRun(es: seq<Event>, s: State)
    requires Run(Step, Init(), es) == Some(s)
    ensures Inv(s)
  {
    InvInit();
    var inv := (t: State) => Inv(t);
    forall t: State, e: Event | inv(t) && Step(t, e).Some? ensures inv(Step(t, e).value) {
      InvStep(t, e);
    }
    RunKeeps(Step, inv, Init(), es);
  }
}
