/** What can stop a router of the broker for good, and what that costs everybody else. */
module BrokerRouters {
  import opened Runs
  import opened Packets
  import opened Broker
  import opened BrokerHistory
  import opened BrokerProofs
  import opened BrokerProjections
  import opened BrokerTheorems
  import C = CreatingRouter
  import N = NonCreatingRouter
  import F = CandidateStreams

  // ----- one wedged router stops its whole traffic -----

  /** Once the offer router waits at a full, unmapped mailbox without waiters, no offer is ever accepted or
      delivered to a mailbox again, for any host. */
  lemma WedgedOfferRouter(es: seq<Event>, s: State, fs: seq<Event>, t: State, host: Key)
    requires Reached(es, s) && C.Wedged(s.offers) && Run(Step, s, fs) == Some(t)
    ensures t.offers.consumed == s.offers.consumed
    ensures C.History(t.offers.boxes, host) == C.History(s.offers.boxes, host)
  {
    InvRun(es, s);
    var cs := OffersRun(s, fs, t);
    C.WedgedForEver(s.offers, cs, t.offers);
    C.WedgedSendsNothing(s.offers, cs, t.offers, host);
  }

  /** Once the answerer's candidate router does, no candidate is ever delivered again, for any answerer. */
  lemma WedgedAnswererCandidateRouter(es: seq<Event>, s: State, fs: seq<Event>, t: State, id: Key)
    requires Reached(es, s) && C.Wedged(s.ansIce) && Run(Step, s, fs) == Some(t)
    ensures t.ansIce.consumed == s.ansIce.consumed
    ensures C.History(t.ansIce.boxes, id) == C.History(s.ansIce.boxes, id)
  {
    InvRun(es, s);
    var cs := AnsIceRun(s, fs, t);
    C.WedgedForEver(s.ansIce, cs, t.ansIce);
    C.WedgedSendsNothing(s.ansIce, cs, t.ansIce, id);
  }

  /** Once the answer router waits to hand over an answer for an unmapped id without waiters, no
      WaitForAnswer returns an answer again, for any session. */
  lemma WedgedAnswerRouter(es: seq<Event>, s: State, fs: seq<Event>, t: State)
    requires Reached(es, s) && N.Wedged(s.answers) && Run(Step, s, fs) == Some(t)
    ensures t.answers.consumed == s.answers.consumed && N.SameSent(s.answers, t.answers)
  {
    var ns := AnswersRun(s, fs, t);
    N.WedgedForEver(s.answers, ns, t.answers);
  }

  /** Once the offerer's candidate router does, no candidate reaches any offerer again. */
  lemma WedgedOffererCandidateRouter(es: seq<Event>, s: State, fs: seq<Event>, t: State)
    requires Reached(es, s) && N.Wedged(s.offIce) && Run(Step, s, fs) == Some(t)
    ensures t.offIce.consumed == s.offIce.consumed && N.SameSent(s.offIce, t.offIce)
  {
    var ns := OffIceRun(s, fs, t);
    N.WedgedForEver(s.offIce, ns, t.offIce);
  }

  // ----- and the answerer's candidate router stops the offerer's handlers -----

  /** The run completes the send on closeIceToAnsCh of call `h`. */
  predicate Closes(s: State, fs: seq<Event>, h: nat) {
    Run(Step, s, fs).Some? && h in Run(Step, s, fs).value.closed
  }

  /** A WaitForICECandidate call of the offerer that is past its loop can get on, now or ever, if and only if
      the answerer's candidate router is not wedged. */
  lemma DeferredCleanupCanRun(es: seq<Event>, s: State, h: nat)
    requires Reached(es, s) && h in s.offIce.left && h !in s.closed
    ensures (exists fs :: Closes(s, fs, h)) <==> !C.Wedged(s.ansIce)
  {
    InvRun(es, s);
    if C.Wedged(s.ansIce) {
      forall fs | Closes(s, fs, h) ensures false {
        NothingClosesWhileWedged(s, fs, Run(Step, s, fs).value);
      }
    } else {
      var _ := ClosesWhenFree(s, h);
    }
  }

  lemma ClosesWhenFree(s: State, h: nat) returns (fs: seq<Event>)
    requires C.Inv(s.ansIce) && s.ansIce.capacity > 0 && !C.Wedged(s.ansIce)
    requires h in s.offIce.left && h !in s.closed
    ensures Closes(s, fs, h)
  {
    var cs := C.BackToSelect(s.ansIce);
    var c := Run(C.Step, s.ansIce, cs).value;
    fs := LiftAnsIce(s, cs, c);
    var u := s.(ansIce := c);
    CloseAtSelect(u, h);
    RunConcat(Step, s, fs, u, [CloseIce(h)]);
    fs := fs + [CloseIce(h)];
  }

  lemma CloseAtSelect(s: State, h: nat)
    requires s.ansIce.hand.Idle? && h in s.offIce.left && h !in s.closed
    ensures Run(Step, s, [CloseIce(h)]) == Some(s.(closed := s.closed + {h}))
  {
    RunOne(Step, s, CloseIce(h));
  }

  lemma WedgedIceStep(s: State, e: Event)
    requires C.Wedged(s.ansIce) && Step(s, e).Some?
    ensures C.Wedged(Step(s, e).value.ansIce) && Step(s, e).value.closed == s.closed
  {
    var cs := AnsIceEvents(s, e);
    AnsIceStepProjects(s, e);
    C.WedgedForEver(s.ansIce, cs, Step(s, e).value.ansIce);
    assert e.CloseIce? ==> Step(s, e).None?;
  }

  lemma {:induction false} NothingClosesWhileWedged(s: State, fs: seq<Event>, t: State)
    requires C.Wedged(s.ansIce) && Run(Step, s, fs) == Some(t)
    ensures C.Wedged(t.ansIce) && t.closed == s.closed
    decreases |fs|
  {
    if |fs| > 0 {
      WedgedIceStep(s, fs[0]);
      NothingClosesWhileWedged(Step(s, fs[0]).value, fs[1..], t);
    }
  }

  /** Across the two servers: while the answerer's candidate router is wedged, a candidate entry of the offerer
      goes only by its 10 s clean-up, or by a deferred delete whose send had been received before. */
  lemma WedgedRouterHoldsUpDeletes(es: seq<Event>, s: State, fs: seq<Event>, t: State, id: Key)
    requires Reached(es, s) && C.Wedged(s.ansIce) && Run(Step, s, fs) == Some(t) && NoCleanup(fs, id)
    requires forall h | h in s.closed && h !in s.deleted && h < |s.offIce.refs| :: s.offIce.refs[h] != id
    requires id in s.offIce.live
    ensures id in t.offIce.live && t.closed == s.closed
  {
    InvRun(es, s);
    EntryHeldUp(s, fs, t, id);
  }

  lemma {:induction false} EntryHeldUp(s: State, fs: seq<Event>, t: State, id: Key)
    requires C.Wedged(s.ansIce) && Run(Step, s, fs) == Some(t) && NoCleanup(fs, id)
    requires forall h | h in s.closed && h !in s.deleted && h < |s.offIce.refs| :: s.offIce.refs[h] != id
    requires forall h | h in s.closed :: h < |s.offIce.refs|
    requires id in s.offIce.live
    ensures id in t.offIce.live && t.closed == s.closed
    decreases |fs|
  {
    if |fs| > 0 {
      WedgedIceStep(s, fs[0]);
      CandidateEntryKept(s, fs[0], id);
      RefsGrow(s, fs[0]);
      DeletesGrow(s, fs[0]);
      EntryHeldUp(Step(s, fs[0]).value, fs[1..], t, id);
    }
  }

  lemma DeletesGrow(s: State, e: Event)
    requires Step(s, e).Some?
    ensures s.deleted <= Step(s, e).value.deleted
    ensures e.DeleteIce? ==> e.call in s.closed && e.call !in s.deleted
  {
  }

  // ----- it does come to that -----

  /** The state after one SendOffer call, seen from the answer table. */
  ghost predicate OneSession(s: State, id: Key) {
    && id in s.timers && s.sentAnswers == [] && s.toOfferer == F.Init()
    && s.sessions.Keys == s.offIce.slots.Keys == {id}
    && s.answers == N.State(true, [], [], map[id := N.Slot([], [], [])], {id}, [], {}, N.Idle)
  }

  lemma OfferAccepted(host: Key, id: Key, offer: string) returns (es: seq<Event>, s: State)
    ensures Reached(es, s) && OneSession(s, id) && s.agents == []
    ensures s.offers == C.Step(C.Init(1, true), C.Receive(Packet(host, Offering(host, id, offer)))).value
    ensures s.ansIce == C.Init(QUEUE, false)
  {
    es, s := [], Init();
    es, s := Extend(Step, Init(), es, s, Mint(id, host, offer));
    es, s := Extend(Step, Init(), es, s, Notify(id));
    es, s := Extend(Step, Init(), es, s, HandOver(id));
  }

  /** The offer table with one mailbox, made by the router, and the look-ups `refs`. */
  function OneMailbox(host: Key, o: Offering, sent: seq<Offering>, refs: seq<C.Reference>, hand: C.Hand<Offering>)
    : C.State<Offering>
  {
    C.State(1, true, [Packet(host, o)], [C.Mailbox(host, true, sent, [])], map[host := 0], {0}, refs, {}, hand)
  }

  lemma OfferResolved(host: Key, id: Key, offer: string) returns (es: seq<Event>, s: State)
    ensures Reached(es, s) && OneSession(s, id) && s.agents == []
    ensures var o := Offering(host, id, offer); s.offers == OneMailbox(host, o, [], [], C.Holding(Packet(host, o), 0))
  {
    es, s := OfferAccepted(host, id, offer);
    es, s := Extend(Step, Init(), es, s, OfferRouter(C.Resolve));
    assert s.offers.boxes == [C.Mailbox(host, true, [], [])] && s.offers.timers == {0};
  }

  lemma OfferRouted(host: Key, id: Key, offer: string) returns (es: seq<Event>, s: State)
    ensures Reached(es, s) && OneSession(s, id) && s.agents == []
    ensures var o := Offering(host, id, offer); s.offers == OneMailbox(host, o, [o], [], C.Idle)
  {
    var o := Offering(host, id, offer);
    es, s := OfferResolved(host, id, offer);
    es, s := Extend(Step, Init(), es, s, OfferRouter(C.Send));
    assert s.offers.boxes[0].sent == [o];
    assert s.offers.boxes == [C.Mailbox(host, true, [o], [])];
  }

  /** A second SendOffer call for the same host, while the first offer lies in the mailbox. */
  lemma SecondOfferNotified(host: Key, id: Key, id2: Key, offer: string) returns (es: seq<Event>, s: State)
    requires id != id2
    ensures Reached(es, s) && s.agents == [] && id2 in s.sessions && s.sessions[id2] == Session(host, offer, Notified)
    ensures var o := Offering(host, id, offer); s.offers == OneMailbox(host, o, [o], [], C.Idle)
  {
    es, s := OfferRouted(host, id, offer);
    es, s := Extend(Step, Init(), es, s, Mint(id2, host, offer));
    es, s := Extend(Step, Init(), es, s, Notify(id2));
  }

  lemma SecondOfferResolved(host: Key, id: Key, id2: Key, offer: string) returns (es: seq<Event>, s: State)
    requires id != id2
    ensures Reached(es, s) && s.agents == []
    ensures var o := Offering(host, id, offer);
            && s.offers.boxes == [C.Mailbox(host, true, [o], [])] && s.offers.capacity == 1 && s.offers.refs == []
            && s.offers.live == map[host := 0] && s.offers.timers == {0}
            && s.offers.hand == C.Holding(Packet(host, Offering(host, id2, offer)), 0)
  {
    es, s := SecondOfferNotified(host, id, id2, offer);
    es, s := Extend(Step, Init(), es, s, HandOver(id2));
    es, s := Extend(Step, Init(), es, s, OfferRouter(C.Resolve));
  }

  /** Two SendOffer calls for one host, and the mailbox's clean-up after the second look-up, wedge the offer
      router: no agent is needed. */
  lemma TwoOffersWedge(host: Key, id: Key, id2: Key, offer: string) returns (es: seq<Event>, s: State)
    requires id != id2
    ensures Reached(es, s) && C.Wedged(s.offers) && s.agents == []
  {
    es, s := SecondOfferResolved(host, id, id2, offer);
    es, s := Extend(Step, Init(), es, s, OfferRouter(C.Fire(0)));
    assert s.offers.refs == [];
  }

  lemma AgentWaits(host: Key, id: Key, offer: string) returns (es: seq<Event>, s: State)
    ensures Reached(es, s) && OneSession(s, id) && s.agents == [Waiting]
    ensures var o := Offering(host, id, offer); s.offers == OneMailbox(host, o, [o], [C.Reference(host, 0)], C.Idle)
  {
    es, s := OfferRouted(host, id, offer);
    es, s := Extend(Step, Init(), es, s, WaitForOffer(host));
    assert s.offers.refs == [C.Reference(host, 0)] && s.agents == [Waiting];
  }

  lemma OfferTaken(host: Key, id: Key, offer: string) returns (es: seq<Event>, s: State)
    ensures Reached(es, s) && OneSession(s, id) && s.agents == [Took(Offering(host, id, offer), 0)]
  {
    es, s := AgentWaits(host, id, offer);
    es, s := Extend(Step, Init(), es, s, TakeOffer(0));
  }

  lemma OfferReturned(host: Key, id: Key, offer: string) returns (es: seq<Event>, s: State)
    ensures Reached(es, s) && OneSession(s, id) && s.agents == [Returned(Offering(host, id, offer), 0)]
  {
    es, s := OfferTaken(host, id, offer);
    es, s := Extend(Step, Init(), es, s, ReturnOffer(0));
  }

  lemma OfferAnswered(host: Key, id: Key, offer: string, answer: string) returns (es: seq<Event>, s: State)
    ensures Reached(es, s) && OneSession(s.(sentAnswers := []), id)
    ensures s.agents == [Answered(Offering(host, id, offer), 0, answer)] && s.sentAnswers == [Packet(id, answer)]
  {
    es, s := OfferReturned(host, id, offer);
    es, s := Extend(Step, Init(), es, s, SendAnswer(0, answer));
  }

  /** The answer router has the answer in hand; `refs` are the calls of WaitForAnswer. */
  ghost predicate AnswerInHand(s: State, id: Key, refs: seq<Key>, hand: N.Hand<string>) {
    && id in s.timers && s.answers.slots == map[id := N.Slot([], [], [])] && s.answers.live == {id}
    && s.answers.refs == refs && s.answers.left == {} && s.answers.hand == hand
  }

  lemma AnswerReceived(host: Key, id: Key, offer: string, answer: string) returns (es: seq<Event>, s: State)
    ensures Reached(es, s) && AnswerInHand(s, id, [], N.Received(Packet(id, answer)))
    ensures s.agents == [Answered(Offering(host, id, offer), 0, answer)]
  {
    es, s := OfferAnswered(host, id, offer, answer);
    es, s := Extend(Step, Init(), es, s, AnswerReceive);
  }

  /** An offerer that takes its answer too late is enough: its clean-up runs after the router's look-up. */
  lemma UnclaimedAnswerWedges(host: Key, id: Key, offer: string, answer: string) returns (es: seq<Event>, s: State)
    ensures Reached(es, s) && N.Wedged(s.answers)
    ensures s.agents == [Answered(Offering(host, id, offer), 0, answer)]
  {
    es, s := AnswerReceived(host, id, offer, answer);
    es, s := Extend(Step, Init(), es, s, AnswerStep(N.Resolve));
    es, s := Extend(Step, Init(), es, s, Cleanup(id));
  }

  /** The answer channel is not deleted when the answer is received. */
  lemma ReceivedAnswerKeepsEntry(host: Key, id: Key, offer: string, answer: string) returns (es: seq<Event>, s: State)
    ensures Reached(es, s) && id in s.answers.slots && s.answers.slots[id].sent == [answer] && id in s.answers.live
  {
    es, s := AnswerLookedUp(host, id, offer, answer);
    es, s := Extend(Step, Init(), es, s, AnswerStep(N.Resolve));
    es, s := Extend(Step, Init(), es, s, AnswerStep(N.HandOver(0)));
  }

  lemma AnswerLookedUp(host: Key, id: Key, offer: string, answer: string) returns (es: seq<Event>, s: State)
    ensures Reached(es, s) && AnswerInHand(s, id, [id], N.Received(Packet(id, answer)))
  {
    es, s := AnswerReceived(host, id, offer, answer);
    es, s := Extend(Step, Init(), es, s, AnswerStep(N.Acquire(id)));
  }

  // ----- the offerer's candidate router -----

  /** A minted id, and an answerer's stream that has received one candidate for it. */
  lemma CandidateReceived(host: Key, id: Key, offer: string, body: string) returns (es: seq<Event>, s: State)
    ensures Reached(es, s) && id in s.timers && s.offIce.live == {id} && s.offIce.slots == map[id := N.Slot([], [], [])]
    ensures s.offIce.hand == N.Idle && s.offIce.consumed == [] && s.offIce.refs == []
    ensures var p := Packet(id, F.Candidate(0, body)); s.toOfferer == F.State([F.Upload([p], F.Pushing(p), true)], [])
  {
    es, s := [], Init();
    es, s := Extend(Step, Init(), es, s, Mint(id, host, offer));
    es, s := Extend(Step, Init(), es, s, ToOfferer(F.Open));
    assert s.toOfferer.uploads == [F.Upload([], F.Receiving, true)];
    es, s := Extend(Step, Init(), es, s, ToOfferer(F.Recv(0, id, body)));
    var p := Packet(id, F.Candidate(0, body));
    assert [] + [p] == [p];
    assert s.toOfferer.uploads == [F.Upload([p], F.Pushing(p), true)];
  }

  lemma CandidateInHand(host: Key, id: Key, offer: string, body: string) returns (es: seq<Event>, s: State)
    ensures Reached(es, s) && id in s.timers && s.offIce.live == {id} && s.offIce.slots == map[id := N.Slot([], [], [])]
    ensures s.offIce.hand == N.Received(Packet(id, F.Candidate(0, body))) && s.offIce.refs == []
  {
    es, s := CandidatePushed(host, id, offer, body);
    es, s := Extend(Step, Init(), es, s, OffIceReceive);
  }

  lemma CandidatePushed(host: Key, id: Key, offer: string, body: string) returns (es: seq<Event>, s: State)
    ensures Reached(es, s) && id in s.timers && s.offIce.live == {id} && s.offIce.slots == map[id := N.Slot([], [], [])]
    ensures s.offIce.hand == N.Idle && s.offIce.consumed == [] && s.offIce.refs == []
    ensures s.toOfferer.accepted == [Packet(id, F.Candidate(0, body))]
  {
    es, s := CandidateReceived(host, id, offer, body);
    es, s := Extend(Step, Init(), es, s, ToOfferer(F.Push(0)));
  }

  /** One candidate for an offerer that does not fetch it, and the clean-up after the router's look-up. */
  lemma UnclaimedCandidateWedges(host: Key, id: Key, offer: string, body: string) returns (es: seq<Event>, s: State)
    ensures Reached(es, s) && N.Wedged(s.offIce)
  {
    es, s := CandidateInHand(host, id, offer, body);
    es, s := Extend(Step, Init(), es, s, OffIceStep(N.Resolve));
    es, s := Extend(Step, Init(), es, s, Cleanup(id));
  }

  // ----- the answerer's candidate router -----

  /** One SendIceCandidate stream of the offerer has pushed `n` equal candidates for `id`. */
  function Uploads(id: Key, v: F.Candidate, n: nat): F.State {
    var ps := seq(n, _ => Packet(id, v));
    F.State([F.Upload(ps, F.Receiving, true)], ps)
  }

  lemma PushOne(s: State, es: seq<Event>, id: Key, v: F.Candidate, n: nat) returns (es': seq<Event>)
    requires Reached(es, s) && s.toAnswerer == Uploads(id, v, n) && v.stream == 0 && |s.ansIce.consumed| == n
    ensures Reached(es', s.(toAnswerer := Uploads(id, v, n + 1)))
  {
    var p := Packet(id, v);
    var ps := s.toAnswerer.accepted;
    assert ps + [p] == seq(n + 1, _ => p);
    var t;
    es', t := Extend(Step, Init(), es, s, ToAnswerer(F.Recv(0, id, v.body)));
    assert t.toAnswerer.uploads == [F.Upload(ps + [p], F.Pushing(p), true)];
    es', t := Extend(Step, Init(), es', t, ToAnswerer(F.Push(0)));
    assert t.toAnswerer == F.State([F.Upload(ps + [p], F.Signalling, true)], ps + [p]);
    es', t := Extend(Step, Init(), es', t, ToAnswerer(F.Loop(0)));
    assert t.toAnswerer.uploads == [F.Upload(ps + [p], F.Receiving, true)];
  }

  /** The router receives the candidate and looks its mailbox up. */
  lemma RouteOne(s: State, es: seq<Event>, id: Key, v: F.Candidate, c: C.State<F.Candidate>) returns (es': seq<Event>)
    requires Reached(es, s) && |s.ansIce.consumed| < |s.toAnswerer.accepted|
    requires s.toAnswerer.accepted[|s.ansIce.consumed|] == Packet(id, v)
    requires C.Step(s.ansIce, C.Receive(Packet(id, v))).Some?
    requires C.Step(C.Step(s.ansIce, C.Receive(Packet(id, v))).value, C.Resolve) == Some(c)
    ensures Reached(es', s.(ansIce := c))
  {
    var t;
    es', t := Extend(Step, Init(), es, s, AnsIceReceive);
    es' := MoveAnsIce(t, es', C.Resolve, c);
  }

  /** One candidate is pushed, received, and about to be sent. */
  lemma UploadOne(s: State, es: seq<Event>, id: Key, v: F.Candidate, n: nat) returns (es': seq<Event>)
    requires Reached(es, s) && n <= QUEUE && v.stream == 0
    requires s.toAnswerer == Uploads(id, v, n) && s.ansIce == C.Filled(QUEUE, false, id, v, n)
    ensures Reached(es', s.(toAnswerer := Uploads(id, v, n + 1), ansIce := C.Filling(QUEUE, false, id, v, n)))
  {
    C.FillOne(QUEUE, false, id, v, n);
    es' := PushOne(s, es, id, v, n);
    var t := s.(toAnswerer := Uploads(id, v, n + 1));
    es' := RouteOne(t, es', id, v, C.Filling(QUEUE, false, id, v, n));
  }

  lemma FirstStream(id: Key, v: F.Candidate) returns (es: seq<Event>)
    ensures Reached(es, Init().(toAnswerer := Uploads(id, v, 0)))
  {
    var s;
    es, s := Extend(Step, Init(), [], Init(), ToAnswerer(F.Open));
    assert s.toAnswerer.uploads == [F.Upload([], F.Receiving, true)];
    assert seq(0, _ => Packet(id, v)) == [];
    assert Uploads(id, v, 0).uploads == s.toAnswerer.uploads;
  }

  lemma MoveAnsIce(s: State, es: seq<Event>, e: C.Event<F.Candidate>, c: C.State<F.Candidate>) returns (es': seq<Event>)
    requires Reached(es, s) && AnsIceStepAlone(e) && C.Step(s.ansIce, e) == Some(c)
    ensures Reached(es', s.(ansIce := c))
  {
    var t;
    es', t := Extend(Step, Init(), es, s, AnsIceStep(e));
  }

  lemma NoneUploaded(id: Key, v: F.Candidate) returns (es: seq<Event>, s: State)
    ensures Reached(es, s) && s.sessions == map[]
    ensures s.toAnswerer == Uploads(id, v, 0) && s.ansIce == C.Filled(QUEUE, false, id, v, 0)
  {
    es := FirstStream(id, v);
    s := Init().(toAnswerer := Uploads(id, v, 0));
  }

  lemma {:induction false} UploadMany(id: Key, v: F.Candidate, n: nat) returns (es: seq<Event>, s: State)
    requires n <= QUEUE && v.stream == 0
    ensures Reached(es, s) && s.sessions == map[]
    ensures s.toAnswerer == Uploads(id, v, n) && s.ansIce == C.Filled(QUEUE, false, id, v, n)
  {
    if n == 0 {
      es, s := NoneUploaded(id, v);
    } else {
      es, s := UploadMany(id, v, n - 1);
      es, s := UploadNext(s, es, id, v, n - 1);
    }
  }

  lemma UploadNext(s: State, es: seq<Event>, id: Key, v: F.Candidate, n: nat) returns (es': seq<Event>, s': State)
    requires Reached(es, s) && n < QUEUE && v.stream == 0 && s.sessions == map[]
    requires s.toAnswerer == Uploads(id, v, n) && s.ansIce == C.Filled(QUEUE, false, id, v, n)
    ensures Reached(es', s') && s'.sessions == map[]
    ensures s'.toAnswerer == Uploads(id, v, n + 1) && s'.ansIce == C.Filled(QUEUE, false, id, v, n + 1)
  {
    var f, c := Uploads(id, v, n + 1), C.Filled(QUEUE, false, id, v, n + 1);
    var filling := C.Filling(QUEUE, false, id, v, n);
    es' := UploadOne(s, es, id, v, n);
    es' := SendOne(s.(toAnswerer := f, ansIce := filling), es', id, v, n);
    s' := s.(toAnswerer := f, ansIce := c);
  }

  lemma SendOne(s: State, es: seq<Event>, id: Key, v: F.Candidate, n: nat) returns (es': seq<Event>)
    requires n < QUEUE && Reached(es, s) && s.ansIce == C.Filling(QUEUE, false, id, v, n)
    ensures Reached(es', s.(ansIce := C.Filled(QUEUE, false, id, v, n + 1)))
  {
    C.FillOne(QUEUE, false, id, v, n);
    es' := MoveAnsIce(s, es, C.Send, C.Filled(QUEUE, false, id, v, n + 1));
  }

  /** 1025 candidates for one id that nobody fetches, and one clean-up, wedge the answerer's candidate router.
      No SendOffer, agent or minted id is needed. */
  lemma UnfetchedCandidatesWedge(id: Key, body: string) returns (es: seq<Event>, s: State)
    ensures Reached(es, s) && C.Wedged(s.ansIce) && s.sessions == map[]
  {
    var v := F.Candidate(0, body);
    es, s := UploadMany(id, v, QUEUE);
    C.WedgeFull(QUEUE, false, id, v);
    es := UploadOne(s, es, id, v, QUEUE);
    s := s.(toAnswerer := Uploads(id, v, QUEUE + 1), ansIce := C.Filling(QUEUE, false, id, v, QUEUE));
    var c := C.Step(s.ansIce, C.Fire(0)).value;
    es := MoveAnsIce(s, es, C.Fire(0), c);
    s := s.(ansIce := c);
  }
}
