/** What holds after every run of the broker. */
module BrokerTheorems {
  import opened Runs
  import opened Packets
  import opened Broker
  import opened BrokerHistory
  import opened BrokerProofs
  import opened BrokerProjections
  import C = CreatingRouter
  import N = NonCreatingRouter
  import F = CandidateStreams
  import SH = StreamHistory

  // ----- helpers -----

  lemma StreamPrefix<T>(ps: seq<Packet<T>>, qs: seq<Packet<T>>, k: Key)
    requires ps <= qs
    ensures Stream(ps, k) <= Stream(qs, k)
    ensures Stream(qs, k) == Stream(ps, k) + Stream(qs[|ps|..], k)
  {
    assert qs == ps + qs[|ps|..];
    StreamConcat(ps, qs[|ps|..], k);
  }

  lemma {:induction false} DistinctKeysStream<T>(ps: seq<Packet<T>>, k: Key)
    requires forall i, j | 0 <= i < j < |ps| :: ps[i].key != ps[j].key
    ensures |Stream(ps, k)| <= 1
    ensures (forall i | 0 <= i < |ps| :: ps[i].key != k) ==> Stream(ps, k) == []
  {
    if |ps| > 0 {
      var n := |ps| - 1;
      DistinctKeysStream(ps[..n], k);
    }
  }

  /** Distinct values among `ys` are no more than `ys`. */
  lemma {:induction false} Pigeonhole<T>(xs: seq<T>, ys: seq<T>)
    requires NoDup(xs)
    requires forall i | 0 <= i < |xs| :: xs[i] in ys
    ensures |xs| <= |ys|
    decreases |xs|
  {
    if |xs| > 0 {
      var n := |xs| - 1;
      var j :| 0 <= j < |ys| && ys[j] == xs[n];
      var rest := ys[..j] + ys[j + 1..];
      forall i | 0 <= i < n ensures xs[..n][i] in rest {
        var m :| 0 <= m < |ys| && ys[m] == xs[i];
        assert m != j;
        assert rest[if m < j then m else m - 1] == xs[i];
      }
      Pigeonhole(xs[..n], rest);
    }
  }

  // ----- session agreement -----

  /** If WaitForAnswer(id) returned an answer, it is the only one for id. It is the text that agent r passed to
      SendAnswer; r is the only agent ever handed id, had called WaitForOffer for `host`, and was handed exactly
      `offer`, where SendOffer(host, offer) is the one call that minted id. */
  lemma SessionAgreement(es: seq<Event>, s: State, id: Key, p: nat) returns (r: nat, host: Key, offer: string)
    requires Reached(es, s)
    requires id in s.answers.slots && p < |s.answers.slots[id].sent|
    ensures p == 0 && Mint(id, host, offer) in es && MintedFor(es, id) == Some((host, offer))
    ensures SendAnswer(r, s.answers.slots[id].sent[p]) in es
    ensures r < |s.agents| == |HostsAwaited(es)| && HostsAwaited(es)[r] == host
    ensures s.agents[r].Answered? && s.agents[r].o == Offering(host, id, offer)
    ensures forall q | 0 <= q < |s.agents| && HasOffer(s.agents[q]) && s.agents[q].o.answererID == id :: q == r
  {
    r := AnsweringAgent(es, s, id, p);
    host, offer := s.sessions[id].host, s.sessions[id].offer;
    SessionsAreMinted(es, s, id);
    MintedByCall(es, id);
    AgentsWaitForHosts(es, s);
  }

  lemma AnsweringAgent(es: seq<Event>, s: State, id: Key, p: nat) returns (r: nat)
    requires Reached(es, s)
    requires id in s.answers.slots && p < |s.answers.slots[id].sent|
    ensures p == 0 && id in s.sessions
    ensures r < |s.agents| && s.agents[r].Answered? && SendAnswer(r, s.answers.slots[id].sent[p]) in es
    ensures s.agents[r].answer == s.answers.slots[id].sent[p]
    ensures s.agents[r].o == Offering(s.sessions[id].host, id, s.sessions[id].offer)
    ensures r < |s.offers.refs| && s.offers.refs[r].key == s.sessions[id].host
    ensures forall q | 0 <= q < |s.agents| && HasOffer(s.agents[q]) && s.agents[q].o.answererID == id :: q == r
  {
    InvRun(es, s);
    var i := AnswerIsSent(s, id, p);
    r := s.authors[i];
    AnswersAreAsSent(es, s);
    assert AnswersGiven(es)[i] == (r, s.sentAnswers[i].body);
    GivenByEvent(es, r, s.sentAnswers[i].body);
    OnlyAgent(s, i, id);
  }

  lemma AnswerIsSent(s: State, id: Key, p: nat) returns (i: nat)
    requires Inv(s) && id in s.answers.slots && p < |s.answers.slots[id].sent|
    ensures p == 0 && i < |s.sentAnswers| == |s.authors|
    ensures s.sentAnswers[i] == Packet(id, s.answers.slots[id].sent[p])
  {
    var a := s.answers.slots[id].sent[p];
    N.DeliversPrefix(s.answers, id);
    StreamPrefix(s.answers.consumed, s.sentAnswers, id);
    DistinctKeysStream(s.sentAnswers, id);
    assert Stream(s.sentAnswers, id)[p] == a;
    StreamMembers(s.sentAnswers, id, a);
    i :| 0 <= i < |s.sentAnswers| && s.sentAnswers[i] == Packet(id, a);
  }

  lemma OnlyAgent(s: State, i: nat, id: Key)
    requires Inv(s) && i < |s.sentAnswers| == |s.authors| && s.sentAnswers[i].key == id
    ensures var r := s.authors[i];
            && r < |s.agents| && s.agents[r].Answered? && s.agents[r].answer == s.sentAnswers[i].body
            && id in s.sessions && s.agents[r].o == Offering(s.sessions[id].host, id, s.sessions[id].offer)
            && r < |s.offers.refs| && s.offers.refs[r].key == s.sessions[id].host
    ensures forall q | 0 <= q < |s.agents| && HasOffer(s.agents[q]) && s.agents[q].o.answererID == id ::
              q == s.authors[i]
  {
    var r := s.authors[i];
    assert Authored(s.agents, s.sentAnswers[i], r);
    AgentOffer(s, r);
    forall q | 0 <= q < |s.agents| && HasOffer(s.agents[q]) && s.agents[q].o.answererID == id ensures q == r {
      AgentUnique(s, q, r);
    }
  }

  /** What an agent holds is what the SendOffer call that minted its id was given, for the agent's host. */
  lemma AgentOffer(s: State, r: nat)
    requires Inv(s) && r < |s.agents| && HasOffer(s.agents[r])
    ensures var id := s.agents[r].o.answererID;
            && id in s.sessions
            && s.agents[r].o == Offering(s.sessions[id].host, id, s.sessions[id].offer)
            && r < |s.offers.refs| && s.offers.refs[r].key == s.sessions[id].host
  {
    assert AgentKnown(s.offers, s.agents[r], r);
    OfferingGenuine(s, s.offers.refs[r].box, s.agents[r].at);
  }

  // ----- order -----

  /** Offers: the histories of all mailboxes ever made for a host are the offers that SendOffer calls for it
      handed over, in order and as those calls were given them. */
  lemma OffersInOrder(es: seq<Event>, s: State, host: Key)
    requires Reached(es, s)
    ensures C.History(s.offers.boxes, host) + C.InHand(s.offers.hand, host) == Stream(OffersHanded(es), host)
    ensures NoDup(Stream(OffersHanded(es), host))
  {
    InvRun(es, s);
    OffersAreAsSent(es, s);
    StreamNoDup(s.offers.consumed, host);
  }

  /** Candidates to an answerer: across all its mailboxes, what a SendIceCandidate stream contributed is a
      prefix of the messages that its client sent for it, in order. */
  lemma CandidatesInOrder(es: seq<Event>, s: State, u: nat, id: Key)
    requires Reached(es, s) && u < |s.toAnswerer.uploads|
    ensures F.OfStream(C.History(s.ansIce.boxes, id), u) <= Stream(SH.Sent(FromOfferers(es), u), id)
  {
    InvRun(es, s);
    OfferersRun(es, s);
    SH.ReceivedIsSent(FromOfferers(es), s.toAnswerer, u);
    OrderThroughQueue(s.ansIce, s.toAnswerer, u, id);
  }

  lemma OrderThroughQueue(c: C.State<F.Candidate>, f: F.State, u: nat, id: Key)
    requires C.InOrder(c) && F.Inv(f) && c.consumed <= f.accepted && u < |f.uploads|
    ensures F.OfStream(C.History(c.boxes, id), u) <= Stream(f.uploads[u].received, id)
  {
    var h, hand := C.History(c.boxes, id), C.InHand(c.hand, id);
    var queued := Stream(f.accepted[|c.consumed|..], id);
    StreamPrefix(c.consumed, f.accepted, id);
    assert Stream(f.accepted, id) == h + (hand + queued);
    F.OfStreamConcat(h, hand + queued, u);
    F.AcceptedKeepsStreamOrder(f, u, id);
  }

  /** Answers to an offerer: what was handed over for an id is a prefix of what was sent for it. */
  lemma AnswersArePrefix(es: seq<Event>, s: State, id: Key)
    requires Reached(es, s) && id in s.sessions
    ensures id in s.answers.slots && s.answers.slots[id].sent <= Stream(s.sentAnswers, id)
  {
    InvRun(es, s);
    N.DeliversPrefix(s.answers, id);
    StreamPrefix(s.answers.consumed, s.sentAnswers, id);
  }

  /** Candidates to an offerer: the same. */
  lemma CandidatesArePrefix(es: seq<Event>, s: State, id: Key)
    requires Reached(es, s) && id in s.sessions
    ensures id in s.offIce.slots && s.offIce.slots[id].sent <= Stream(s.toOfferer.accepted, id)
  {
    InvRun(es, s);
    N.DeliversPrefix(s.offIce, id);
    StreamPrefix(s.offIce.consumed, s.toOfferer.accepted, id);
  }

  /** And of the candidates of one stream, a prefix of the messages that its client sent for the id. */
  lemma StreamsArePrefix(es: seq<Event>, s: State, u: nat, id: Key)
    requires Reached(es, s) && id in s.sessions && u < |s.toOfferer.uploads|
    ensures id in s.offIce.slots
    ensures F.OfStream(s.offIce.slots[id].sent, u) <= Stream(SH.Sent(FromAnswerers(es), u), id)
  {
    InvRun(es, s);
    AnswerersRun(es, s);
    SH.ReceivedIsSent(FromAnswerers(es), s.toOfferer, u);
    CandidatesArePrefix(es, s, id);
    var sent, all := s.offIce.slots[id].sent, Stream(s.toOfferer.accepted, id);
    assert all == sent + all[|sent|..];
    F.OfStreamConcat(sent, all[|sent|..], u);
    F.AcceptedKeepsStreamOrder(s.toOfferer, u, id);
  }

  // ----- conservation -----

  /** Every offer accepted and every candidate pushed towards an answerer is in exactly one place, and no
      buffer exceeds its capacity. */
  lemma CreatingSideConserves(es: seq<Event>, s: State, k: Key, o: Offering, c: F.Candidate)
    requires Reached(es, s)
    ensures multiset(Stream(s.offers.consumed, k))[o] ==
            C.Copies(s.offers.boxes, s.offers.live, k, o, C.Delivered) +
            C.Copies(s.offers.boxes, s.offers.live, k, o, C.Mapped) +
            C.Copies(s.offers.boxes, s.offers.live, k, o, C.Orphaned) + multiset(C.InHand(s.offers.hand, k))[o]
    ensures |s.ansIce.consumed| <= |s.toAnswerer.accepted| <= |s.ansIce.consumed| + QUEUE
    ensures multiset(Stream(s.toAnswerer.accepted, k))[c] ==
            C.Copies(s.ansIce.boxes, s.ansIce.live, k, c, C.Delivered) +
            C.Copies(s.ansIce.boxes, s.ansIce.live, k, c, C.Mapped) +
            C.Copies(s.ansIce.boxes, s.ansIce.live, k, c, C.Orphaned) +
            multiset(C.InHand(s.ansIce.hand, k))[c] +
            multiset(Stream(s.toAnswerer.accepted[|s.ansIce.consumed|..], k))[c]
    ensures forall b | 0 <= b < |s.offers.boxes| :: |s.offers.boxes[b].sent| - |s.offers.boxes[b].takers| <= 1
    ensures forall b | 0 <= b < |s.ansIce.boxes| :: |s.ansIce.boxes[b].sent| - |s.ansIce.boxes[b].takers| <= QUEUE
  {
    InvRun(es, s);
    C.Conservation(s.offers, k, o);
    C.Conservation(s.ansIce, k, c);
    StreamPrefix(s.ansIce.consumed, s.toAnswerer.accepted, k);
  }

  /** For a minted id, what was sent is, in order, what was handed over, what was dropped, at most one
      packet in the router's hand, and what is still queued. */
  lemma NonCreatingSideConserves(es: seq<Event>, s: State, id: Key)
    requires Reached(es, s) && id in s.sessions
    ensures id in s.answers.slots && id in s.offIce.slots
    ensures |s.answers.consumed| <= |s.sentAnswers| <= |s.answers.consumed| + QUEUE
    ensures |s.offIce.consumed| <= |s.toOfferer.accepted| <= |s.offIce.consumed| + QUEUE
    ensures Stream(s.sentAnswers, id) ==
            s.answers.slots[id].sent + Stream(s.answers.dropped, id) + N.InHand(s.answers.hand, id) +
            Stream(s.sentAnswers[|s.answers.consumed|..], id)
    ensures Stream(s.toOfferer.accepted, id) ==
            s.offIce.slots[id].sent + Stream(s.offIce.dropped, id) + N.InHand(s.offIce.hand, id) +
            Stream(s.toOfferer.accepted[|s.offIce.consumed|..], id)
  {
    InvRun(es, s);
    SentIsPlaced(s.answers, s.sentAnswers, id);
    SentIsPlaced(s.offIce, s.toOfferer.accepted, id);
  }

  lemma SentIsPlaced<T>(n: N.State<T>, accepted: seq<Packet<T>>, id: Key)
    requires N.KeyInOrder(n, id) && id in n.slots && n.slots[id].early == [] && n.consumed <= accepted
    ensures Stream(accepted, id) ==
            n.slots[id].sent + Stream(n.dropped, id) + N.InHand(n.hand, id) + Stream(accepted[|n.consumed|..], id)
  {
    StreamPrefix(n.consumed, accepted, id);
  }

  // ----- isolation -----

  /** Whatever a handler receives was sent to the key it asked for, however stale its channel. An offer: */
  lemma OffersAreIsolated(es: seq<Event>, s: State, b: nat, i: nat)
    requires Reached(es, s) && b < |s.offers.boxes| && i < |s.offers.boxes[b].takers|
    ensures i < |s.offers.boxes[b].sent| && s.offers.boxes[b].takers[i] < |s.offers.refs|
    ensures var o, host := s.offers.boxes[b].sent[i], s.offers.refs[s.offers.boxes[b].takers[i]].key;
            o.hostID == host && Packet(host, o) in s.offers.consumed && Mint(o.answererID, host, o.offer) in es
  {
    InvRun(es, s);
    C.StaleReferencesAreIsolated(s.offers, b, i);
    OfferingGenuine(s, b, i);
    SessionsAreMinted(es, s, s.offers.boxes[b].sent[i].answererID);
    MintedByCall(es, s.offers.boxes[b].sent[i].answererID);
  }

  /** a candidate for an answerer, */
  lemma AnswererCandidatesAreIsolated(es: seq<Event>, s: State, b: nat, i: nat)
    requires Reached(es, s) && b < |s.ansIce.boxes| && i < |s.ansIce.boxes[b].takers|
    ensures i < |s.ansIce.boxes[b].sent| && s.ansIce.boxes[b].takers[i] < |s.ansIce.refs|
    ensures var id, c := s.ansIce.refs[s.ansIce.boxes[b].takers[i]].key, s.ansIce.boxes[b].sent[i];
            Packet(id, c) in s.toAnswerer.accepted && ToAnswerer(F.Recv(c.stream, id, c.body)) in es
  {
    InvRun(es, s);
    C.StaleReferencesAreIsolated(s.ansIce, b, i);
    CandidateOfOfferer(es, s, Packet(s.ansIce.refs[s.ansIce.boxes[b].takers[i]].key, s.ansIce.boxes[b].sent[i]));
  }

  /** an answer, */
  lemma AnswersAreIsolated(es: seq<Event>, s: State, id: Key, i: nat) returns (r: nat)
    requires Reached(es, s) && id in s.answers.slots && i < |s.answers.slots[id].takers|
    ensures i < |s.answers.slots[id].sent| && s.answers.slots[id].takers[i] < |s.answers.refs|
    ensures s.answers.refs[s.answers.slots[id].takers[i]] == id
    ensures r < |s.agents| && HasOffer(s.agents[r]) && s.agents[r].o.answererID == id
    ensures SendAnswer(r, s.answers.slots[id].sent[i]) in es
  {
    InvRun(es, s);
    r := AnsweringAgent(es, s, id, i);
  }

  /** and a candidate for an offerer. */
  lemma OffererCandidatesAreIsolated(es: seq<Event>, s: State, id: Key, i: nat)
    requires Reached(es, s) && id in s.offIce.slots && i < |s.offIce.slots[id].takers|
    ensures i < |s.offIce.slots[id].sent| && s.offIce.slots[id].takers[i] < |s.offIce.refs|
    ensures s.offIce.refs[s.offIce.slots[id].takers[i]] == id
    ensures var c := s.offIce.slots[id].sent[i];
            Packet(id, c) in s.toOfferer.accepted && ToOfferer(F.Recv(c.stream, id, c.body)) in es
  {
    InvRun(es, s);
    SentForKey(s.offIce, s.toOfferer.accepted, id, i);
    CandidateOfAnswerer(es, s, Packet(id, s.offIce.slots[id].sent[i]));
  }

  lemma SentForKey<T>(n: N.State<T>, accepted: seq<Packet<T>>, id: Key, i: nat)
    requires N.Inv(n) && n.consumed <= accepted && id in n.slots && i < |n.slots[id].sent|
    ensures Packet(id, n.slots[id].sent[i]) in accepted
  {
    assert N.KeyInOrder(n, id);
    assert n.slots[id].sent[i] in Stream(n.consumed, id);
    StreamMembers(n.consumed, id, n.slots[id].sent[i]);
  }

  // ----- lifecycles -----

  /** Answerer candidate mailboxes never outlive their clean-ups. */
  lemma AnswererMailboxesNeedTimers(es: seq<Event>, s: State)
    requires Reached(es, s)
    ensures forall id | id in s.ansIce.live :: s.ansIce.live[id] in s.ansIce.timers
    ensures |s.ansIce.live| <= |s.ansIce.timers|
    ensures s.ansIce.timers == {} ==> s.ansIce.live == map[]
  {
    InvRun(es, s);
    C.EntriesNeedTimers(s.ansIce);
  }

  /** Host mailboxes do not have that property. A host's entry has its own clean-up pending if and only if
      offerRouter made it: the entries that a WaitForOffer call made have none. */
  lemma HostMailboxWithoutTimer(host: Key) returns (es: seq<Event>, s: State)
    ensures Reached(es, s) && s.offers.timers == {} && host in s.offers.live
    ensures forall fs: seq<Event>, t: State, h: Key | Reached(fs, t) && h in t.offers.live ::
              && t.offers.live[h] < |t.offers.boxes|
              && (t.offers.boxes[t.offers.live[h]].timed <==> t.offers.live[h] in t.offers.timers)
  {
    es := [] + [WaitForOffer(host)];
    s := Step(Init(), WaitForOffer(host)).value;
    RunThen(Step, Init(), [], Init(), WaitForOffer(host));
    forall fs: seq<Event>, t: State, h: Key | Reached(fs, t) && h in t.offers.live
      ensures t.offers.live[h] < |t.offers.boxes|
      ensures t.offers.boxes[t.offers.live[h]].timed <==> t.offers.live[h] in t.offers.timers
    {
      InvRun(fs, t);
    }
  }

  /** An offerer id is mapped for answers exactly while its clean-up is pending; the candidate map's keys
      are among the answer map's; with no clean-up pending both maps are empty. */
  lemma OffererLifecycle(es: seq<Event>, s: State)
    requires Reached(es, s)
    ensures s.answers.live == s.timers
    ensures s.offIce.live <= s.answers.live <= s.sessions.Keys
    ensures s.timers == {} ==> s.answers.live == {} && s.offIce.live == {}
  {
    InvRun(es, s);
  }

  /** Absent, present, absent for ever: once a minted id is unmapped it is never mapped again, and WaitForAnswer
      returns nothing more for it but the one answer that the router may be holding at that moment. */
  lemma AnswersAbsentForEver(es: seq<Event>, s: State, fs: seq<Event>, t: State, id: Key)
    requires Reached(es, s) && id in s.sessions && id !in s.answers.live && Run(Step, s, fs) == Some(t)
    ensures id in s.answers.slots && id in t.answers.slots && id !in t.answers.live
    ensures var before, after := s.answers.slots[id].sent, t.answers.slots[id].sent;
            after == before || (N.Holds(s.answers.hand, id) && after == before + [s.answers.hand.p.body])
  {
    InvRun(es, s);
    var ns := AnswersRun(s, fs, t);
    N.UnmappedForEver(s.answers, id, ns, t.answers);
  }

  /** The same for candidates to the offerer, whose entry may go earlier. */
  lemma CandidatesAbsentForEver(es: seq<Event>, s: State, fs: seq<Event>, t: State, id: Key)
    requires Reached(es, s) && id in s.sessions && id !in s.offIce.live && Run(Step, s, fs) == Some(t)
    ensures id in s.offIce.slots && id in t.offIce.slots && id !in t.offIce.live
    ensures var before, after := s.offIce.slots[id].sent, t.offIce.slots[id].sent;
            after == before || (N.Holds(s.offIce.hand, id) && after == before + [s.offIce.hand.p.body])
  {
    InvRun(es, s);
    var ns := OffIceRun(s, fs, t);
    N.UnmappedForEver(s.offIce, id, ns, t.offIce);
  }

  /** Once an answer for a minted id has been dropped, none is ever handed over for it again. */
  lemma NoAnswerAfterADrop(es: seq<Event>, s: State, fs: seq<Event>, t: State, id: Key)
    requires Reached(es, s) && id in s.sessions && Run(Step, s, fs) == Some(t)
    requires Stream(s.answers.dropped, id) != []
    ensures id in s.answers.slots && id in t.answers.slots && t.answers.slots[id].sent == s.answers.slots[id].sent
  {
    InvRun(es, s);
    var ns := AnswersRun(s, fs, t);
    N.NothingAfterADrop(s.answers, id, ns, t.answers);
  }

  /** The same for candidates. */
  lemma NoCandidateAfterADrop(es: seq<Event>, s: State, fs: seq<Event>, t: State, id: Key)
    requires Reached(es, s) && id in s.sessions && Run(Step, s, fs) == Some(t)
    requires Stream(s.offIce.dropped, id) != []
    ensures id in s.offIce.slots && id in t.offIce.slots && t.offIce.slots[id].sent == s.offIce.slots[id].sent
  {
    InvRun(es, s);
    var ns := OffIceRun(s, fs, t);
    N.NothingAfterADrop(s.offIce, id, ns, t.offIce);
  }

  /** Events that may unmap the answerer mailbox of `id`: a deferred clean-up of that id, or a clean-up of a
      mailbox that was made for it. */
  predicate Unmaps(s: State, e: Event, id: Key) {
    e.AnsIceStep? &&
    match e.ansIceStep
    case Delete(key) => key == id
    case Fire(b) => b < |s.ansIce.boxes| && s.ansIce.boxes[b].key == id
    case _ => false
  }

  predicate Spares(s: State, es: seq<Event>, id: Key)
    decreases |es|
  {
    |es| == 0 || Step(s, es[0]).None? || (!Unmaps(s, es[0], id) && Spares(Step(s, es[0]).value, es[1..], id))
  }

  lemma MailboxKept(s: State, e: Event, id: Key)
    requires id in s.ansIce.live && Step(s, e).Some? && !Unmaps(s, e, id)
    ensures id in Step(s, e).value.ansIce.live && Step(s, e).value.ansIce.live[id] == s.ansIce.live[id]
  {
  }

  lemma {:induction false} MailboxKeptThroughout(s: State, es: seq<Event>, id: Key)
    requires id in s.ansIce.live && Run(Step, s, es).Some? && Spares(s, es, id)
    ensures var t := Run(Step, s, es).value; id in t.ansIce.live && t.ansIce.live[id] == s.ansIce.live[id]
    decreases |es|
  {
    if |es| > 0 {
      MailboxKept(s, es[0], id);
      MailboxKeptThroughout(Step(s, es[0]).value, es[1..], id);
    }
  }

  /** When WaitForOffer returns, the answerer's candidate mailbox is there: one that was mapped is kept, a
      missing one is made with a clean-up. Whatever happens then, until something unmaps that very id, the
      agent's look-up finds that mailbox. */
  lemma ReturnedOfferHasMailbox(es: seq<Event>, s: State, r: nat, fs: seq<Event>, t: State)
    requires Reached(es, s) && r < |s.agents| && Step(s, ReturnOffer(r)).Some?
    requires Run(Step, Step(s, ReturnOffer(r)).value, fs) == Some(t)
    ensures r < |s.agents| && s.agents[r].Took?
    ensures var u, id := Step(s, ReturnOffer(r)).value, s.agents[r].o.answererID;
            && id in u.ansIce.live && u.ansIce.live[id] in u.ansIce.timers
            && (id in s.ansIce.live ==> u.ansIce == s.ansIce)
            && (Spares(u, fs, id) ==>
                  && id in t.ansIce.live && t.ansIce.live[id] == u.ansIce.live[id]
                  && Step(t, AnsIceStep(C.Acquire(id))).Some?)
  {
    InvRun(es, s);
    ReturnMakesMailbox(s, r);
    var u, id := Step(s, ReturnOffer(r)).value, s.agents[r].o.answererID;
    if Spares(u, fs, id) {
      MailboxKeptThroughout(u, fs, id);
      MappedMeansFound(t, id);
    }
  }

  lemma ReturnMakesMailbox(s: State, r: nat)
    requires C.TimersPending(s.ansIce) && C.AllTimed(s.ansIce.boxes) && Step(s, ReturnOffer(r)).Some?
    ensures r < |s.agents| && s.agents[r].Took?
    ensures var u, id := Step(s, ReturnOffer(r)).value, s.agents[r].o.answererID;
            && id in u.ansIce.live && u.ansIce.live[id] in u.ansIce.timers
            && (id in s.ansIce.live ==> u.ansIce == s.ansIce)
  {
  }

  lemma MappedMeansFound(s: State, id: Key)
    requires id in s.ansIce.live
    ensures Step(s, AnsIceStep(C.Acquire(id))).Some?
  {
    assert C.Step(s.ansIce, C.Acquire(id)).Some?;
  }

  /** No event of `es` is the clean-up of `id`. */
  predicate NoCleanup(es: seq<Event>, id: Key) {
    forall i | 0 <= i < |es| :: es[i] != Cleanup(id)
  }

  /** Nor is any of them the deferred delete of a WaitForICECandidate call that looked `id` up in `refs`. */
  predicate NoDeferredDelete(es: seq<Event>, refs: seq<Key>, id: Key) {
    forall i | 0 <= i < |es| && es[i].DeleteIce? && es[i].call < |refs| :: refs[es[i].call] != id
  }

  lemma AnswerEntryKept(s: State, e: Event, id: Key)
    requires Step(s, e).Some? && e != Cleanup(id) && id in s.answers.live
    ensures id in Step(s, e).value.answers.live
  {
  }

  lemma CandidateEntryKept(s: State, e: Event, id: Key)
    requires Step(s, e).Some? && e != Cleanup(id) && id in s.offIce.live
    ensures || (e.DeleteIce? && e.call < |s.offIce.refs| && s.offIce.refs[e.call] == id)
            || id in Step(s, e).value.offIce.live
  {
  }

  /** A late clean-up never removes another session's entry: an id stays mapped for answers until its own
      clean-up, */
  lemma {:induction false} OnlyOwnCleanupUnmaps(s: State, es: seq<Event>, t: State, id: Key)
    requires Run(Step, s, es) == Some(t) && NoCleanup(es, id) && id in s.answers.live
    ensures id in t.answers.live
    decreases |es|
  {
    if |es| > 0 {
      AnswerEntryKept(s, es[0], id);
      OnlyOwnCleanupUnmaps(Step(s, es[0]).value, es[1..], t, id);
    }
  }

  /** and for candidates until that or its own waiter's deferred delete, whatever else runs. */
  lemma {:induction false} OnlyOwnDeletesUnmap(s: State, es: seq<Event>, t: State, refs: seq<Key>, id: Key)
    requires Run(Step, s, es) == Some(t) && t.offIce.refs == refs
    requires NoCleanup(es, id) && NoDeferredDelete(es, refs, id)
    ensures id in s.offIce.live ==> id in t.offIce.live
    ensures s.offIce.refs <= refs
    decreases |es|
  {
    if |es| > 0 {
      OnlyOwnDeletesUnmap(Step(s, es[0]).value, es[1..], t, refs, id);
      RefsGrow(s, es[0]);
      if id in s.offIce.live {
        CandidateEntryKept(s, es[0], id);
      }
    }
  }

  lemma RefsGrow(s: State, e: Event)
    requires Step(s, e).Some?
    ensures s.offIce.refs <= Step(s, e).value.offIce.refs
  {
  }

  // ----- notification before hand-over -----

  /** The ids among `ids` whose SendOffer call named `host`. */
  function ForHost(sessions: map<Key, Session>, ids: seq<Key>, host: Key): seq<Key> {
    if |ids| == 0 then []
    else
      var n := |ids| - 1;
      ForHost(sessions, ids[..n], host) + (if ids[n] in sessions && sessions[ids[n]].host == host then [ids[n]] else [])
  }

  lemma {:induction false} ForHostMembers(sessions: map<Key, Session>, ids: seq<Key>, host: Key, id: Key)
    requires id in ids && id in sessions && sessions[id].host == host
    ensures id in ForHost(sessions, ids, host)
  {
    var n := |ids| - 1;
    if ids[n] != id {
      assert id in ids[..n];
      ForHostMembers(sessions, ids[..n], host, id);
    }
  }

  function Ids(os: seq<Offering>): seq<Key> {
    seq(|os|, i requires 0 <= i < |os| => os[i].answererID)
  }

  /** The host actor is notified before an offer is handed over: per host, offers accepted by offerRouter
      never exceed notifications. */
  lemma AcceptedWithinNotified(s: State, host: Key)
    requires Inv(s)
    ensures |Stream(s.offers.consumed, host)| <= |ForHost(s.sessions, s.notified, host)|
  {
    var os := Stream(s.offers.consumed, host);
    StreamNoDup(s.offers.consumed, host);
    forall i | 0 <= i < |os|
      ensures Genuine(s.sessions, Packet(host, os[i]))
      ensures os[i].answererID in ForHost(s.sessions, s.notified, host)
    {
      StreamMembers(s.offers.consumed, host, os[i]);
      assert Genuine(s.sessions, Packet(host, os[i]));
      ForHostMembers(s.sessions, s.notified, host, os[i].answererID);
    }
    forall i, j | 0 <= i < j < |os| ensures os[i].answererID != os[j].answererID {
      assert Genuine(s.sessions, Packet(host, os[i])) && Genuine(s.sessions, Packet(host, os[j]));
    }
    Pigeonhole(Ids(os), ForHost(s.sessions, s.notified, host));
  }
}
