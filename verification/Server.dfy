/**
  The whole server: the broker and the host registry, joined by the unbuffered
  channel on which SendOffer notifies the actor. A nil dereference in the actor
  stops the process.
 */
module Server {
  import opened Runs
  import opened Packets
  import B = Broker
  import BH = BrokerHistory
  import BP = BrokerProofs
  import BR = BrokerRuns
  import BT = BrokerTheorems
  import H = HostRegistry
  import HH = HostHistory

  datatype State = State(broker: B.State, hosts: H.State)

  datatype Event =
    | BrokerEvent(b: B.Event)
    | HostEvent(h: H.Event)
    | Notify(id: Key)

  function Init(): State {
    State(B.Init(), H.Init())
  }

  function Step(s: State, e: Event): Option<State> {
    if s.hosts.failed.Some? then None
    else match e
      case BrokerEvent(b) =>
        var t := B.Step(s.broker, b);
        if !b.Notify? && t.Some? then Some(s.(broker := t.value)) else None
      case HostEvent(h) =>
        var t := H.Step(s.hosts, h);
        if !h.TakeNote? && t.Some? then Some(s.(hosts := t.value)) else None
      case Notify(id) =>
        if id in s.broker.sessions then
          var b := B.Step(s.broker, B.Notify(id));
          var h := H.Step(s.hosts, H.TakeNote(s.broker.sessions[id].host));
          if b.Some? && h.Some? then Some(State(b.value, h.value)) else None
        else None
  }

  /** Both sides count the same notifications. */
  ghost predicate SameNotifications(s: State) {
    forall h :: |BT.ForHost(s.broker.sessions, s.broker.notified, h)| == s.hosts.notified[h]
  }

  ghost predicate Inv(s: State) {
    B.Inv(s.broker) && H.Inv(s.hosts) && SameNotifications(s)
  }

  lemma {:induction false} ForHostFramed(sessions: map<Key, B.Session>, sessions': map<Key, B.Session>, ids: seq<Key>,
                                         host: Key)
    requires forall i | 0 <= i < |ids| ::
               ids[i] in sessions && ids[i] in sessions' && sessions[ids[i]].host == sessions'[ids[i]].host
    ensures BT.ForHost(sessions, ids, host) == BT.ForHost(sessions', ids, host)
  {
    if |ids| > 0 {
      ForHostFramed(sessions, sessions', ids[..|ids| - 1], host);
    }
  }

  /** No event of the broker changes which host an id was minted for, and only Notify notifies. */
  lemma SessionsKeepHosts(s: B.State, b: B.Event)
    requires B.Step(s, b).Some? && !b.Notify?
    ensures B.Step(s, b).value.notified == s.notified
    ensures forall id | id in s.sessions ::
              id in B.Step(s, b).value.sessions && B.Step(s, b).value.sessions[id].host == s.sessions[id].host
  {
  }

  lemma InvBrokerEvent(s: State, b: B.Event)
    requires Inv(s) && Step(s, BrokerEvent(b)).Some?
    ensures Inv(Step(s, BrokerEvent(b)).value)
  {
    var t := Step(s, BrokerEvent(b)).value;
    BP.InvStep(s.broker, b);
    SessionsKeepHosts(s.broker, b);
    NotifiedHaveSessions(s.broker);
    assert SameNotifications(t) by {
      forall h ensures |BT.ForHost(t.broker.sessions, t.broker.notified, h)| == t.hosts.notified[h] {
        ForHostFramed(s.broker.sessions, t.broker.sessions, s.broker.notified, h);
      }
    }
  }

  lemma NotifiedHaveSessions(s: B.State)
    requires B.Inv(s)
    ensures forall i | 0 <= i < |s.notified| :: s.notified[i] in s.sessions
  {
  }

  lemma HostKeepsNotified(s: H.State, h: H.Event)
    requires H.Step(s, h).Some?
    ensures H.Step(s, h).value.notified == s.notified + if h.TakeNote? then multiset{h.host} else multiset{}
  {
  }

  lemma InvNotify(s: State, id: Key)
    requires Inv(s) && Step(s, Notify(id)).Some?
    ensures Inv(Step(s, Notify(id)).value)
  {
    var t := Step(s, Notify(id)).value;
    var host := s.broker.sessions[id].host;
    BP.InvStep(s.broker, B.Notify(id));
    H.InvStep(s.hosts, H.TakeNote(host));
    NotifiedHaveSessions(s.broker);
    HostKeepsNotified(s.hosts, H.TakeNote(host));
    forall h ensures |BT.ForHost(t.broker.sessions, t.broker.notified, h)| == t.hosts.notified[h] {
      ForHostNotify(s.broker, id, h);
    }
  }

  lemma ForHostNotify(s: B.State, id: Key, h: Key)
    requires B.Step(s, B.Notify(id)).Some? && forall i | 0 <= i < |s.notified| :: s.notified[i] in s.sessions
    ensures var t := B.Step(s, B.Notify(id)).value;
            BT.ForHost(t.sessions, t.notified, h) ==
            BT.ForHost(s.sessions, s.notified, h) + (if s.sessions[id].host == h then [id] else [])
  {
    var t := B.Step(s, B.Notify(id)).value;
    ForHostFramed(s.sessions, t.sessions, s.notified, h);
    assert t.notified[..|s.notified|] == s.notified;
  }

  lemma InvStep(s: State, e: Event)
    requires Inv(s) && Step(s, e).Some?
    ensures Inv(Step(s, e).value)
  {
    match e {
      case BrokerEvent(b) => InvBrokerEvent(s, b);
      case HostEvent(h) =>
        H.InvStep(s.hosts, h);
        HostKeepsNotified(s.hosts, h);
      case Notify(id) => InvNotify(s, id);
    }
  }

  lemma InvRun(es: seq<Event>, s: State)
    requires Run(Step, Init(), es) == Some(s)
    ensures Inv(s)
  {
    BP.InvInit();
    H.InvInit();
    var inv := (t: State) => Inv(t);
    forall t: State, e: Event | inv(t) && Step(t, e).Some? ensures inv(Step(t, e).value) {
      InvStep(t, e);
    }
    RunKeeps(Step, inv, Init(), es);
  }

  // ----- the server's runs, seen from either side -----

  /** What the events of the server are for the broker, */
  function BrokerTrace(es: seq<Event>): seq<B.Event> {
    if |es| == 0 then []
    else
      var n := |es| - 1;
      BrokerTrace(es[..n]) +
      match es[n]
      case BrokerEvent(b) => [b]
      case HostEvent(_) => []
      case Notify(id) => [B.Notify(id)]
  }

  /** and for the host registry: a notification is for the host that SendOffer was given. */
  function HostTrace(es: seq<Event>): seq<H.Event> {
    if |es| == 0 then []
    else
      var n := |es| - 1;
      HostTrace(es[..n]) +
      match es[n]
      case BrokerEvent(_) => []
      case HostEvent(h) => [h]
      case Notify(id) =>
        (match BH.MintedFor(BrokerTrace(es[..n]), id) case Some((host, _)) => [H.TakeNote(host)] case None => [])
  }

  lemma BrokerStep(s: State, e: Event)
    requires Step(s, e).Some?
    ensures var t := Step(s, e).value;
            match e
            case BrokerEvent(b) => B.Step(s.broker, b) == Some(t.broker)
            case HostEvent(_) => t.broker == s.broker
            case Notify(id) => B.Step(s.broker, B.Notify(id)) == Some(t.broker)
  {
  }

  /** A run of the server is a run of the broker, */
  lemma {:induction false} BrokerRun(es: seq<Event>, s: State)
    requires Run(Step, Init(), es) == Some(s)
    ensures BH.Reached(BrokerTrace(es), s.broker)
  {
    if |es| > 0 {
      var n := |es| - 1;
      var t := RunLast(Step, Init(), es, s);
      BrokerRun(es[..n], t);
      BrokerStep(t, es[n]);
      match es[n] {
        case BrokerEvent(b) => RunThen(B.Step, B.Init(), BrokerTrace(es[..n]), t.broker, b);
        case HostEvent(_) => assert BrokerTrace(es) == BrokerTrace(es[..n]);
        case Notify(id) => RunThen(B.Step, B.Init(), BrokerTrace(es[..n]), t.broker, B.Notify(id));
      }
    }
  }

  lemma HostStep(s: State, e: Event)
    requires Step(s, e).Some?
    ensures var t := Step(s, e).value;
            match e
            case BrokerEvent(_) => t.hosts == s.hosts
            case HostEvent(h) => H.Step(s.hosts, h) == Some(t.hosts)
            case Notify(id) =>
              id in s.broker.sessions && H.Step(s.hosts, H.TakeNote(s.broker.sessions[id].host)) == Some(t.hosts)
  {
  }

  /** and a run of the host registry: whatever holds after every run of either holds of the server. */
  lemma {:induction false} HostRun(es: seq<Event>, s: State)
    requires Run(Step, Init(), es) == Some(s)
    ensures H.Reached(HostTrace(es), s.hosts)
  {
    if |es| > 0 {
      var n := |es| - 1;
      var t := RunLast(Step, Init(), es, s);
      HostRun(es[..n], t);
      HostStep(t, es[n]);
      match es[n] {
        case BrokerEvent(_) => assert HostTrace(es) == HostTrace(es[..n]);
        case HostEvent(h) => RunThen(H.Step, H.Init(), HostTrace(es[..n]), t.hosts, h);
        case Notify(id) =>
          BrokerRun(es[..n], t);
          BH.SessionsAreMinted(BrokerTrace(es[..n]), t.broker, id);
          RunThen(H.Step, H.Init(), HostTrace(es[..n]), t.hosts, H.TakeNote(t.broker.sessions[id].host));
      }
    }
  }

  lemma {:induction false} TraceByEvent(es: seq<Event>, b: B.Event)
    requires b in BrokerTrace(es)
    ensures if b.Notify? then BrokerEvent(b) in es || Notify(b.id) in es else BrokerEvent(b) in es
  {
    var n := |es| - 1;
    if b in BrokerTrace(es[..n]) {
      TraceByEvent(es[..n], b);
    }
  }

  /** Session agreement of the whole server. The answer that WaitForAnswer(id) returned is the only one for id. It
      is the text that agent r passed to SendAnswer; r is the only agent ever handed id, and was handed exactly
      `offer`, where SendOffer(host, offer) is the call that minted id; and that host had been notified of it. */
  lemma SessionAgreement(es: seq<Event>, s: State, id: Key, p: nat) returns (r: nat, host: Key, offer: string)
    requires Run(Step, Init(), es) == Some(s)
    requires id in s.broker.answers.slots && p < |s.broker.answers.slots[id].sent|
    ensures p == 0 && BrokerEvent(B.Mint(id, host, offer)) in es
    ensures BrokerEvent(B.SendAnswer(r, s.broker.answers.slots[id].sent[p])) in es
    ensures r < |s.broker.agents| && BP.HasOffer(s.broker.agents[r])
    ensures s.broker.agents[r].o == B.Offering(host, id, offer)
    ensures forall q | 0 <= q < |s.broker.agents| && BP.HasOffer(s.broker.agents[q]) &&
                       s.broker.agents[q].o.answererID == id :: q == r
    ensures id in BH.Notifications(BrokerTrace(es)) && Count(HostTrace(es), H.TakeNote(host)) > 0
  {
    BrokerRun(es, s);
    r, host, offer := BT.SessionAgreement(BrokerTrace(es), s.broker, id, p);
    TraceByEvent(es, B.Mint(id, host, offer));
    TraceByEvent(es, B.SendAnswer(r, s.broker.answers.slots[id].sent[p]));
    AgentHostNotified(es, s, r);
  }

  /** The host of an id that an agent was handed had been notified. */
  lemma AgentHostNotified(es: seq<Event>, s: State, r: nat)
    requires Run(Step, Init(), es) == Some(s) && r < |s.broker.agents| && BP.HasOffer(s.broker.agents[r])
    ensures s.broker.agents[r].o.answererID in BH.Notifications(BrokerTrace(es))
    ensures Count(HostTrace(es), H.TakeNote(s.broker.agents[r].o.hostID)) > 0
  {
    InvRun(es, s);
    BrokerRun(es, s);
    BH.NotifiedInOrder(BrokerTrace(es), s.broker);
    AgentWasNotified(s.broker, r);
    var o := s.broker.agents[r].o;
    BT.AgentOffer(s.broker, r);
    BT.ForHostMembers(s.broker.sessions, s.broker.notified, o.hostID, o.answererID);
    HostRun(es, s);
    HH.NotesAreHistory(HostTrace(es), s.hosts, o.hostID);
  }

  /** An agent is only handed ids that were accepted, and SendOffer notifies first. */
  lemma AgentWasNotified(s: B.State, r: nat)
    requires B.Inv(s) && r < |s.agents| && BP.HasOffer(s.agents[r])
    ensures s.agents[r].o.answererID in s.notified
  {
    assert B.AgentKnown(s.offers, s.agents[r], r);
    BP.OfferingGenuine(s, s.offers.refs[r].box, s.agents[r].at);
  }

  /** SendOffer notifies before it hands over: per host, the offers that were handed to offerRouter never exceed the
      notifications that reached the actor; and each of these the actor ignored, holds, or made into a delivery. */
  lemma EveryAcceptedOfferWasNotified(es: seq<Event>, s: State, host: Key)
    requires Run(Step, Init(), es) == Some(s)
    ensures |Stream(BH.OffersHanded(BrokerTrace(es)), host)| <= Count(HostTrace(es), H.TakeNote(host))
    ensures Count(HostTrace(es), H.TakeNote(host)) ==
            HH.Ignored(HostTrace(es), host) + HH.Entrusted(HostTrace(es), host) +
            (if HH.InActor(HostTrace(es)) == Some(H.Note(host)) then 1 else 0)
  {
    InvRun(es, s);
    BrokerRun(es, s);
    HostRun(es, s);
    BT.AcceptedWithinNotified(s.broker, host);
    BH.OffersAreAsSent(BrokerTrace(es), s.broker);
    HH.NotesAreHistory(HostTrace(es), s.hosts, host);
    HH.NotificationsAccounted(HostTrace(es), s.hosts, host);
  }

  // ----- what can happen next -----

  /** What can happen after a history: nothing once the actor has failed; a notification when the broker's call and the
      actor are both ready for it. */
  ghost predicate CanHappen(es: seq<Event>, e: Event) {
    && !HH.Failed(HostTrace(es))
    && match e
       case BrokerEvent(b) => !b.Notify? && BR.CanHappen(BrokerTrace(es), b)
       case HostEvent(h) => !h.TakeNote? && HH.CanHappen(HostTrace(es), h)
       case Notify(id) =>
         && BR.CanHappen(BrokerTrace(es), B.Notify(id))
         && HH.CanHappen(HostTrace(es), H.TakeNote(BH.MintedFor(BrokerTrace(es), id).value.0))
  }

  lemma NotifyCan(s: State, id: Key)
    requires s.hosts.failed.None?
    ensures Step(s, Notify(id)).Some? <==>
            && B.Step(s.broker, B.Notify(id)).Some?
            && id in s.broker.sessions && H.Step(s.hosts, H.TakeNote(s.broker.sessions[id].host)).Some?
  {
  }

  /** A step of the server is possible exactly when the history allows it. */
  lemma HappensExactly(es: seq<Event>, s: State, e: Event)
    requires Run(Step, Init(), es) == Some(s)
    ensures Step(s, e).Some? <==> CanHappen(es, e)
  {
    BrokerRun(es, s);
    HostRun(es, s);
    HH.FailedIsHistory(HostTrace(es), s.hosts);
    match e {
      case BrokerEvent(b) => BR.HappensExactly(BrokerTrace(es), s.broker, b);
      case HostEvent(h) => HH.HappensExactly(HostTrace(es), s.hosts, h);
      case Notify(id) =>
        if s.hosts.failed.None? {
          NotifyCan(s, id);
          BR.HappensExactly(BrokerTrace(es), s.broker, B.Notify(id));
          BH.SessionsAreMinted(BrokerTrace(es), s.broker, id);
          if id in s.broker.sessions {
            HH.HappensExactly(HostTrace(es), s.hosts, H.TakeNote(s.broker.sessions[id].host));
          }
        }
    }
  }
}
