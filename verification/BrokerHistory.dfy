/**
  What the broker's state says about the calls that were made. The functions here read
  the events of a run only: what the callers passed, in order. The lemmas tie the state
  to them, so that theorems about the state are about those calls.
 */
module BrokerHistory {
  import opened Runs
  import opened Packets
  import opened Broker
  import C = CreatingRouter
  import F = CandidateStreams
  import SH = StreamHistory

  /** `s` is the state after the run `es`. */
  predicate Reached(es: seq<Event>, s: State) {
    Run(Step, Init(), es) == Some(s)
  }

  // ----- what the callers did -----

  /** The host and the offer that SendOffer was given when it minted `id`. */
  function MintedFor(es: seq<Event>, id: Key): Option<(Key, string)> {
    if |es| == 0 then None
    else
      var n := |es| - 1;
      match es[n]
      case Mint(minted, host, offer) => if minted == id then Some((host, offer)) else MintedFor(es[..n], id)
      case _ => MintedFor(es[..n], id)
  }

  /** The ids whose hosts were notified. */
  function Notifications(es: seq<Event>): seq<Key> {
    if |es| == 0 then []
    else Notifications(es[..|es| - 1]) + match es[|es| - 1] case Notify(id) => [id] case _ => []
  }

  /** The offers handed to offerRouter, each for the host and with the text its SendOffer call was given. */
  function OffersHanded(es: seq<Event>): seq<Packet<Offering>> {
    if |es| == 0 then []
    else
      var n := |es| - 1;
      OffersHanded(es[..n]) +
      match es[n]
      case HandOver(id) =>
        (match MintedFor(es[..n], id)
         case Some((host, offer)) => [Packet(host, Offering(host, id, offer))]
         case None => [])
      case _ => []
  }

  /** The hosts for which agents called WaitForOffer. */
  function HostsAwaited(es: seq<Event>): seq<Key> {
    if |es| == 0 then []
    else HostsAwaited(es[..|es| - 1]) + match es[|es| - 1] case WaitForOffer(host) => [host] case _ => []
  }

  /** The answers given: by which agent, and the text. */
  function AnswersGiven(es: seq<Event>): seq<(nat, string)> {
    if |es| == 0 then []
    else AnswersGiven(es[..|es| - 1]) + match es[|es| - 1] case SendAnswer(r, answer) => [(r, answer)] case _ => []
  }

  /** What happened on the SendIceCandidate streams of offerers, */
  function FromOfferers(es: seq<Event>): seq<F.Event> {
    if |es| == 0 then []
    else FromOfferers(es[..|es| - 1]) + match es[|es| - 1] case ToAnswerer(f) => [f] case _ => []
  }

  /** and of answerers. */
  function FromAnswerers(es: seq<Event>): seq<F.Event> {
    if |es| == 0 then []
    else FromAnswerers(es[..|es| - 1]) + match es[|es| - 1] case ToOfferer(f) => [f] case _ => []
  }

  // ----- what the state keeps of it -----

  /** An id has a session exactly if it was minted, with what the caller passed. */
  ghost predicate SessionIs(s: State, id: Key, call: Option<(Key, string)>) {
    match call
    case None => id !in s.sessions
    case Some((host, offer)) => id in s.sessions && s.sessions[id].host == host && s.sessions[id].offer == offer
  }

  lemma SessionStep(s: State, e: Event, id: Key)
    requires Step(s, e).Some?
    ensures var t := Step(s, e).value;
            if e.Mint? && e.id == id then
              id !in s.sessions && id in t.sessions && t.sessions[id].host == e.host && t.sessions[id].offer == e.offer
            else
              && (id in t.sessions <==> id in s.sessions)
              && (id in s.sessions ==>
                    t.sessions[id].host == s.sessions[id].host && t.sessions[id].offer == s.sessions[id].offer)
  {
  }

  lemma {:induction false} SessionsAreMinted(es: seq<Event>, s: State, id: Key)
    requires Reached(es, s)
    ensures SessionIs(s, id, MintedFor(es, id))
  {
    if |es| > 0 {
      var n := |es| - 1;
      var t := RunLast(Step, Init(), es, s);
      SessionsAreMinted(es[..n], t, id);
      SessionStep(t, es[n], id);
    }
  }

  /** It was minted once, by that very call. */
  lemma {:induction false} MintedOnce(es: seq<Event>, s: State, id: Key, host: Key, offer: string)
    requires Reached(es, s) && Mint(id, host, offer) in es
    ensures MintedFor(es, id) == Some((host, offer))
  {
    var n := |es| - 1;
    var t := RunLast(Step, Init(), es, s);
    if Mint(id, host, offer) in es[..n] {
      MintedOnce(es[..n], t, id, host, offer);
      SessionsAreMinted(es[..n], t, id);
      SessionStep(t, es[n], id);
    }
  }

  lemma {:induction false} MintedByCall(es: seq<Event>, id: Key)
    requires MintedFor(es, id).Some?
    ensures var call := MintedFor(es, id).value; Mint(id, call.0, call.1) in es
  {
    var n := |es| - 1;
    if !(es[n].Mint? && es[n].id == id) {
      MintedByCall(es[..n], id);
    }
  }

  lemma NotifyStep(s: State, e: Event)
    requires Step(s, e).Some?
    ensures Step(s, e).value.notified == s.notified + match e case Notify(id) => [id] case _ => []
  {
  }

  lemma {:induction false} NotifiedInOrder(es: seq<Event>, s: State)
    requires Reached(es, s)
    ensures s.notified == Notifications(es)
  {
    if |es| > 0 {
      var t := RunLast(Step, Init(), es, s);
      NotifiedInOrder(es[..|es| - 1], t);
      NotifyStep(t, es[|es| - 1]);
    }
  }

  lemma HandOverStep(s: State, e: Event)
    requires Step(s, e).Some?
    ensures Step(s, e).value.offers.consumed == s.offers.consumed +
            match e
            case HandOver(id) =>
              if id in s.sessions then
                [Packet(s.sessions[id].host, Offering(s.sessions[id].host, id, s.sessions[id].offer))]
              else []
            case _ => []
  {
  }

  /** offerRouter was given exactly the offers handed over, in order, each as its caller sent it. */
  lemma {:induction false} OffersAreAsSent(es: seq<Event>, s: State)
    requires Reached(es, s)
    ensures s.offers.consumed == OffersHanded(es)
  {
    if |es| > 0 {
      var n := |es| - 1;
      var t := RunLast(Step, Init(), es, s);
      OffersAreAsSent(es[..n], t);
      HandOverStep(t, es[n]);
      if es[n].HandOver? {
        SessionsAreMinted(es[..n], t, es[n].id);
      }
    }
  }

  lemma AwaitStep(s: State, e: Event)
    requires Step(s, e).Some? && |s.agents| == |s.offers.refs|
    ensures var t := Step(s, e).value;
            && |t.agents| == |t.offers.refs| && s.offers.refs <= t.offers.refs
            && (if e.WaitForOffer? then |t.agents| == |s.agents| + 1 && t.offers.refs[|s.agents|].key == e.host
                else |t.agents| == |s.agents|)
  {
  }

  /** One agent per WaitForOffer call, waiting for the host that the call named. */
  lemma {:induction false} AgentsWaitForHosts(es: seq<Event>, s: State)
    requires Reached(es, s)
    ensures |s.agents| == |s.offers.refs| == |HostsAwaited(es)|
    ensures forall r | 0 <= r < |s.agents| :: s.offers.refs[r].key == HostsAwaited(es)[r]
  {
    if |es| > 0 {
      var n := |es| - 1;
      var t := RunLast(Step, Init(), es, s);
      AgentsWaitForHosts(es[..n], t);
      AwaitStep(t, es[n]);
    }
  }

  lemma AnswerStepKeeps(s: State, e: Event)
    requires Step(s, e).Some? && |s.authors| == |s.sentAnswers|
    ensures var t := Step(s, e).value;
            match e
            case SendAnswer(r, answer) =>
              && |t.authors| == |t.sentAnswers| == |s.authors| + 1 && s.authors <= t.authors
              && s.sentAnswers <= t.sentAnswers
              && t.authors[|s.authors|] == r && t.sentAnswers[|s.authors|].body == answer
            case _ => t.authors == s.authors && t.sentAnswers == s.sentAnswers
  {
  }

  /** What is on answerCh, in order, is what the agents sent: by whom, and the text. */
  lemma {:induction false} AnswersAreAsSent(es: seq<Event>, s: State)
    requires Reached(es, s)
    ensures |s.authors| == |s.sentAnswers| == |AnswersGiven(es)|
    ensures forall i | 0 <= i < |s.authors| :: AnswersGiven(es)[i] == (s.authors[i], s.sentAnswers[i].body)
  {
    if |es| > 0 {
      var n := |es| - 1;
      var t := RunLast(Step, Init(), es, s);
      AnswersAreAsSent(es[..n], t);
      AnswerStepKeeps(t, es[n]);
    }
  }

  lemma {:induction false} GivenByEvent(es: seq<Event>, r: nat, answer: string)
    requires (r, answer) in AnswersGiven(es)
    ensures SendAnswer(r, answer) in es
  {
    var n := |es| - 1;
    if es[n] != SendAnswer(r, answer) {
      GivenByEvent(es[..n], r, answer);
    }
  }

  lemma StreamStep(s: State, e: Event)
    requires Step(s, e).Some?
    ensures var t := Step(s, e).value;
            && (if e.ToAnswerer? then F.Step(s.toAnswerer, e.upload) == Some(t.toAnswerer)
                else t.toAnswerer == s.toAnswerer)
            && (if e.ToOfferer? then F.Step(s.toOfferer, e.upload) == Some(t.toOfferer) else t.toOfferer == s.toOfferer)
  {
  }

  /** Seen from the offerers' SendIceCandidate calls, a run of the broker is a run of those, */
  lemma {:induction false} OfferersRun(es: seq<Event>, s: State)
    requires Reached(es, s)
    ensures Run(F.Step, F.Init(), FromOfferers(es)) == Some(s.toAnswerer)
  {
    if |es| > 0 {
      var n := |es| - 1;
      var t := RunLast(Step, Init(), es, s);
      OfferersRun(es[..n], t);
      StreamStep(t, es[n]);
      if es[n].ToAnswerer? {
        assert FromOfferers(es) == FromOfferers(es[..n]) + [es[n].upload];
        RunThen(F.Step, F.Init(), FromOfferers(es[..n]), t.toAnswerer, es[n].upload);
      } else {
        assert FromOfferers(es) == FromOfferers(es[..n]);
      }
    }
  }

  /** and the same for the answerers'. */
  lemma {:induction false} AnswerersRun(es: seq<Event>, s: State)
    requires Reached(es, s)
    ensures Run(F.Step, F.Init(), FromAnswerers(es)) == Some(s.toOfferer)
  {
    if |es| > 0 {
      var n := |es| - 1;
      var t := RunLast(Step, Init(), es, s);
      AnswerersRun(es[..n], t);
      StreamStep(t, es[n]);
      if es[n].ToOfferer? {
        assert FromAnswerers(es) == FromAnswerers(es[..n]) + [es[n].upload];
        RunThen(F.Step, F.Init(), FromAnswerers(es[..n]), t.toOfferer, es[n].upload);
      } else {
        assert FromAnswerers(es) == FromAnswerers(es[..n]);
      }
    }
  }

  lemma {:induction false} FromOfferersByEvent(es: seq<Event>, f: F.Event)
    requires f in FromOfferers(es)
    ensures ToAnswerer(f) in es
  {
    var n := |es| - 1;
    if es[n] != ToAnswerer(f) {
      FromOfferersByEvent(es[..n], f);
    }
  }

  lemma {:induction false} FromAnswerersByEvent(es: seq<Event>, f: F.Event)
    requires f in FromAnswerers(es)
    ensures ToOfferer(f) in es
  {
    var n := |es| - 1;
    if es[n] != ToOfferer(f) {
      FromAnswerersByEvent(es[..n], f);
    }
  }

  /** A candidate pushed towards an answerer is a message of an offerer's stream, as that client sent it, */
  lemma CandidateOfOfferer(es: seq<Event>, s: State, p: Packet<F.Candidate>)
    requires Reached(es, s) && p in s.toAnswerer.accepted
    ensures ToAnswerer(F.Recv(p.body.stream, p.key, p.body.body)) in es
  {
    OfferersRun(es, s);
    SH.StateIsHistory(FromOfferers(es), s.toAnswerer);
    SH.AcceptedWasSent(FromOfferers(es), p);
    FromOfferersByEvent(es, F.Recv(p.body.stream, p.key, p.body.body));
  }

  /** and one pushed towards an offerer, of an answerer's. */
  lemma CandidateOfAnswerer(es: seq<Event>, s: State, p: Packet<F.Candidate>)
    requires Reached(es, s) && p in s.toOfferer.accepted
    ensures ToOfferer(F.Recv(p.body.stream, p.key, p.body.body)) in es
  {
    AnswerersRun(es, s);
    SH.StateIsHistory(FromAnswerers(es), s.toOfferer);
    SH.AcceptedWasSent(FromAnswerers(es), p);
    FromAnswerersByEvent(es, F.Recv(p.body.stream, p.key, p.body.body));
  }
}
