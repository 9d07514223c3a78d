/**
  The broker as its two servers. Seen from OffererServer, or from AnswererServerImpl,
  a run of the broker is a run of that server's two tables, which are what the server
  objects do step by step.
 */
module BrokerServers {
  import opened Runs
  import opened Packets
  import opened Broker
  import opened BrokerProofs
  import opened BrokerProjections
  import A = AnswererServers
  import C = CreatingRouter
  import N = NonCreatingRouter
  import O = OffererServers

  function OffererView(s: State): O.State {
    O.Tables(s.answers, s.offIce, s.timers)
  }

  function AnswererView(s: State): A.State {
    A.Tables(s.offers, s.ansIce)
  }

  /** What an event of the broker is for the offerer's server. */
  function OffererEvents(s: State, e: Event): seq<O.Event> {
    match e
    case Mint(id, _, _) => [O.Register(id)]
    case Cleanup(id) => [O.Cleanup(id)]
    case AnswerReceive =>
      if |s.answers.consumed| < |s.sentAnswers| then [O.AnswersStep(N.Receive(s.sentAnswers[|s.answers.consumed|]))]
      else []
    case AnswerStep(n) => [O.AnswersStep(n)]
    case OffIceReceive =>
      if |s.offIce.consumed| < |s.toOfferer.accepted| then
        [O.IceStep(N.Receive(s.toOfferer.accepted[|s.offIce.consumed|]))]
      else []
    case OffIceStep(n) => [O.IceStep(n)]
    case DeleteIce(h) => if h < |s.offIce.refs| then [O.IceStep(N.Delete(s.offIce.refs[h]))] else []
    case _ => []
  }

  lemma OffererStep(s: State, e: Event)
    requires Step(s, e).Some?
    ensures Run(O.Step, OffererView(s), OffererEvents(s, e)) == Some(OffererView(Step(s, e).value))
  {
    var os := OffererEvents(s, e);
    if |os| > 0 {
      RunOne(O.Step, OffererView(s), os[0]);
    }
  }

  lemma {:induction false} OffererRun(s: State, es: seq<Event>, t: State) returns (os: seq<O.Event>)
    requires Run(Step, s, es) == Some(t)
    ensures Run(O.Step, OffererView(s), os) == Some(OffererView(t))
    decreases |es|
  {
    if |es| == 0 {
      os := [];
    } else {
      var u := Step(s, es[0]).value;
      var rest := OffererRun(u, es[1..], t);
      OffererStep(s, es[0]);
      RunConcat(O.Step, OffererView(s), OffererEvents(s, es[0]), OffererView(u), rest);
      os := OffererEvents(s, es[0]) + rest;
    }
  }

  /** And for the answerer's. */
  function AnswererEvents(s: State, e: Event): seq<A.Event> {
    match e
    case HandOver(id) =>
      if id in s.sessions then
        [A.OffersStep(C.Receive(Packet(s.sessions[id].host, Offering(s.sessions[id].host, id, s.sessions[id].offer))))]
      else []
    case OfferRouter(c) => [A.OffersStep(c)]
    case WaitForOffer(host) => [A.LookUpOffer(host)]
    case TakeOffer(r) => [A.OffersStep(C.Take(r))]
    case Leave(r) => [A.OffersStep(C.Leave(r))]
    case ReturnOffer(r) =>
      if r < |s.agents| && HasOffer(s.agents[r]) then [A.EnsureIce(s.agents[r].o.answererID)] else []
    case AnsIceReceive =>
      if |s.ansIce.consumed| < |s.toAnswerer.accepted| then
        [A.IceStep(C.Receive(s.toAnswerer.accepted[|s.ansIce.consumed|]))]
      else []
    case AnsIceStep(c) => [A.IceStep(c)]
    case _ => []
  }

  lemma AnswererStep(s: State, e: Event)
    requires |s.agents| == |s.offers.refs| && Step(s, e).Some?
    ensures Run(A.Step, AnswererView(s), AnswererEvents(s, e)) == Some(AnswererView(Step(s, e).value))
  {
    var os := AnswererEvents(s, e);
    if |os| > 0 {
      RunOne(A.Step, AnswererView(s), os[0]);
    }
  }

  lemma {:induction false} AnswererRun(s: State, es: seq<Event>, t: State) returns (os: seq<A.Event>)
    requires Inv(s) && Run(Step, s, es) == Some(t)
    ensures Run(A.Step, AnswererView(s), os) == Some(AnswererView(t))
    decreases |es|
  {
    if |es| == 0 {
      os := [];
    } else {
      var u := Step(s, es[0]).value;
      InvStep(s, es[0]);
      var rest := AnswererRun(u, es[1..], t);
      AnswererStep(s, es[0]);
      RunConcat(A.Step, AnswererView(s), AnswererEvents(s, es[0]), AnswererView(u), rest);
      os := AnswererEvents(s, es[0]) + rest;
    }
  }

  /** Every run of the broker is one run of each server from its empty tables. */
  lemma ServersRun(es: seq<Event>, s: State) returns (os: seq<O.Event>, rs: seq<A.Event>)
    requires Run(Step, Init(), es) == Some(s)
    ensures Run(O.Step, O.Init(), os) == Some(OffererView(s))
    ensures Run(A.Step, A.Init(), rs) == Some(AnswererView(s))
  {
    InvInit();
    os := OffererRun(Init(), es, s);
    rs := AnswererRun(Init(), es, s);
  }
}
