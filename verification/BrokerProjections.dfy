/** Seen from one of its four tables, a run of the broker is a run of that table. */
module BrokerProjections {
  import opened Runs
  import opened Packets
  import opened Broker
  import opened BrokerProofs
  import C = CreatingRouter
  import N = NonCreatingRouter
  import F = CandidateStreams

  lemma RunOne<S, E>(step: (S, E) -> Option<S>, s: S, e: E)
    ensures Run(step, s, [e]) == step(s, e)
  {
    var one := [e];
    assert one[1..] == [];
  }

  lemma RunTwo<S, E>(step: (S, E) -> Option<S>, s: S, e: E, f: E)
    requires step(s, e).Some?
    ensures Run(step, s, [e, f]) == step(step(s, e).value, f)
  {
    assert [e, f][1..] == [f];
    RunOne(step, step(s, e).value, f);
  }

  // ----- the offerer's tables -----

  function AnswersEvents(s: State, e: Event): seq<N.Event<string>> {
    match e
    case Mint(id, _, _) => [N.Mint(id)]
    case Cleanup(id) => [N.Delete(id)]
    case AnswerReceive =>
      if |s.answers.consumed| < |s.sentAnswers| then [N.Receive(s.sentAnswers[|s.answers.consumed|])] else []
    case AnswerStep(n) => [n]
    case _ => []
  }

  lemma AnswersStep(s: State, e: Event)
    requires Step(s, e).Some?
    ensures Run(N.Step, s.answers, AnswersEvents(s, e)) == Some(Step(s, e).value.answers)
  {
    var ns := AnswersEvents(s, e);
    if |ns| > 0 {
      RunOne(N.Step, s.answers, ns[0]);
    }
  }

  lemma {:induction false} AnswersRun(s: State, es: seq<Event>, t: State) returns (ns: seq<N.Event<string>>)
    requires Run(Step, s, es) == Some(t)
    ensures Run(N.Step, s.answers, ns) == Some(t.answers)
    decreases |es|
  {
    if |es| == 0 {
      ns := [];
    } else {
      var u := Step(s, es[0]).value;
      var rest := AnswersRun(u, es[1..], t);
      AnswersStep(s, es[0]);
      RunConcat(N.Step, s.answers, AnswersEvents(s, es[0]), u.answers, rest);
      ns := AnswersEvents(s, es[0]) + rest;
    }
  }

  function OffIceEvents(s: State, e: Event): seq<N.Event<F.Candidate>> {
    match e
    case Mint(id, _, _) => [N.Mint(id)]
    case Cleanup(id) => [N.Delete(id)]
    case OffIceReceive =>
      if |s.offIce.consumed| < |s.toOfferer.accepted| then [N.Receive(s.toOfferer.accepted[|s.offIce.consumed|])]
      else []
    case OffIceStep(n) => [n]
    case DeleteIce(h) => if h < |s.offIce.refs| then [N.Delete(s.offIce.refs[h])] else []
    case _ => []
  }

  lemma OffIceStepProjects(s: State, e: Event)
    requires Step(s, e).Some?
    ensures Run(N.Step, s.offIce, OffIceEvents(s, e)) == Some(Step(s, e).value.offIce)
  {
    var ns := OffIceEvents(s, e);
    if |ns| > 0 {
      RunOne(N.Step, s.offIce, ns[0]);
    }
  }

  lemma {:induction false} OffIceRun(s: State, es: seq<Event>, t: State) returns (ns: seq<N.Event<F.Candidate>>)
    requires Run(Step, s, es) == Some(t)
    ensures Run(N.Step, s.offIce, ns) == Some(t.offIce)
    decreases |es|
  {
    if |es| == 0 {
      ns := [];
    } else {
      var u := Step(s, es[0]).value;
      var rest := OffIceRun(u, es[1..], t);
      OffIceStepProjects(s, es[0]);
      RunConcat(N.Step, s.offIce, OffIceEvents(s, es[0]), u.offIce, rest);
      ns := OffIceEvents(s, es[0]) + rest;
    }
  }

  // ----- the answerer's tables -----

  function OffersEvents(s: State, e: Event): seq<C.Event<Offering>> {
    match e
    case HandOver(id) =>
      if id in s.sessions then
        [C.Receive(Packet(s.sessions[id].host, Offering(s.sessions[id].host, id, s.sessions[id].offer)))]
      else []
    case OfferRouter(c) => [c]
    case WaitForOffer(host) => [C.Ensure(host, false), C.Acquire(host)]
    case TakeOffer(r) => [C.Take(r)]
    case Leave(r) => [C.Leave(r)]
    case _ => []
  }

  lemma OffersStep(s: State, e: Event)
    requires |s.agents| == |s.offers.refs| && Step(s, e).Some?
    ensures Run(C.Step, s.offers, OffersEvents(s, e)) == Some(Step(s, e).value.offers)
  {
    var cs := OffersEvents(s, e);
    if |cs| == 1 {
      RunOne(C.Step, s.offers, cs[0]);
    } else if |cs| == 2 {
      RunTwo(C.Step, s.offers, cs[0], cs[1]);
    }
  }

  lemma {:induction false} OffersRun(s: State, es: seq<Event>, t: State) returns (cs: seq<C.Event<Offering>>)
    requires Inv(s) && Run(Step, s, es) == Some(t)
    ensures Run(C.Step, s.offers, cs) == Some(t.offers)
    decreases |es|
  {
    if |es| == 0 {
      cs := [];
    } else {
      var u := Step(s, es[0]).value;
      InvStep(s, es[0]);
      var rest := OffersRun(u, es[1..], t);
      OffersStep(s, es[0]);
      RunConcat(C.Step, s.offers, OffersEvents(s, es[0]), u.offers, rest);
      cs := OffersEvents(s, es[0]) + rest;
    }
  }

  function AnsIceEvents(s: State, e: Event): seq<C.Event<F.Candidate>> {
    match e
    case ReturnOffer(r) =>
      if r < |s.agents| && s.agents[r].Took? then [C.Ensure(s.agents[r].o.answererID, true)] else []
    case AnsIceReceive =>
      if |s.ansIce.consumed| < |s.toAnswerer.accepted| then [C.Receive(s.toAnswerer.accepted[|s.ansIce.consumed|])]
      else []
    case AnsIceStep(c) => [c]
    case _ => []
  }

  lemma AnsIceStepProjects(s: State, e: Event)
    requires Step(s, e).Some?
    ensures Run(C.Step, s.ansIce, AnsIceEvents(s, e)) == Some(Step(s, e).value.ansIce)
  {
    var cs := AnsIceEvents(s, e);
    if |cs| > 0 {
      RunOne(C.Step, s.ansIce, cs[0]);
    }
  }

  lemma {:induction false} AnsIceRun(s: State, es: seq<Event>, t: State) returns (cs: seq<C.Event<F.Candidate>>)
    requires Run(Step, s, es) == Some(t)
    ensures Run(C.Step, s.ansIce, cs) == Some(t.ansIce)
    decreases |es|
  {
    if |es| == 0 {
      cs := [];
    } else {
      var u := Step(s, es[0]).value;
      var rest := AnsIceRun(u, es[1..], t);
      AnsIceStepProjects(s, es[0]);
      RunConcat(C.Step, s.ansIce, AnsIceEvents(s, es[0]), u.ansIce, rest);
      cs := AnsIceEvents(s, es[0]) + rest;
    }
  }

  /** Conversely, a run of the answerer's candidate table by router, handlers and clean-ups alone is a run of
      the broker. */
  lemma {:induction false} LiftAnsIce(s: State, cs: seq<C.Event<F.Candidate>>, c: C.State<F.Candidate>)
    returns (es: seq<Event>)
    requires Run(C.Step, s.ansIce, cs) == Some(c)
    requires forall i | 0 <= i < |cs| :: AnsIceStepAlone(cs[i])
    ensures Run(Step, s, es) == Some(s.(ansIce := c))
    decreases |cs|
  {
    if |cs| == 0 {
      es := [];
    } else {
      var u := Step(s, AnsIceStep(cs[0])).value;
      var rest := LiftAnsIce(u, cs[1..], c);
      es := [AnsIceStep(cs[0])] + rest;
      assert es[1..] == rest;
    }
  }
}
