/**
  The SendIceCandidate streams as the history of a run: where each helper is, what was
  pushed, and which steps are possible, read from the events only.
 */
module StreamHistory {
  import opened Runs
  import opened Packets
  import opened CandidateStreams

  predicate Reached(es: seq<Event>, s: State) {
    Run(Step, Init(), es) == Some(s)
  }

  /** The messages that the client of stream `u` sent, as far as they were received: each is addressed to the id
      it names and carries its text. */
  function Sent(es: seq<Event>, u: nat): seq<Packet<Candidate>> {
    if |es| == 0 then []
    else
      var n := |es| - 1;
      Sent(es[..n], u) +
      match es[n]
      case Recv(v, answererId, body) => if v == u then [Packet(answererId, Candidate(u, body))] else []
      case _ => []
  }

  /** Where the helper of stream `u` is: it pushes exactly the message it received last. */
  function HelperOf(es: seq<Event>, u: nat): Helper {
    if |es| == 0 then Receiving
    else
      var n := |es| - 1;
      match es[n]
      case Open => if Count(es[..n], Open) == u then Receiving else HelperOf(es[..n], u)
      case Recv(v, answererId, body) =>
        if v == u then Pushing(Packet(answererId, Candidate(u, body))) else HelperOf(es[..n], u)
      case RecvNothing(v) => if v == u then Signalling else HelperOf(es[..n], u)
      case Push(v) => if v == u then Signalling else HelperOf(es[..n], u)
      case Loop(v) => if v == u then Receiving else HelperOf(es[..n], u)
      case Done(_) => HelperOf(es[..n], u)
  }

  /** What the shared channel accepted, in order: what each helper had in hand when it pushed. */
  function Pushed(es: seq<Event>): seq<Packet<Candidate>> {
    if |es| == 0 then []
    else
      var n := |es| - 1;
      Pushed(es[..n]) +
      match es[n]
      case Push(u) => (match HelperOf(es[..n], u) case Pushing(p) => [p] case _ => [])
      case _ => []
  }

  ghost predicate StreamIs(es: seq<Event>, s: State, u: nat) {
    if u < |s.uploads| then s.uploads[u] == Upload(Sent(es, u), HelperOf(es, u), Done(u) !in es)
    else Sent(es, u) == [] && Done(u) !in es
  }

  /** What a step does to one stream. */
  lemma StreamOnly(s: State, e: Event, u: nat)
    requires Step(s, e).Some?
    ensures var t := Step(s, e).value;
            if u < |s.uploads| then
              && u < |t.uploads|
              && t.uploads[u] ==
                 match e
                 case Open => s.uploads[u]
                 case Recv(v, k, body) =>
                   var p := Packet(k, Candidate(u, body));
                   if v == u then Upload(s.uploads[u].received + [p], Pushing(p), s.uploads[u].open) else s.uploads[u]
                 case RecvNothing(v) => if v == u then s.uploads[u].(helper := Signalling) else s.uploads[u]
                 case Push(v) => if v == u then s.uploads[u].(helper := Signalling) else s.uploads[u]
                 case Loop(v) => if v == u then s.uploads[u].(helper := Receiving) else s.uploads[u]
                 case Done(v) => if v == u then s.uploads[u].(open := false) else s.uploads[u]
            else
              && (e.Open? || e.u < |s.uploads|)
              && |t.uploads| == |s.uploads| + (if e.Open? then 1 else 0)
              && (u < |t.uploads| ==> t.uploads[u] == Upload([], Receiving, true))
  {
  }

  lemma StreamNext(es: seq<Event>, s: State, t: State, u: nat)
    requires |es| > 0 && StreamIs(es[..|es| - 1], s, u) && Step(s, es[|es| - 1]) == Some(t)
    requires |s.uploads| == Count(es[..|es| - 1], Open)
    ensures StreamIs(es, t, u)
  {
    var n := |es| - 1;
    assert es == es[..n] + [es[n]];
    StreamOnly(s, es[n], u);
  }

  lemma AcceptedNext(s: State, e: Event)
    requires Step(s, e).Some?
    ensures var t := Step(s, e).value;
            && |t.uploads| == |s.uploads| + (if e.Open? then 1 else 0)
            && (if e.Push? then
                  && e.u < |s.uploads| && s.uploads[e.u].helper.Pushing?
                  && t.accepted == s.accepted + [s.uploads[e.u].helper.p]
                else t.accepted == s.accepted)
  {
  }

  /** What each stream received, where its helper is, and what was pushed, are what the events made them. */
  lemma {:induction false} StateIsHistory(es: seq<Event>, s: State)
    requires Reached(es, s)
    ensures |s.uploads| == Count(es, Open) && s.accepted == Pushed(es) && forall u: nat :: StreamIs(es, s, u)
  {
    if |es| > 0 {
      var n := |es| - 1;
      var t := RunLast(Step, Init(), es, s);
      StateIsHistory(es[..n], t);
      AcceptedNext(t, es[n]);
      if es[n].Push? {
        assert StreamIs(es[..n], t, es[n].u);
      }
      forall u: nat ensures StreamIs(es, s, u) {
        assert StreamIs(es[..n], t, u);
        StreamNext(es, t, s, u);
      }
    }
  }

  /** What a stream received is what its client sent, in order. */
  lemma ReceivedIsSent(es: seq<Event>, s: State, u: nat)
    requires Reached(es, s) && u < |s.uploads|
    ensures s.uploads[u].received == Sent(es, u)
  {
    StateIsHistory(es, s);
    assert StreamIs(es, s, u);
  }

  lemma {:induction false} InHandWasSent(es: seq<Event>, u: nat)
    requires HelperOf(es, u).Pushing?
    ensures var p := HelperOf(es, u).p; p.body.stream == u && Recv(u, p.key, p.body.body) in es
  {
    var n := |es| - 1;
    if HelperOf(es, u) == HelperOf(es[..n], u) {
      InHandWasSent(es[..n], u);
    }
  }

  /** What the shared channel accepted was sent by a client, with that id and text, on that stream. */
  lemma {:induction false} AcceptedWasSent(es: seq<Event>, p: Packet<Candidate>)
    requires p in Pushed(es)
    ensures Recv(p.body.stream, p.key, p.body.body) in es
  {
    var n := |es| - 1;
    if p in Pushed(es[..n]) {
      AcceptedWasSent(es[..n], p);
    } else {
      InHandWasSent(es[..n], es[n].u);
    }
  }

  // ----- what can happen next -----

  /** What can happen after a history. */
  predicate CanHappen(es: seq<Event>, e: Event) {
    match e
    case Open => true
    case Recv(u, _, _) => u < Count(es, Open) && HelperOf(es, u).Receiving?
    case RecvNothing(u) => u < Count(es, Open) && HelperOf(es, u).Receiving?
    case Push(u) => u < Count(es, Open) && HelperOf(es, u).Pushing?
    case Loop(u) => u < Count(es, Open) && HelperOf(es, u).Signalling? && Done(u) !in es
    case Done(u) => u < Count(es, Open)
  }

  ghost function Can(): (seq<Event>, Event) -> bool {
    (es, e) => CanHappen(es, e)
  }

  /** A step is possible exactly when the history allows it. */
  lemma HappensExactly(es: seq<Event>, s: State, e: Event)
    requires Reached(es, s)
    ensures Step(s, e).Some? <==> CanHappen(es, e)
  {
    StateIsHistory(es, s);
    if !e.Open? {
      assert StreamIs(es, s, e.u);
    }
  }

  /** The runs of the streams are exactly the schedules whose events could each happen then. */
  lemma RunsAreHistories(es: seq<Event>)
    ensures Run(Step, Init(), es).Some? <==> Allowed(Can(), es)
  {
    forall fs, s, e | Reached(fs, s) ensures Can()(fs, e) <==> Step(s, e).Some? {
      HappensExactly(fs, s, e);
    }
    RunsAreAllowed(Can(), Step, Init(), es);
  }
}
