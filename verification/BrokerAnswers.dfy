/** When a WaitForAnswer call can still return an answer, seen from the whole broker. */
module BrokerAnswers {
  import opened Runs
  import opened Packets
  import opened Broker
  import opened BrokerHistory
  import opened BrokerProofs
  import opened BrokerProjections
  import opened BrokerTheorems
  import N = NonCreatingRouter

  /** The run leads to a state in which the answer router hands an answer to call `h`. */
  predicate Returns(s: State, fs: seq<Event>, h: nat) {
    Run(Step, s, fs).Some? && Step(Run(Step, s, fs).value, AnswerStep(N.HandOver(h))).Some?
  }

  /** The call has not returned, no answer was handed over for its id, and the router holds one now, or the id
      is still mapped and the router is not wedged. */
  ghost predicate MayReturn(n: N.State<string>, h: nat)
    requires h < |n.refs|
  {
    var id := n.refs[h];
    && h !in n.left && id in n.slots && n.slots[id].sent == []
    && (N.Holds(n.hand, id) || (id in n.live && !N.Wedged(n)))
  }

  // ----- only then -----

  lemma InvKept(s: State, es: seq<Event>, t: State)
    requires Inv(s) && Run(Step, s, es) == Some(t)
    ensures Inv(t)
  {
    var inv := (u: State) => Inv(u);
    forall u: State, e: Event | inv(u) && Step(u, e).Some? ensures inv(Step(u, e).value) {
      InvStep(u, e);
    }
    RunKeeps(Step, inv, s, es);
  }

  lemma HandedStays(n: N.State<string>, ns: seq<N.Event<string>>, m: N.State<string>, id: Key)
    requires id in n.slots && Run(N.Step, n, ns) == Some(m)
    ensures id in m.slots && n.slots[id].sent <= m.slots[id].sent
  {
    var sent := n.slots[id].sent;
    var inv := (u: N.State<string>) => id in u.slots && sent <= u.slots[id].sent;
    RunKeeps(N.Step, inv, n, ns);
  }

  /** No id is ever handed a second answer. */
  lemma HandedOnce(s: State, h: nat)
    requires Inv(s) && Step(s, AnswerStep(N.HandOver(h))).Some?
    ensures N.Step(s.answers, N.HandOver(h)).Some? && h < |s.answers.refs| && s.answers.refs[h] in s.answers.slots
    ensures s.answers.slots[s.answers.refs[h]].sent == []
  {
    var t := Step(s, AnswerStep(N.HandOver(h))).value;
    InvStep(s, AnswerStep(N.HandOver(h)));
    HandedAddsOne(s.answers, h);
    AtMostOne(t, s.answers.refs[h]);
  }

  lemma HandedAddsOne(n: N.State<string>, h: nat)
    requires N.Step(n, N.HandOver(h)).Some?
    ensures var m, id := N.Step(n, N.HandOver(h)).value, n.refs[h];
            id in n.slots && id in m.slots && |m.slots[id].sent| == |n.slots[id].sent| + 1
  {
  }

  lemma AtMostOne(s: State, id: Key)
    requires Inv(s) && id in s.answers.slots
    ensures |s.answers.slots[id].sent| <= 1
  {
    N.DeliversPrefix(s.answers, id);
    StreamPrefix(s.answers.consumed, s.sentAnswers, id);
    DistinctKeysStream(s.sentAnswers, id);
  }

  lemma OnlyThen(s: State, fs: seq<Event>, t: State, h: nat)
    requires N.Inv(s.answers) && h < |s.answers.refs| && Run(Step, s, fs) == Some(t)
    requires N.Step(t.answers, N.HandOver(h)).Some? && t.answers.refs[h] in t.answers.slots
    requires t.answers.slots[t.answers.refs[h]].sent == []
    ensures MayReturn(s.answers, h)
  {
    var ns := AnswersRun(s, fs, t);
    ServedMeans(s.answers, ns, t.answers, h);
  }

  lemma AnswersInv(s: State)
    requires Inv(s)
    ensures N.Inv(s.answers)
  {
  }

  lemma AtReturn(s: State, fs: seq<Event>, h: nat) returns (t: State)
    requires Inv(s) && Returns(s, fs, h)
    ensures Run(Step, s, fs) == Some(t) && h < |t.answers.refs|
    ensures N.Step(t.answers, N.HandOver(h)).Some? && t.answers.refs[h] in t.answers.slots
    ensures t.answers.slots[t.answers.refs[h]].sent == []
  {
    t := Run(Step, s, fs).value;
    InvKept(s, fs, t);
    HandedOnce(t, h);
  }

  /** Whatever the agents do, nothing else can make it return. */
  lemma OnlyThenReturns(es: seq<Event>, s: State, fs: seq<Event>, h: nat)
    requires Reached(es, s) && h < |s.answers.refs| && Returns(s, fs, h)
    ensures MayReturn(s.answers, h)
  {
    InvRun(es, s);
    var t := AtReturn(s, fs, h);
    AnswersInv(s);
    OnlyThen(s, fs, t, h);
  }

  lemma ServedMeans(n: N.State<string>, ns: seq<N.Event<string>>, m: N.State<string>, h: nat)
    requires N.Inv(n) && h < |n.refs| && Run(N.Step, n, ns) == Some(m) && N.Step(m, N.HandOver(h)).Some?
    requires m.refs[h] in m.slots && m.slots[m.refs[h]].sent == []
    ensures MayReturn(n, h)
  {
    assert N.Serves(n, h, ns);
    N.HandlerCanReceive(n, h, "");
    RefsStay(n, ns, m, h);
    HandedStays(n, ns, m, n.refs[h]);
  }

  lemma RefsStay(n: N.State<string>, ns: seq<N.Event<string>>, m: N.State<string>, h: nat)
    requires h < |n.refs| && Run(N.Step, n, ns) == Some(m)
    ensures h < |m.refs| && m.refs[h] == n.refs[h]
  {
    var id := n.refs[h];
    var inv := (u: N.State<string>) => h < |u.refs| && u.refs[h] == id;
    RunKeeps(N.Step, inv, n, ns);
  }

  // ----- and then it can -----

  /** Call `h` waits for `id`, which is mapped and was handed nothing, and the router is not stuck. */
  ghost predicate Ready(n: N.State<string>, h: nat, id: Key) {
    N.Inv(n) && N.WaitsAtEntry(n, h) && n.refs[h] == id && n.slots[id].sent == [] && !N.Wedged(n)
  }

  /** What the router and waiting calls do around the answer table alone. */
  predicate Alone(ns: seq<N.Event<string>>) {
    forall i | 0 <= i < |ns| :: AnswerStepAlone(ns[i])
  }

  /** The router is back at its select, or holds the answer for `id`; it has received nothing in between. */
  ghost predicate GotOn(n: N.State<string>, ns: seq<N.Event<string>>, m: N.State<string>, h: nat, id: Key) {
    && Run(N.Step, n, ns) == Some(m) && Alone(ns) && Ready(m, h, id) && m.consumed == n.consumed
    && (m.hand.Idle? || N.Holds(m.hand, id))
  }

  lemma GetsOn(n: N.State<string>, h: nat, id: Key) returns (ns: seq<N.Event<string>>, m: N.State<string>)
    requires Ready(n, h, id)
    ensures GotOn(n, ns, m, h, id)
  {
    match n.hand {
      case Idle => ns, m := [], n;
      case Holding(_) => ns, m := FromHolding(n, h, id);
      case Received(_) =>
        var t := ResolvedReady(n, h, id);
        var rest;
        if t.hand.Idle? {
          rest, m := [], t;
        } else {
          rest, m := FromHolding(t, h, id);
        }
        ns := AndThen(n, N.Resolve, t, rest, m, h, id);
    }
  }

  lemma AndThen(n: N.State<string>, e: N.Event<string>, t: N.State<string>, rest: seq<N.Event<string>>,
                m: N.State<string>, h: nat, id: Key)
    returns (ns: seq<N.Event<string>>)
    requires N.Step(n, e) == Some(t) && AnswerStepAlone(e) && t.consumed == n.consumed && GotOn(t, rest, m, h, id)
    ensures GotOn(n, ns, m, h, id)
  {
    ns := [e] + rest;
    assert ns[1..] == rest;
  }

  lemma ResolvedReady(n: N.State<string>, h: nat, id: Key) returns (t: N.State<string>)
    requires Ready(n, h, id) && n.hand.Received?
    ensures N.Step(n, N.Resolve) == Some(t) && Ready(t, h, id) && t.consumed == n.consumed && !t.hand.Received?
  {
    t := N.Step(n, N.Resolve).value;
    N.InvStep(n, N.Resolve);
    if t.hand.Holding? {
      assert t.hand.p.key in t.live;
    }
  }

  lemma FromHolding(n: N.State<string>, h: nat, id: Key) returns (ns: seq<N.Event<string>>, m: N.State<string>)
    requires Ready(n, h, id) && n.hand.Holding?
    ensures GotOn(n, ns, m, h, id)
  {
    var k := n.hand.p.key;
    assert N.KeyInOrder(n, k);
    if k == id {
      ns, m := [], n;
    } else if r :| N.Waits(n, r, k) {
      ns, m := HandsToOther(n, h, id, r);
    } else {
      var t := LooksUp(n, h, id, k);
      var rest;
      rest, m := HandsToOther(t, h, id, |n.refs|);
      ns := AndThen(n, N.Acquire(k), t, rest, m, h, id);
    }
  }

  lemma LooksUp(n: N.State<string>, h: nat, id: Key, k: Key) returns (t: N.State<string>)
    requires Ready(n, h, id) && n.hand.Holding? && n.hand.p.key == k && k in n.live
    ensures N.Step(n, N.Acquire(k)) == Some(t) && Ready(t, h, id) && t.consumed == n.consumed && t.hand == n.hand
    ensures N.Waits(t, |n.refs|, k)
  {
    t := N.Step(n, N.Acquire(k)).value;
    N.InvStep(n, N.Acquire(k));
  }

  lemma HandsToOther(n: N.State<string>, h: nat, id: Key, r: nat) returns (ns: seq<N.Event<string>>, m: N.State<string>)
    requires Ready(n, h, id) && n.hand.Holding? && n.hand.p.key != id && N.Waits(n, r, n.hand.p.key)
    ensures GotOn(n, ns, m, h, id)
  {
    assert N.KeyInOrder(n, n.hand.p.key);
    ns := [N.HandOver(r)];
    m := N.Step(n, N.HandOver(r)).value;
    N.InvStep(n, N.HandOver(r));
    RunOne(N.Step, n, N.HandOver(r));
  }

  // ----- the same in the broker -----

  lemma {:induction false} LiftAnswers(s: State, ns: seq<N.Event<string>>, m: N.State<string>) returns (es: seq<Event>)
    requires Run(N.Step, s.answers, ns) == Some(m) && Alone(ns)
    ensures Run(Step, s, es) == Some(s.(answers := m))
    decreases |ns|
  {
    if |ns| == 0 {
      es := [];
    } else {
      var u := Step(s, AnswerStep(ns[0])).value;
      var rest := LiftAnswers(u, ns[1..], m);
      es := [AnswerStep(ns[0])] + rest;
      assert es[1..] == rest;
    }
  }

  /** The router gets back to its select, or holds the answer for `id`. */
  lemma BackToSelect(s: State, h: nat, id: Key) returns (es: seq<Event>, m: N.State<string>)
    requires Inv(s) && Ready(s.answers, h, id)
    ensures var u := s.(answers := m);
            Run(Step, s, es) == Some(u) && Inv(u) && Ready(m, h, id) && m.consumed == s.answers.consumed
    ensures m.hand.Idle? || N.Holds(m.hand, id)
  {
    var ns;
    ns, m := GetsOn(s.answers, h, id);
    es := LiftAnswers(s, ns, m);
    InvKept(s, es, s.(answers := m));
  }

  lemma HeldReturns(s: State, h: nat, id: Key)
    requires Ready(s.answers, h, id) && N.Holds(s.answers.hand, id)
    ensures Returns(s, [], h)
  {
  }

  lemma ThenReturns(s: State, es: seq<Event>, t: State, h: nat, fs: seq<Event>)
    requires Run(Step, s, es) == Some(t) && Returns(t, fs, h)
    ensures Returns(s, es + fs, h)
  {
    RunConcat(Step, s, es, t, fs);
  }

  /** An answer for `id` has been put on answerCh. */
  ghost predicate AnswerSent(s: State, id: Key) {
    exists i :: 0 <= i < |s.sentAnswers| && s.sentAnswers[i].key == id
  }

  /** While nothing was handed over for a mapped id and the router is at its select, its answer is still queued. */
  lemma StillQueued(s: State, h: nat, id: Key)
    requires Inv(s) && Ready(s.answers, h, id) && s.answers.hand.Idle? && AnswerSent(s, id)
    ensures |s.answers.consumed| < |s.sentAnswers|
  {
    var n := s.answers;
    assert N.KeyInOrder(n, id);
    assert Stream(n.consumed, id) == [];
    var i :| 0 <= i < |s.sentAnswers| && s.sentAnswers[i].key == id;
    StreamMembers(n.consumed, id, s.sentAnswers[i].body);
    assert Packet(id, s.sentAnswers[i].body) == s.sentAnswers[i];
  }

  lemma ReceivesNext(s: State, h: nat, id: Key) returns (t: State)
    requires Inv(s) && Ready(s.answers, h, id) && s.answers.hand.Idle? && |s.answers.consumed| < |s.sentAnswers|
    ensures Step(s, AnswerReceive) == Some(t) && Inv(t) && Ready(t.answers, h, id)
    ensures t.sentAnswers == s.sentAnswers && t.agents == s.agents
    ensures |t.answers.consumed| == |s.answers.consumed| + 1
  {
    t := ReceiveStep(s);
    InvStep(s, AnswerReceive);
    ReceiveReady(s.answers, s.sentAnswers[|s.answers.consumed|], h, id);
  }

  lemma ReceiveStep(s: State) returns (t: State)
    requires s.answers.hand.Idle? && |s.answers.consumed| < |s.sentAnswers|
    ensures Step(s, AnswerReceive) == Some(t)
    ensures t == s.(answers := N.Step(s.answers, N.Receive(s.sentAnswers[|s.answers.consumed|])).value)
  {
    t := Step(s, AnswerReceive).value;
  }

  lemma ReceiveReady(n: N.State<string>, p: Packet<string>, h: nat, id: Key)
    requires Ready(n, h, id) && n.hand.Idle?
    ensures N.Step(n, N.Receive(p)).Some? && Ready(N.Step(n, N.Receive(p)).value, h, id)
    ensures |N.Step(n, N.Receive(p)).value.consumed| == |n.consumed| + 1
  {
    N.InvStep(n, N.Receive(p));
  }

  /** The queue is drained until the answer comes up. */
  lemma {:induction false} Drained(s: State, h: nat, id: Key) returns (fs: seq<Event>)
    requires Inv(s) && Ready(s.answers, h, id) && AnswerSent(s, id)
    ensures Returns(s, fs, h)
    decreases |s.sentAnswers| - |s.answers.consumed|
  {
    var es, m := BackToSelect(s, h, id);
    var u := s.(answers := m);
    if N.Holds(m.hand, id) {
      HeldReturns(u, h, id);
      fs := [];
    } else {
      StillQueued(u, h, id);
      var t := ReceivesNext(u, h, id);
      fs := Drained(t, h, id);
      RunOne(Step, u, AnswerReceive);
      ThenReturns(u, [AnswerReceive], t, h, fs);
      fs := [AnswerReceive] + fs;
    }
    ThenReturns(s, es, u, h, fs);
    fs := es + fs;
  }

  /** Agent `r` was handed the offer of `id`. */
  ghost predicate AgentHas(s: State, r: nat, id: Key) {
    r < |s.agents| && HasOffer(s.agents[r]) && s.agents[r].o.answererID == id
  }

  lemma SendStep(s: State, r: nat, id: Key) returns (t: State)
    requires AgentHas(s, r, id) && s.agents[r].Returned? && |s.sentAnswers| < |s.answers.consumed| + QUEUE
    ensures Step(s, SendAnswer(r, "")) == Some(t) && t.answers == s.answers && AnswerSent(t, id)
  {
    t := Step(s, SendAnswer(r, "")).value;
    assert t.sentAnswers[|s.sentAnswers|].key == id;
  }

  /** An agent that WaitForOffer has returned to answers, once there is room on answerCh. */
  lemma Answers(s: State, h: nat, id: Key, r: nat) returns (fs: seq<Event>)
    requires Inv(s) && Ready(s.answers, h, id) && AgentHas(s, r, id) && s.agents[r].Returned?
    requires |s.sentAnswers| < |s.answers.consumed| + QUEUE
    ensures Returns(s, fs, h)
  {
    var t := SendStep(s, r, id);
    InvStep(s, SendAnswer(r, ""));
    fs := Drained(t, h, id);
    RunOne(Step, s, SendAnswer(r, ""));
    ThenReturns(s, [SendAnswer(r, "")], t, h, fs);
    fs := [SendAnswer(r, "")] + fs;
  }

  /** The router makes room first. */
  lemma MakesRoom(s: State, h: nat, id: Key, r: nat) returns (fs: seq<Event>)
    requires Inv(s) && Ready(s.answers, h, id) && AgentHas(s, r, id) && s.agents[r].Returned?
    ensures Returns(s, fs, h)
  {
    var es, m := BackToSelect(s, h, id);
    var u := s.(answers := m);
    if N.Holds(m.hand, id) {
      HeldReturns(u, h, id);
      fs := [];
    } else if |u.answers.consumed| == |u.sentAnswers| {
      fs := Answers(u, h, id, r);
    } else {
      var t := ReceivesNext(u, h, id);
      fs := Answers(t, h, id, r);
      RunOne(Step, u, AnswerReceive);
      ThenReturns(u, [AnswerReceive], t, h, fs);
      fs := [AnswerReceive] + fs;
    }
    ThenReturns(s, es, u, h, fs);
    fs := es + fs;
  }

  lemma ReturnStep(s: State, r: nat, id: Key) returns (t: State)
    requires AgentHas(s, r, id) && s.agents[r].Took?
    ensures Step(s, ReturnOffer(r)) == Some(t) && t.answers == s.answers && AgentHas(t, r, id) && t.agents[r].Returned?
  {
    t := Step(s, ReturnOffer(r)).value;
  }

  lemma OfferReturnsFirst(s: State, h: nat, id: Key, r: nat) returns (fs: seq<Event>)
    requires Inv(s) && Ready(s.answers, h, id) && AgentHas(s, r, id) && s.agents[r].Took?
    ensures Returns(s, fs, h)
  {
    var t := ReturnStep(s, r, id);
    InvStep(s, ReturnOffer(r));
    fs := MakesRoom(t, h, id, r);
    RunOne(Step, s, ReturnOffer(r));
    ThenReturns(s, [ReturnOffer(r)], t, h, fs);
    fs := [ReturnOffer(r)] + fs;
  }

  /** What an agent has answered is on answerCh, or was. */
  ghost predicate AnsweredSent(s: State) {
    |s.authors| == |s.sentAnswers| && forall r | 0 <= r < |s.agents| && s.agents[r].Answered? :: r in s.authors
  }

  lemma AnsweredSentStep(s: State, e: Event)
    requires AnsweredSent(s) && Step(s, e).Some?
    ensures AnsweredSent(Step(s, e).value)
  {
  }

  lemma AnsweredSentRun(es: seq<Event>, s: State)
    requires Reached(es, s)
    ensures AnsweredSent(s)
  {
    var inv := (u: State) => AnsweredSent(u);
    forall u: State, e: Event | inv(u) && Step(u, e).Some? ensures inv(Step(u, e).value) {
      AnsweredSentStep(u, e);
    }
    RunKeeps(Step, inv, Init(), es);
  }

  lemma AnsweredIsSent(s: State, r: nat, id: Key)
    requires AnswersKnown(s.agents, s.sentAnswers, s.authors) && AnsweredSent(s)
    requires AgentHas(s, r, id) && s.agents[r].Answered?
    ensures AnswerSent(s, id)
  {
    var i :| 0 <= i < |s.authors| && s.authors[i] == r;
    assert Authored(s.agents, s.sentAnswers[i], r);
  }

  lemma AgentAnswers(s: State, h: nat, id: Key, r: nat) returns (fs: seq<Event>)
    requires Inv(s) && AnsweredSent(s) && Ready(s.answers, h, id) && AgentHas(s, r, id)
    ensures Returns(s, fs, h)
  {
    match s.agents[r] {
      case Took(_, _) => fs := OfferReturnsFirst(s, h, id, r);
      case Returned(_, _) => fs := MakesRoom(s, h, id, r);
      case Answered(_, _, _) =>
        AnsweredIsSent(s, r, id);
        fs := Drained(s, h, id);
    }
  }

  lemma ThenItCan(es: seq<Event>, s: State, h: nat, r: nat) returns (fs: seq<Event>)
    requires Reached(es, s) && h < |s.answers.refs| && AgentHas(s, r, s.answers.refs[h]) && MayReturn(s.answers, h)
    ensures Returns(s, fs, h)
  {
    var id := s.answers.refs[h];
    if N.Holds(s.answers.hand, id) {
      assert Returns(s, [], h);
      fs := [];
    } else {
      InvRun(es, s);
      AnsweredSentRun(es, s);
      fs := AgentAnswers(s, h, id, r);
    }
  }

  /** Once an agent has been handed the offer of an id, a WaitForAnswer call for that id can still return an
      answer, now or ever, if and only if it has not returned, no answer was handed over for the id before, and
      the router holds it now, or the id is still mapped and the router is not wedged. */
  lemma AnswerCanStillArrive(es: seq<Event>, s: State, h: nat, r: nat)
    requires Reached(es, s) && h < |s.answers.refs| && AgentHas(s, r, s.answers.refs[h])
    ensures (exists fs :: Returns(s, fs, h)) <==> MayReturn(s.answers, h)
  {
    if fs :| Returns(s, fs, h) {
      OnlyThenReturns(es, s, fs, h);
    }
    if MayReturn(s.answers, h) {
      var _ := ThenItCan(es, s, h, r);
    }
  }
}
