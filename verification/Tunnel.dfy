/**
  A whole tunnelled connection: the listener's proxy at one end, the agent's at the
  other, and a data channel between them that is reliable and ordered, as
  CreateDataChannel makes it by default: it may stop delivering at any time, but it
  delivers what was sent, in order.
 */
module Tunnel {
  import opened Runs
  import opened Proxy
  import opened ProxyProofs
  import opened ProxyTheorems
  import PH = ProxyHistory

  datatype State = Ends(near: Proxy.State, far: Proxy.State)

  datatype Event =
    | Near(n: Proxy.Event)    // anything at the listener's end but an arrival
    | Far(f: Proxy.Event)     // the same at the agent's end
    | ToFar                   // the next message that the listener's end has sent arrives
    | ToNear

  function Init(): State {
    Ends(Proxy.Init(Listener), Proxy.Init(Agent))
  }

  /** The next message of `from` arrives at `to`. */
  function Delivered(from: Proxy.State, to: Proxy.State): Option<Proxy.State> {
    if |to.writer.arrivals| < |from.reader.sent| then
      Proxy.Step(to, Arrives(from.reader.sent[|to.writer.arrivals|]))
    else None
  }

  function Step(s: State, e: Event): Option<State> {
    match e
    case Near(n) =>
      var t := Proxy.Step(s.near, n);
      if !n.Arrives? && t.Some? then Some(s.(near := t.value)) else None
    case Far(f) =>
      var t := Proxy.Step(s.far, f);
      if !f.Arrives? && t.Some? then Some(s.(far := t.value)) else None
    case ToFar =>
      var t := Delivered(s.near, s.far);
      if t.Some? then Some(s.(far := t.value)) else None
    case ToNear =>
      var t := Delivered(s.far, s.near);
      if t.Some? then Some(s.(near := t.value)) else None
  }

  ghost predicate Inv(s: State) {
    && ProxyProofs.Inv(s.near) && ProxyProofs.Inv(s.far)
    && s.far.writer.arrivals <= s.near.reader.sent
    && s.near.writer.arrivals <= s.far.reader.sent
  }

  /** A step of one end only adds to what it has sent, and only an arrival adds to what has arrived. */
  lemma EndGrows(s: Proxy.State, e: Proxy.Event)
    requires Proxy.Step(s, e).Some?
    ensures s.reader.sent <= Proxy.Step(s, e).value.reader.sent
    ensures !e.Arrives? ==> Proxy.Step(s, e).value.writer.arrivals == s.writer.arrivals
  {
    if IsReader(e) {
      ReaderSends(s, e);
    } else {
      ReaderFrame(s, e);
      if IsWriterEvent(e) {
        WriterArrivals(s, e);
      } else {
        OthersKeepWriter(s, e);
      }
    }
  }

  lemma ReaderSends(s: Proxy.State, e: Proxy.Event)
    requires IsReader(e) && StepReader(s, e).Some?
    ensures s.reader.sent <= StepReader(s, e).value.reader.sent
    ensures StepReader(s, e).value.writer == s.writer
  {
  }

  lemma WriterArrivals(s: Proxy.State, e: Proxy.Event)
    requires IsWriterEvent(e) && StepWriter(s, e).Some?
    ensures StepWriter(s, e).value.writer.arrivals == s.writer.arrivals + if e.Arrives? then [e.data] else []
  {
  }

  lemma DeliveredExtends(from: Proxy.State, to: Proxy.State)
    requires to.writer.arrivals <= from.reader.sent && Delivered(from, to).Some?
    ensures Delivered(from, to).value.writer.arrivals <= from.reader.sent
    ensures to.reader.sent <= Delivered(from, to).value.reader.sent
  {
    var m := from.reader.sent[|to.writer.arrivals|];
    EndGrows(to, Arrives(m));
    WriterArrivals(to, Arrives(m));
  }

  lemma InvStep(s: State, e: Event)
    requires Inv(s) && Step(s, e).Some?
    ensures Inv(Step(s, e).value)
  {
    match e {
      case Near(n) =>
        ProxyProofs.InvStep(s.near, n);
        EndGrows(s.near, n);
      case Far(f) =>
        ProxyProofs.InvStep(s.far, f);
        EndGrows(s.far, f);
      case ToFar =>
        ProxyProofs.InvStep(s.far, Arrives(s.near.reader.sent[|s.far.writer.arrivals|]));
        DeliveredExtends(s.near, s.far);
      case ToNear =>
        ProxyProofs.InvStep(s.near, Arrives(s.far.reader.sent[|s.near.writer.arrivals|]));
        DeliveredExtends(s.far, s.near);
    }
  }

  lemma Starts(s: State)
    requires ProxyProofs.Inv(s.near) && ProxyProofs.Inv(s.far)
    requires |s.near.writer.arrivals| == 0 && |s.far.writer.arrivals| == 0
    ensures Inv(s)
  {
  }

  lemma FreshEnd(side: Side) returns (s: Proxy.State)
    ensures s == Proxy.Init(side) && ProxyProofs.Inv(s) && |s.writer.arrivals| == 0
  {
    s := Proxy.Init(side);
    ProxyProofs.InvInit(side);
  }

  lemma InvRunFrom(s: State, es: seq<Event>, t: State)
    requires Inv(s) && Run(Step, s, es) == Some(t)
    ensures Inv(t)
  {
    var inv := (u: State) => Inv(u);
    forall u: State, e: Event | inv(u) && Step(u, e).Some? ensures inv(Step(u, e).value) {
      InvStep(u, e);
    }
    RunKeeps(Step, inv, s, es);
  }

  lemma InvRun(es: seq<Event>, s: State)
    requires Run(Step, Init(), es) == Some(s)
    ensures Inv(s)
  {
    var near := FreshEnd(Listener);
    var far := FreshEnd(Agent);
    Starts(Ends(near, far));
    InvRunFrom(Ends(near, far), es, s);
  }

  /** No data channel send was refused at this end. */
  predicate AllAccepted(r: Reader) {
    forall i | 0 <= i < |r.outcomes| :: r.outcomes[i]
  }

  /** Nothing is under way from `from` to `to`: the last chunk read was sent, it has arrived, and it has been
      written. */
  predicate Settled(from: Proxy.State, to: Proxy.State) {
    && |from.reader.got| == |from.reader.outcomes|
    && |to.writer.arrivals| == |from.reader.sent|
    && |to.writer.buffer| == 0 && to.writer.pc.AtSelect?
  }

  /** One direction: while no write at `to` failed or timed out, its socket has a prefix of the bytes whose
      sends were accepted at `from`; while none was refused either, a prefix of the bytes read there; and
      when nothing is under way, exactly those. */
  ghost predicate Relays(from: Proxy.State, to: Proxy.State) {
    Clean(to.writer) ==>
      && to.writer.socket <= Flat(from.reader.sent)
      && (AllAccepted(from.reader) ==> to.writer.socket <= Flat(from.reader.got))
      && (AllAccepted(from.reader) && Settled(from, to) ==> to.writer.socket == Flat(from.reader.got))
  }

  lemma EndsRelay(from: Proxy.State, to: Proxy.State)
    requires ProxyProofs.Inv(from) && ProxyProofs.Inv(to) && to.writer.arrivals <= from.reader.sent
    ensures Relays(from, to)
  {
    if Clean(to.writer) {
      SocketWithinSent(from.reader.sent, to.writer);
      if AllAccepted(from.reader) {
        AllSent(from.reader);
        if Settled(from, to) {
          assert to.writer.arrivals == from.reader.sent == from.reader.got;
          SocketIsAll(to.writer);
        }
      }
    }
  }

  lemma SocketWithinSent(sent: seq<Bytes>, w: Writer)
    requires TakesInOrder(w) && RelaysDown(w) && Clean(w) && w.arrivals <= sent
    ensures w.socket <= Flat(sent)
  {
    SocketIsPrefix(w);
    FlatPrefix(w.arrivals, sent);
  }

  lemma SocketIsAll(w: Writer)
    requires TakesInOrder(w) && RelaysDown(w) && Clean(w) && |w.buffer| == 0 && w.pc.AtSelect?
    ensures w.socket == Flat(w.arrivals)
  {
    SocketIsPrefix(w);
    assert DataOf(w.ops) == w.arrivals;
  }

  /** In both directions, on every interleaving of both ends and the data channel. */
  lemma EndsRelayBothWays(es: seq<Event>, s: State)
    requires Run(Step, Init(), es) == Some(s)
    ensures Relays(s.near, s.far) && Relays(s.far, s.near)
  {
    InvRun(es, s);
    EndsRelay(s.near, s.far);
    EndsRelay(s.far, s.near);
  }

  // ----- the same of what was read, sent and written at the two sockets -----

  /** The next message for an end: of those accepted at the other, the first that has not arrived. */
  function Next(from: seq<Proxy.Event>, to: seq<Proxy.Event>): seq<Proxy.Event> {
    var k := |PH.Arrived(to)|;
    if k < |PH.Accepted(from)| then [Arrives(PH.Accepted(from)[k])] else []
  }

  /** What a run of the tunnel is for the listener's end, */
  function NearTrace(es: seq<Event>): seq<Proxy.Event> {
    if |es| == 0 then []
    else
      var n := |es| - 1;
      NearTrace(es[..n]) +
      match es[n]
      case Near(e) => [e]
      case ToNear => Next(FarTrace(es[..n]), NearTrace(es[..n]))
      case _ => []
  }

  /** and for the agent's. */
  function FarTrace(es: seq<Event>): seq<Proxy.Event> {
    if |es| == 0 then []
    else
      var n := |es| - 1;
      FarTrace(es[..n]) +
      match es[n]
      case Far(e) => [e]
      case ToFar => Next(NearTrace(es[..n]), FarTrace(es[..n]))
      case _ => []
  }

  ghost predicate EndsAre(es: seq<Event>, s: State) {
    Reached(Listener, NearTrace(es), s.near) && Reached(Agent, FarTrace(es), s.far)
  }

  lemma DeliveryAdds(fromSide: Side, fromTrace: seq<Proxy.Event>, from: Proxy.State,
                     toSide: Side, toTrace: seq<Proxy.Event>, to: Proxy.State)
    requires Reached(fromSide, fromTrace, from) && Reached(toSide, toTrace, to) && Delivered(from, to).Some?
    ensures Reached(toSide, toTrace + Next(fromTrace, toTrace), Delivered(from, to).value)
  {
    PH.ChunksAreSent(fromSide, fromTrace, from);
    PH.MessagesAreWritten(toSide, toTrace, to);
    RunThen(Proxy.Step, Proxy.Init(toSide), toTrace, to, Arrives(from.reader.sent[|to.writer.arrivals|]));
  }

  lemma EndsStep(es: seq<Event>, t: State, s: State)
    requires |es| > 0 && EndsAre(es[..|es| - 1], t) && Step(t, es[|es| - 1]) == Some(s)
    ensures EndsAre(es, s)
  {
    var fs := es[..|es| - 1];
    match es[|es| - 1] {
      case Near(e) =>
        RunThen(Proxy.Step, Proxy.Init(Listener), NearTrace(fs), t.near, e);
        assert FarTrace(es) == FarTrace(fs);
      case Far(e) =>
        RunThen(Proxy.Step, Proxy.Init(Agent), FarTrace(fs), t.far, e);
        assert NearTrace(es) == NearTrace(fs);
      case ToFar =>
        DeliveryAdds(Listener, NearTrace(fs), t.near, Agent, FarTrace(fs), t.far);
        assert NearTrace(es) == NearTrace(fs);
      case ToNear =>
        DeliveryAdds(Agent, FarTrace(fs), t.far, Listener, NearTrace(fs), t.near);
        assert FarTrace(es) == FarTrace(fs);
    }
  }

  /** A run of the tunnel is a run of each end, to which the data channel brings, in order, what the other end's sends
      were accepted for. */
  lemma {:induction false} TunnelIsTwoProxies(es: seq<Event>, s: State)
    requires Run(Step, Init(), es) == Some(s)
    ensures EndsAre(es, s)
  {
    if |es| > 0 {
      var t := RunLast(Step, Init(), es, s);
      TunnelIsTwoProxies(es[..|es| - 1], t);
      EndsStep(es, t, s);
    }
  }

  /** What can happen in the tunnel after a history. */
  predicate CanHappen(es: seq<Event>, e: Event) {
    match e
    case Near(n) => !n.Arrives? && PH.CanHappen(Listener, NearTrace(es), n)
    case Far(f) => !f.Arrives? && PH.CanHappen(Agent, FarTrace(es), f)
    case ToFar =>
      var next := Next(NearTrace(es), FarTrace(es));
      |next| == 1 && PH.CanHappen(Agent, FarTrace(es), next[0])
    case ToNear =>
      var next := Next(FarTrace(es), NearTrace(es));
      |next| == 1 && PH.CanHappen(Listener, NearTrace(es), next[0])
  }

  lemma DeliveryCan(fromSide: Side, fromTrace: seq<Proxy.Event>, from: Proxy.State,
                    toSide: Side, toTrace: seq<Proxy.Event>, to: Proxy.State)
    requires Reached(fromSide, fromTrace, from) && Reached(toSide, toTrace, to)
    ensures var next := Next(fromTrace, toTrace);
            Delivered(from, to).Some? <==> |next| == 1 && PH.CanHappen(toSide, toTrace, next[0])
  {
    PH.ChunksAreSent(fromSide, fromTrace, from);
    PH.MessagesAreWritten(toSide, toTrace, to);
    if |to.writer.arrivals| < |from.reader.sent| {
      PH.HappensExactly(toSide, toTrace, to, Arrives(from.reader.sent[|to.writer.arrivals|]));
    }
  }

  /** A step of the tunnel is possible exactly when the history allows it. */
  lemma HappensExactly(es: seq<Event>, s: State, e: Event)
    requires Run(Step, Init(), es) == Some(s)
    ensures Step(s, e).Some? <==> CanHappen(es, e)
  {
    TunnelIsTwoProxies(es, s);
    match e {
      case Near(n) => PH.HappensExactly(Listener, NearTrace(es), s.near, n);
      case Far(f) => PH.HappensExactly(Agent, FarTrace(es), s.far, f);
      case ToFar => DeliveryCan(Listener, NearTrace(es), s.near, Agent, FarTrace(es), s.far);
      case ToNear => DeliveryCan(Agent, FarTrace(es), s.far, Listener, NearTrace(es), s.near);
    }
  }

  predicate NoneRefused(es: seq<Proxy.Event>) {
    forall i | 0 <= i < |PH.SendResults(es)| :: PH.SendResults(es)[i].None?
  }

  /** One direction, by what happened at the two sockets: what conn.Read returned at one end, what dataChannel.Send
      returned there, and what conn.Write was given and returned at the other. */
  ghost predicate Transparent(from: seq<Proxy.Event>, toSide: Side, to: seq<Proxy.Event>) {
    && PH.Arrived(to) <= PH.Accepted(from)
    && (PH.WriteErrors(to) == [] ==>
          && PH.Written(to) <= Flat(PH.Accepted(from))
          && (NoneRefused(from) ==> PH.Written(to) <= Flat(PH.Chunks(from)))
          && (NoneRefused(from) && NothingUnderWay(from, toSide, to) ==> PH.Written(to) == Flat(PH.Chunks(from))))
  }

  /** The last chunk read was sent, it has arrived, and the other end's loop has written it and waits for the next. */
  predicate NothingUnderWay(from: seq<Proxy.Event>, toSide: Side, to: seq<Proxy.Event>) {
    && |PH.Chunks(from)| == |PH.SendResults(from)|
    && |PH.Accepted(from)| == |PH.Arrived(to)| == Count(to, WriterTakes)
    && PH.WriterAt(toSide, to).AtSelect?
  }

  lemma RelaysByEvents(fromSide: Side, fromTrace: seq<Proxy.Event>, from: Proxy.State,
                       toSide: Side, toTrace: seq<Proxy.Event>, to: Proxy.State)
    requires Reached(fromSide, fromTrace, from) && Reached(toSide, toTrace, to)
    requires Relays(from, to) && to.writer.arrivals <= from.reader.sent
    ensures Transparent(fromTrace, toSide, toTrace)
  {
    PH.LoopsAreHistory(fromSide, fromTrace, from);
    PH.LoopsAreHistory(toSide, toTrace, to);
  }

  /** The tunnel is transparent: in both directions, on every interleaving of both ends and the data channel. */
  lemma TunnelIsTransparent(es: seq<Event>, s: State)
    requires Run(Step, Init(), es) == Some(s)
    ensures Transparent(NearTrace(es), Agent, FarTrace(es)) && Transparent(FarTrace(es), Listener, NearTrace(es))
  {
    InvRun(es, s);
    EndsRelayBothWays(es, s);
    TunnelIsTwoProxies(es, s);
    RelaysByEvents(Listener, NearTrace(es), s.near, Agent, FarTrace(es), s.far);
    RelaysByEvents(Agent, FarTrace(es), s.far, Listener, NearTrace(es), s.near);
  }
}
