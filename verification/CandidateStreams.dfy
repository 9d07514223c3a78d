/**
  The SendIceCandidate handlers. A handler loops over a select whose operand
  starts a helper goroutine on every entry: the helper receives one message from
  the stream, pushes it onto the channel shared by all streams, and signals. The
  handler re-enters the select only after the signal, or leaves when the context
  is done, possibly with a helper still at work.
 */
module CandidateStreams {
  import opened Runs
  import opened Packets

  /** A candidate; `stream` names the stream it came from and exists only in this model. */
  datatype Candidate = Candidate(stream: nat, body: string)

  datatype Helper =
    | Receiving
    | Pushing(p: Packet<Candidate>)
    | Signalling

  datatype Upload = Upload(received: seq<Packet<Candidate>>, helper: Helper, open: bool)

  datatype State = State(uploads: seq<Upload>, accepted: seq<Packet<Candidate>>)

  datatype Event =
    | Open
    | Recv(u: nat, key: Key, body: string)
    | RecvNothing(u: nat)     // a nil message: end of stream or an error
    | Push(u: nat)            // the shared channel has room
    | Loop(u: nat)            // signal received, next select
    | Done(u: nat)            // ctx.Done()

  function Init(): State {
    State([], [])
  }

  function Step(s: State, e: Event): Option<State> {
    match e
    case Open => Some(s.(uploads := s.uploads + [Upload([], Receiving, true)]))
    case Recv(u, key, body) =>
      if u < |s.uploads| && s.uploads[u].helper.Receiving? then
        var p := Packet(key, Candidate(u, body));
        Some(s.(uploads :=
          s.uploads[u := s.uploads[u].(received := s.uploads[u].received + [p], helper := Pushing(p))]))
      else None
    case RecvNothing(u) =>
      if u < |s.uploads| && s.uploads[u].helper.Receiving? then
        Some(s.(uploads := s.uploads[u := s.uploads[u].(helper := Signalling)]))
      else None
    case Push(u) =>
      if u < |s.uploads| && s.uploads[u].helper.Pushing? then
        Some(State(s.uploads[u := s.uploads[u].(helper := Signalling)], s.accepted + [s.uploads[u].helper.p]))
      else None
    case Loop(u) =>
      if u < |s.uploads| && s.uploads[u].helper.Signalling? && s.uploads[u].open then
        Some(s.(uploads := s.uploads[u := s.uploads[u].(helper := Receiving)]))
      else None
    case Done(u) =>
      if u < |s.uploads| then Some(s.(uploads := s.uploads[u := s.uploads[u].(open := false)])) else None
  }

  /** The packets of one stream, in order. */
  function FromUpload(ps: seq<Packet<Candidate>>, u: nat): seq<Packet<Candidate>> {
    if |ps| == 0 then []
    else FromUpload(ps[..|ps| - 1], u) + (if ps[|ps| - 1].body.stream == u then [ps[|ps| - 1]] else [])
  }

  /** The candidates of one stream, in order. */
  function OfStream(cs: seq<Candidate>, u: nat): seq<Candidate> {
    if |cs| == 0 then []
    else OfStream(cs[..|cs| - 1], u) + (if cs[|cs| - 1].stream == u then [cs[|cs| - 1]] else [])
  }

  function InFlight(up: Upload): seq<Packet<Candidate>> {
    if up.helper.Pushing? then [up.helper.p] else []
  }

  ghost predicate Inv(s: State) {
    && (forall u | 0 <= u < |s.uploads| ::
          && s.uploads[u].received == FromUpload(s.accepted, u) + InFlight(s.uploads[u])
          && (s.uploads[u].helper.Pushing? ==> s.uploads[u].helper.p.body.stream == u))
    && (forall i | 0 <= i < |s.accepted| :: s.accepted[i].body.stream < |s.uploads|)
  }

  lemma FromUploadAppend(ps: seq<Packet<Candidate>>, p: Packet<Candidate>, u: nat)
    ensures FromUpload(ps + [p], u) == FromUpload(ps, u) + (if p.body.stream == u then [p] else [])
  {
    assert (ps + [p])[..|ps|] == ps;
  }

  lemma {:induction false} NoneFromLater(ps: seq<Packet<Candidate>>, u: nat)
    requires forall i | 0 <= i < |ps| :: ps[i].body.stream < u
    ensures FromUpload(ps, u) == []
  {
    if |ps| > 0 {
      NoneFromLater(ps[..|ps| - 1], u);
    }
  }

  lemma InvStep(s: State, e: Event)
    requires Inv(s) && Step(s, e).Some?
    ensures Inv(Step(s, e).value)
  {
    if e.Push? {
      forall u ensures FromUpload(s.accepted + [s.uploads[e.u].helper.p], u) ==
                       FromUpload(s.accepted, u) + (if u == e.u then [s.uploads[e.u].helper.p] else [])
      {
        FromUploadAppend(s.accepted, s.uploads[e.u].helper.p, u);
      }
    } else if e.Open? {
      NoneFromLater(s.accepted, |s.uploads|);
    }
  }

  // ----- when a stream still takes messages -----

  /** The run leads to a state in which stream `u` takes a message. */
  predicate Takes(s: State, u: nat, fs: seq<Event>, answererId: Key, body: string) {
    Run(Step, s, fs).Some? && Step(Run(Step, s, fs).value, Recv(u, answererId, body)).Some?
  }

  /** A stream takes another message, now or ever, if and only if its helper is receiving or its context lasts. */
  lemma StreamCanReceive(s: State, u: nat, answererId: Key, body: string)
    requires u < |s.uploads|
    ensures (exists fs :: Takes(s, u, fs, answererId, body)) <==> s.uploads[u].helper.Receiving? || s.uploads[u].open
  {
    if s.uploads[u].helper.Receiving? {
      assert Takes(s, u, [], answererId, body);
    } else if s.uploads[u].open {
      if s.uploads[u].helper.Pushing? {
        var t := Step(s, Push(u)).value;
        LoopsAround(t, u, answererId, body);
        assert [Push(u), Loop(u)][1..] == [Loop(u)];
        assert Takes(s, u, [Push(u), Loop(u)], answererId, body);
      } else {
        LoopsAround(s, u, answererId, body);
      }
    } else {
      forall fs | Takes(s, u, fs, answererId, body) ensures false {
        AfterDone(s, fs, Run(Step, s, fs).value, u);
      }
    }
  }

  lemma LoopsAround(s: State, u: nat, answererId: Key, body: string)
    requires u < |s.uploads| && s.uploads[u].helper.Signalling? && s.uploads[u].open
    ensures Takes(s, u, [Loop(u)], answererId, body)
  {
    var t := Step(s, Loop(u)).value;
    assert Run(Step, t, [Loop(u)][1..]) == Some(t);
  }

  /** Once its context is done, a stream receives at most the one message its helper was waiting for. */
  lemma AfterDone(s: State, fs: seq<Event>, t: State, u: nat)
    requires u < |s.uploads| && !s.uploads[u].open && Run(Step, s, fs) == Some(t)
    ensures u < |t.uploads| && !t.uploads[u].open
    ensures |t.uploads[u].received| + Waits(t.uploads[u]) <= |s.uploads[u].received| + Waits(s.uploads[u])
    ensures s.uploads[u].received <= t.uploads[u].received
  {
    var up := s.uploads[u];
    var inv := (v: State) => u < |v.uploads| && WindsDown(up, v.uploads[u]);
    forall v: State, e: Event | inv(v) && Step(v, e).Some? ensures inv(Step(v, e).value) {
      WindsDownStep(up, v, e, u);
    }
    RunKeeps(Step, inv, s, fs);
  }

  ghost predicate WindsDown(up: Upload, now: Upload) {
    && !now.open && up.received <= now.received
    && |now.received| + Waits(now) <= |up.received| + Waits(up)
  }

  lemma WindsDownStep(up: Upload, v: State, e: Event, u: nat)
    requires u < |v.uploads| && WindsDown(up, v.uploads[u]) && Step(v, e).Some?
    ensures u < |Step(v, e).value.uploads| && WindsDown(up, Step(v, e).value.uploads[u])
  {
  }

  function Waits(up: Upload): nat {
    if up.helper.Receiving? then 1 else 0
  }

  /** The two ways of selecting commute: by stream and by key. */
  lemma {:induction false} SelectionsCommute(ps: seq<Packet<Candidate>>, u: nat, k: Key)
    ensures OfStream(Stream(ps, k), u) == Stream(FromUpload(ps, u), k)
  {
    if |ps| > 0 {
      var n := |ps| - 1;
      var p := ps[n];
      SelectionsCommute(ps[..n], u, k);
      var cs := Stream(ps[..n], k);
      if p.key == k {
        assert (cs + [p.body])[..|cs|] == cs;
        assert Stream(ps, k) == cs + [p.body];
      } else {
        assert Stream(ps, k) == cs;
      }
      StreamAppend(FromUpload(ps[..n], u), p, k);
      if p.body.stream != u {
        assert FromUpload(ps, u) == FromUpload(ps[..n], u);
      }
      assert OfStream(Stream(ps, k), u) ==
             OfStream(cs, u) + (if p.key == k && p.body.stream == u then [p.body] else []);
    }
  }

  lemma {:induction false} OfStreamConcat(cs: seq<Candidate>, ds: seq<Candidate>, u: nat)
    ensures OfStream(cs + ds, u) == OfStream(cs, u) + OfStream(ds, u)
  {
    if |ds| == 0 {
      assert cs + ds == cs;
    } else {
      var n := |ds| - 1;
      assert (cs + ds)[..|cs| + n] == cs + ds[..n];
      OfStreamConcat(cs, ds[..n], u);
    }
  }

  /** The shared channel keeps each stream's order: what it accepted from a stream for a key is a prefix
      of what that stream received for the key, short of at most the message in its helper's hands. */
  lemma AcceptedKeepsStreamOrder(s: State, u: nat, k: Key)
    requires Inv(s) && u < |s.uploads|
    ensures OfStream(Stream(s.accepted, k), u) + Stream(InFlight(s.uploads[u]), k) == Stream(s.uploads[u].received, k)
  {
    SelectionsCommute(s.accepted, u, k);
    StreamConcat(FromUpload(s.accepted, u), InFlight(s.uploads[u]), k);
  }
}
