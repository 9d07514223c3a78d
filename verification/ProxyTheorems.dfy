/** What holds after every run of a proxied connection, on either side. */
module ProxyTheorems {
  import opened Runs
  import opened Proxy
  import opened ProxyProofs

  predicate Reached(side: Side, es: seq<Event>, s: State) {
    Run(Step, Init(side), es) == Some(s)
  }

  // ----- teardown -----

  /** Exactly-once teardown, for any race of close callbacks, end-of-life signals and cancellation, even
      when the callback runs before the map insertion: the body of Close runs at most once, no stop
      channel is closed twice or sent on after being closed, no closed proxy is in the map, and when the
      owner is done the proxy is out of the map and has been closed. */
  lemma ExactlyOnceTeardown(side: Side, es: seq<Event>, s: State)
    requires Reached(side, es, s)
    ensures s.down.bodies <= 1 && s.down.writeStops <= 1 && s.down.readStops <= 1 && !s.down.misuse
    ensures s.down.inMap ==> s.down.bodies == 0 && !s.down.connClosed
    ensures s.down.closing.Closing? && s.down.closing.stage.AtLatch? ==> s.down.latch == 0
    ensures s.owner.Resolving? || s.owner.Resolved? ==>
              && !s.down.inMap && s.down.bodies == 1 && s.down.connClosed
              && s.down.writeStops == 1 && s.down.readStops == 1
  {
    InvInit(side);
    InvRun(Init(side), es, s);
  }

  // ----- end of life -----

  /** The end-of-life budget: at most two signals are ever accepted, so each loop fails at most three
      times, and never more than three writes are under way at once. */
  lemma EolBudget(side: Side, es: seq<Event>, s: State)
    requires Reached(side, es, s)
    ensures Accepted(s.eol) <= 2 && s.eol.received <= 1
    ensures s.reader.failures <= 3 && s.writer.failures <= 3
    ensures OutstandingIn(s.writer.ops) <= 3
  {
    InvInit(side);
    InvRun(Init(side), es, s);
  }

  /** No end-of-life is lost: after any attempt, accepted or not, the owner has left its select or can
      leave it now. In particular a loop that exits because its signal was refused leaves no owner waiting. */
  lemma NoLostEol(side: Side, es: seq<Event>, s: State)
    requires Reached(side, es, s)
    requires s.eol.attempts > 0 || s.reader.rejected || s.writer.rejected
    ensures OwnerPastSelect(s.owner) || |s.eol.buffer| > 0
    ensures s.owner.Selecting? ==> Step(s, OwnerReceives).Some?
  {
    InvInit(side);
    InvRun(Init(side), es, s);
  }

  /** What the owner ends with, and startProxy's future resolves to: nil only if the listener's close
      callback signalled it, never a closed pipe, which the loops report as end-of-file, and net.ErrClosed
      only from a write. */
  lemma OwnerErrors(side: Side, es: seq<Event>, s: State)
    requires Reached(side, es, s) && OwnerPastSelect(s.owner)
    ensures s.owner.err == None ==> side.Listener? && s.eol.byCallback > 0
    ensures s.owner.err != Some(ClosedPipe)
    ensures s.owner.err == Some(NetClosed) ==> s.eol.byWriter > 0
  {
    var inv := (u: State) => ErrorsOk(u) && u.side == side;
    forall u: State, e: Event | inv(u) && Step(u, e).Some? ensures inv(Step(u, e).value) {
      ErrorsStep(u, e);
      SideFixed(u, e);
    }
    RunKeeps(Step, inv, Init(side), es);
  }

  lemma SideFixed(s: State, e: Event)
    requires Step(s, e).Some?
    ensures Step(s, e).value.side == s.side
  {
  }

  // ----- the byte relays -----

  /** Positions of the set flags, in order. */
  function Positions(flags: seq<bool>): seq<nat> {
    if |flags| == 0 then []
    else
      var n := |flags| - 1;
      Positions(flags[..n]) + (if flags[n] then [n] else [])
  }

  lemma {:induction false} SelectedBySubsequence(xs: seq<Bytes>, flags: seq<bool>)
    requires |flags| <= |xs|
    ensures |Selected(xs, flags)| == |Positions(flags)|
    ensures forall k | 0 <= k < |Positions(flags)| ::
              && Positions(flags)[k] < |flags| && flags[Positions(flags)[k]]
              && Selected(xs, flags)[k] == xs[Positions(flags)[k]]
    ensures forall j, k | 0 <= j < k < |Positions(flags)| :: Positions(flags)[j] < Positions(flags)[k]
  {
    if |flags| > 0 {
      SelectedBySubsequence(xs, flags[..|flags| - 1]);
    }
  }

  lemma {:induction false} SelectedPrefix(xs: seq<Bytes>, flags: seq<bool>, j: nat)
    requires j <= |flags| <= |xs|
    requires forall i | 0 <= i < j :: flags[i]
    ensures xs[..j] <= Selected(xs, flags)
    ensures j == |flags| ==> Selected(xs, flags) == xs[..j]
  {
    if |flags| > 0 {
      var n := |flags| - 1;
      SelectedPrefix(xs, flags[..n], if j <= n then j else n);
      if j > n {
        assert xs[..j] == xs[..n] + [xs[n]];
      }
    }
  }

  lemma {:induction false} FlatPrefix(xs: seq<Bytes>, ys: seq<Bytes>)
    requires xs <= ys
    ensures Flat(xs) <= Flat(ys)
  {
    if |xs| < |ys| {
      var n := |ys| - 1;
      assert xs <= ys[..n];
      FlatPrefix(xs, ys[..n]);
    } else {
      assert xs == ys;
    }
  }

  /** Upstream: at most one read is outstanding, so reusing readBuf is safe; what the data channel accepted
      is a subsequence, in order and without repetition, of the chunks read, each of 1 to 1024 bytes; and
      up to the first refused chunk it is all of them, so its bytes are a prefix of the bytes read. */
  lemma UpstreamRelay(side: Side, es: seq<Event>, s: State, j: nat)
    requires Reached(side, es, s)
    ensures forall i | 0 <= i < |s.reader.ops| - 1 :: s.reader.ops[i].ReadTaken?
    ensures forall i | 0 <= i < |s.reader.got| :: 0 < |s.reader.got[i]| <= CHUNK
    ensures |s.reader.outcomes| <= |s.reader.got| <= |s.reader.outcomes| + 1
    ensures |s.reader.sent| == |Positions(s.reader.outcomes)|
    ensures forall k | 0 <= k < |s.reader.sent| ::
              && Positions(s.reader.outcomes)[k] < |s.reader.got|
              && s.reader.sent[k] == s.reader.got[Positions(s.reader.outcomes)[k]]
    ensures forall i, k | 0 <= i < k < |s.reader.sent| ::
              Positions(s.reader.outcomes)[i] < Positions(s.reader.outcomes)[k]
    ensures j <= |s.reader.outcomes| && (forall i | 0 <= i < j :: s.reader.outcomes[i]) ==>
              s.reader.got[..j] <= s.reader.sent
    ensures (forall i | 0 <= i < |s.reader.outcomes| :: s.reader.outcomes[i]) ==>
              s.reader.sent == s.reader.got[..|s.reader.outcomes|] && Flat(s.reader.sent) <= Flat(s.reader.got)
  {
    InvInit(side);
    InvRun(Init(side), es, s);
    SentIsSubsequence(s.reader, j);
  }

  lemma SentIsSubsequence(r: Reader, j: nat)
    requires |r.outcomes| <= |r.got| && r.sent == Selected(r.got, r.outcomes)
    ensures |r.sent| == |Positions(r.outcomes)|
    ensures forall k | 0 <= k < |r.sent| ::
              Positions(r.outcomes)[k] < |r.got| && r.sent[k] == r.got[Positions(r.outcomes)[k]]
    ensures forall i, k | 0 <= i < k < |r.sent| :: Positions(r.outcomes)[i] < Positions(r.outcomes)[k]
    ensures j <= |r.outcomes| && (forall i | 0 <= i < j :: r.outcomes[i]) ==> r.got[..j] <= r.sent
    ensures (forall i | 0 <= i < |r.outcomes| :: r.outcomes[i]) ==>
              r.sent == r.got[..|r.outcomes|] && Flat(r.sent) <= Flat(r.got)
  {
    SelectedBySubsequence(r.got, r.outcomes);
    if j <= |r.outcomes| && forall i | 0 <= i < j :: r.outcomes[i] {
      SelectedPrefix(r.got, r.outcomes, j);
    }
    if forall i | 0 <= i < |r.outcomes| :: r.outcomes[i] {
      AllSent(r);
    }
  }

  lemma AllSent(r: Reader)
    requires |r.outcomes| <= |r.got| && r.sent == Selected(r.got, r.outcomes)
    requires forall i | 0 <= i < |r.outcomes| :: r.outcomes[i]
    ensures r.sent == r.got[..|r.outcomes|] && Flat(r.sent) <= Flat(r.got)
  {
    SelectedPrefix(r.got, r.outcomes, |r.outcomes|);
    FlatPrefix(r.sent, r.got);
  }

  /** Downstream: messages are taken in arrival order. Until the first failure or timeout at most one write
      is outstanding, every earlier one succeeded, and the socket holds a prefix of what the data channel
      delivered, missing only the current message and the buffered ones. */
  lemma DownstreamRelay(side: Side, es: seq<Event>, s: State)
    requires Reached(side, es, s)
    ensures s.writer.arrivals == DataOf(s.writer.ops) + s.writer.buffer && |s.writer.buffer| <= BACKLOG
    ensures Clean(s.writer) ==>
              && (forall i | 0 <= i < |s.writer.ops| - 1 :: s.writer.ops[i].status == WriteTaken(None))
              && s.writer.socket <= Flat(s.writer.arrivals)
              && (|s.writer.ops| > 0 ==> Flat(DataOf(s.writer.ops[..|s.writer.ops| - 1])) <= s.writer.socket)
              && (s.writer.pc.AtSelect? ==> s.writer.socket == Flat(DataOf(s.writer.ops)))
  {
    InvInit(side);
    InvRun(Init(side), es, s);
    if Clean(s.writer) {
      SocketIsPrefix(s.writer);
    }
  }

  lemma {:induction false} BytesOfFlat(ops: seq<WriteOp>)
    ensures BytesOf(ops) == Flat(DataOf(ops))
  {
    if |ops| > 0 {
      var n := |ops| - 1;
      BytesOfFlat(ops[..n]);
      assert DataOf(ops)[..n] == DataOf(ops[..n]);
    }
  }

  lemma SocketIsPrefix(w: Writer)
    requires TakesInOrder(w) && RelaysDown(w) && Clean(w)
    ensures w.socket <= Flat(w.arrivals)
    ensures |w.ops| > 0 ==> Flat(DataOf(w.ops[..|w.ops| - 1])) <= w.socket
    ensures w.pc.AtSelect? ==> w.socket == Flat(DataOf(w.ops))
  {
    BytesOfFlat(w.ops);
    FlatPrefix(DataOf(w.ops), w.arrivals);
    if |w.ops| > 0 {
      BytesOfFlat(w.ops[..|w.ops| - 1]);
    }
  }

  // ----- termination of the loops -----

  /** What is left of the end-of-life budget. */
  function Budget(e: Eol): nat {
    if Accepted(e) <= 2 then 2 - Accepted(e) else 0
  }

  function ReaderRank(r: Reader): nat {
    match r.pc
    case ReaderUnborn => 0
    case ReaderExited => 0
    case ReaderFailing(_) => 1
    case AtTop => 4
    case Waiting(op) =>
      if op >= |r.ops| then 0
      else match r.ops[op]
        case ReadDone(err) => if err.Some? then 2 else 5
        case Reading => 3
        case Sending(_) => 6
        case ReadTaken => 0
  }

  function ReaderMeasure(s: State): nat {
    if s.reader.pc.ReaderExited? then 0 else 8 * Budget(s.eol) + ReaderRank(s.reader)
  }

  /** Once the connection is closed, every step of the reading loop and its helper takes the measure down,
      and no other goroutine's step takes it up. */
  lemma ReaderDecreases(s: State, e: Event)
    requires Inv(s) && s.down.connClosed && Step(s, e).Some?
    ensures Step(s, e).value.down.connClosed
    ensures ReaderMeasure(Step(s, e).value) <= ReaderMeasure(s)
    ensures IsReader(e) && !s.reader.pc.ReaderExited? ==> ReaderMeasure(Step(s, e).value) < ReaderMeasure(s)
  {
    ConnStaysClosed(s, e);
    if IsReader(e) {
      ReaderStepDecreases(s, e);
    } else {
      OtherStepKeepsReader(s, e);
    }
  }

  lemma ConnStaysClosed(s: State, e: Event)
    requires s.down.connClosed && Step(s, e).Some?
    ensures Step(s, e).value.down.connClosed
  {
    if IsReader(e) || IsWriterEvent(e) {
      LoopsFrame(s, e);
    }
  }

  lemma ReaderStepDecreases(s: State, e: Event)
    requires OneRead(s.reader) && EolOk(s.eol, s.owner)
    requires s.down.connClosed && IsReader(e) && StepReader(s, e).Some?
    ensures ReaderMeasure(StepReader(s, e).value) <= ReaderMeasure(s)
    ensures !s.reader.pc.ReaderExited? ==> ReaderMeasure(StepReader(s, e).value) < ReaderMeasure(s)
  {
  }

  lemma OtherStepKeepsReader(s: State, e: Event)
    requires OwnershipOk(s) && s.down.connClosed && !IsReader(e) && Step(s, e).Some?
    ensures ReaderMeasure(Step(s, e).value) <= ReaderMeasure(s)
  {
  }

  /** The steps of the reading loop in a run, up to its exit. */
  function ReaderSteps(s: State, es: seq<Event>): nat
    decreases |es|
  {
    if |es| == 0 || s.reader.pc.ReaderExited? || Step(s, es[0]).None? then 0
    else (if IsReader(es[0]) then 1 else 0) + ReaderSteps(Step(s, es[0]).value, es[1..])
  }

  lemma {:induction false} ReaderStepsBounded(s: State, es: seq<Event>)
    requires Inv(s) && s.down.connClosed && Run(Step, s, es).Some?
    ensures ReaderSteps(s, es) <= ReaderMeasure(s)
    ensures Run(Step, s, es).value.down.connClosed
    decreases |es|
  {
    if |es| > 0 {
      InvStep(s, es[0]);
      ReaderDecreases(s, es[0]);
      ReaderStepsBounded(Step(s, es[0]).value, es[1..]);
    }
  }

  /** The reading loop terminates once the connection is closed: however the run goes on, it takes at most
      22 more steps, and until it has exited one of its steps can be taken. */
  lemma ReadingLoopTerminates(side: Side, es: seq<Event>, s: State, fs: seq<Event>, t: State)
    requires Reached(side, es, s) && s.down.connClosed && Run(Step, s, fs) == Some(t)
    ensures ReaderSteps(s, fs) <= 22
    ensures t.reader.pc.ReaderExited? || exists e :: IsReader(e) && Step(t, e).Some?
  {
    InvInit(side);
    InvRun(Init(side), es, s);
    InvRun(s, fs, t);
    ReaderStepsBounded(s, fs);
    ReaderNotStuck(t);
  }

  lemma ReaderNotStuck(s: State)
    requires Inv(s) && !s.starter.AtNewProxy?
    ensures s.reader.pc.ReaderExited? || exists e :: IsReader(e) && Step(s, e).Some?
  {
    var r := s.reader;
    match r.pc {
      case ReaderUnborn =>
      case ReaderExited =>
      case ReaderFailing(_) => assert IsReader(ReaderPushes) && Step(s, ReaderPushes).Some?;
      case AtTop => assert IsReader(ReadStarts) && Step(s, ReadStarts).Some?;
      case Waiting(op) =>
        match r.ops[op] {
          case ReadDone(_) => assert IsReader(ReaderTakes) && Step(s, ReaderTakes).Some?;
          case Reading => assert IsReader(ReadFails(op, EOF)) && Step(s, ReadFails(op, EOF)).Some?;
          case Sending(_) => assert IsReader(SendEnds(op, None)) && Step(s, SendEnds(op, None)).Some?;
          case ReadTaken =>
        }
    }
  }

  function WriterRank(w: Writer): nat {
    match w.pc
    case WriterUnborn => 0
    case WriterExited => 0
    case WriterFailing(_) => 1
    case AtSelect => 4
    case Writing(op) =>
      if op >= |w.ops| then 0
      else match w.ops[op].status
        case WriteDone(err) => if err.Some? then 2 else 5
        case Outstanding => 3
        case WriteTaken(_) => 0
  }

  function WriterMeasure(s: State): nat {
    if s.writer.pc.WriterExited? then 0 else 8 * Budget(s.eol) + WriterRank(s.writer)
  }

  /** The steps of the writing loop, and the end of the write it waits for. */
  predicate IsWriter(w: Writer, e: Event) {
    || e.WriterTakes? || e.WriterTakesResult? || e.WriterTimesOut? || e.WriterStops? || e.WriterPushes?
    || (e.WriteEnds? && w.pc == Writing(e.op))
  }

  lemma WriterDecreases(s: State, e: Event)
    requires Inv(s) && s.down.connClosed && Step(s, e).Some?
    ensures Step(s, e).value.down.connClosed
    ensures WriterMeasure(Step(s, e).value) <= WriterMeasure(s)
    ensures IsWriter(s.writer, e) && !s.writer.pc.WriterExited? ==> WriterMeasure(Step(s, e).value) < WriterMeasure(s)
  {
    ConnStaysClosed(s, e);
    if MovesWriter(e) || IsWriter(s.writer, e) {
      WriterStepDecreases(s, e);
    } else {
      OtherStepKeepsWriter(s, e);
    }
  }

  lemma WriterStepDecreases(s: State, e: Event)
    requires TakesInOrder(s.writer) && EolOk(s.eol, s.owner) && s.down.connClosed
    requires (MovesWriter(e) || IsWriter(s.writer, e)) && StepWriter(s, e).Some?
    ensures WriterMeasure(StepWriter(s, e).value) <= WriterMeasure(s)
    ensures IsWriter(s.writer, e) && !s.writer.pc.WriterExited? ==>
              WriterMeasure(StepWriter(s, e).value) < WriterMeasure(s)
  {
  }

  lemma OtherStepKeepsWriter(s: State, e: Event)
    requires OwnershipOk(s) && s.down.connClosed && Step(s, e).Some?
    requires !MovesWriter(e) && !IsWriter(s.writer, e)
    ensures WriterMeasure(Step(s, e).value) <= WriterMeasure(s)
  {
  }

  function WriterSteps(s: State, es: seq<Event>): nat
    decreases |es|
  {
    if |es| == 0 || s.writer.pc.WriterExited? || Step(s, es[0]).None? then 0
    else (if IsWriter(s.writer, es[0]) then 1 else 0) + WriterSteps(Step(s, es[0]).value, es[1..])
  }

  lemma {:induction false} WriterStepsBounded(s: State, es: seq<Event>)
    requires Inv(s) && s.down.connClosed && Run(Step, s, es).Some?
    ensures WriterSteps(s, es) <= WriterMeasure(s)
    decreases |es|
  {
    if |es| > 0 {
      InvStep(s, es[0]);
      WriterDecreases(s, es[0]);
      WriterStepsBounded(Step(s, es[0]).value, es[1..]);
    }
  }

  /** The writing loop terminates once the connection is closed: at most 21 more steps, and once Close has
      closed its stop channel it can always take one until it has exited. */
  lemma WritingLoopTerminates(side: Side, es: seq<Event>, s: State, fs: seq<Event>, t: State)
    requires Reached(side, es, s) && s.down.connClosed && Run(Step, s, fs) == Some(t)
    ensures WriterSteps(s, fs) <= 21
    ensures t.down.writeStops > 0 ==> t.writer.pc.WriterExited? || exists e :: IsWriter(t.writer, e) && Step(t, e).Some?
  {
    InvInit(side);
    InvRun(Init(side), es, s);
    InvRun(s, fs, t);
    WriterStepsBounded(s, fs);
    WriterNotStuck(t);
  }

  lemma WriterNotStuck(s: State)
    requires Inv(s)
    ensures s.down.writeStops > 0 ==> s.writer.pc.WriterExited? || exists e :: IsWriter(s.writer, e) && Step(s, e).Some?
  {
    if s.down.writeStops > 0 {
      if s.writer.pc.WriterFailing? {
        assert IsWriter(s.writer, WriterPushes) && Step(s, WriterPushes).Some?;
      } else if !s.writer.pc.WriterExited? {
        assert IsWriter(s.writer, WriterStops) && Step(s, WriterStops).Some?;
      }
    }
  }
}
