/** Every event of a proxied connection keeps its invariant. */
module ProxyProofs {
  import opened Runs
  import opened Proxy

  // ----- teardown -----

  ghost predicate ReadyToClose(d: Teardown) {
    d.latch == 0 && d.bodies == 0 && !d.connClosed && d.writeStops == 0 && d.readStops == 0
  }

  ghost predicate FullyClosed(d: Teardown) {
    d.latch == 1 && d.bodies == 1 && d.connClosed && d.writeStops == 1 && d.readStops == 1
  }

  /** What Close has done when it stands at `stage`. */
  ghost predicate ClosedUpTo(d: Teardown, stage: Stage) {
    && d.latch == d.bodies == (if stage.AtLatch? then 0 else 1)
    && (d.connClosed <==> !stage.AtLatch? && !stage.AtConn?)
    && d.writeStops == (if stage.AtCloseRead? then 1 else 0)
    && d.readStops == 0
  }

  ghost predicate TeardownOk(d: Teardown) {
    && !d.misuse
    && match d.closing
       case Free => ReadyToClose(d) || (FullyClosed(d) && !d.inMap)
       case Closing(_, stage) => !d.inMap && ClosedUpTo(d, stage)
  }

  /** Who may still close, seen from the creating goroutine and the owner. */
  ghost predicate OwnershipOk(s: State) {
    && (s.owner.NotStarted? <==> !s.starter.Started?)
    && (s.side.Agent? ==> !s.down.inMap && !s.starter.AtInsert? && s.callbacks.cleaning == 0)
    && (s.starter.AtNewProxy? || s.starter.AtInsert? ==> !s.down.inMap && s.down.closing.Free? && ReadyToClose(s.down))
    && (s.side.Listener? && (s.starter.AtGo? || s.starter.Started?) && s.down.closing.Free? && !s.down.inMap ==>
          FullyClosed(s.down))
    && (s.side.Agent? && (s.owner.NotStarted? || s.owner.Selecting? || s.owner.Cleaning?) ==>
          s.down.closing.Free? && ReadyToClose(s.down))
    && (s.side.Agent? && s.down.closing.Closing? ==> s.down.closing.who.ByOwner?)
    && (s.owner.InClose? <==> s.down.closing.Closing? && s.down.closing.who.ByOwner?)
    && (s.owner.ClosingChannel? || s.owner.Resolving? || s.owner.Resolved? ==>
          s.down.closing.Free? && !s.down.inMap && FullyClosed(s.down))
  }

  // ----- end of life -----

  function Accepted(e: Eol): nat {
    e.byReader + e.byWriter + e.byCallback
  }

  ghost predicate EolOk(e: Eol, owner: Owner) {
    && |e.buffer| <= 1
    && Accepted(e) == e.received + |e.buffer|
    && e.received <= 1
    && (!OwnerPastSelect(owner) ==> e.received == 0)
    && (e.attempts > 0 && !OwnerPastSelect(owner) ==> |e.buffer| == 1)
    && e.attempts >= Accepted(e)
  }

  // ----- the reading loop -----

  ghost predicate ReaderBudget(r: Reader, e: Eol) {
    && r.failures == e.byReader + (if r.pc.ReaderFailing? || r.rejected then 1 else 0)
    && (r.rejected ==> r.pc.ReaderExited? && e.attempts > 0)
  }

  /** All helpers but the last have delivered, and so has the last unless the loop waits for it or left it. */
  ghost predicate OneRead(r: Reader) {
    && (forall i | 0 <= i < |r.ops| - 1 :: r.ops[i].ReadTaken?)
    && (r.pc.Waiting? ==> r.pc.op == |r.ops| - 1 && !r.ops[r.pc.op].ReadTaken?)
    && (r.pc.AtTop? || r.pc.ReaderFailing? ==> |r.ops| == 0 || r.ops[|r.ops| - 1].ReadTaken?)
    && (r.pc.ReaderUnborn? ==> |r.ops| == 0)
  }

  predicate Sends(r: Reader) {
    |r.ops| > 0 && r.ops[|r.ops| - 1].Sending?
  }

  /** The elements of `xs` whose flag is set. */
  function Selected(xs: seq<Bytes>, flags: seq<bool>): seq<Bytes>
    requires |flags| <= |xs|
  {
    if |flags| == 0 then []
    else
      var n := |flags| - 1;
      Selected(xs, flags[..n]) + (if flags[n] then [xs[n]] else [])
  }

  ghost predicate RelaysUp(r: Reader) {
    && |r.buf| == CHUNK
    && (forall i | 0 <= i < |r.got| :: 0 < |r.got[i]| <= CHUNK)
    && |r.got| == |r.outcomes| + (if Sends(r) then 1 else 0)
    && (Sends(r) ==> r.ops[|r.ops| - 1].n <= CHUNK && r.buf[..r.ops[|r.ops| - 1].n] == r.got[|r.got| - 1])
    && r.sent == Selected(r.got, r.outcomes)
  }

  // ----- the writing loop -----

  ghost predicate WriterBudget(w: Writer, e: Eol) {
    && w.failures == e.byWriter + (if w.pc.WriterFailing? || w.rejected then 1 else 0)
    && w.timeouts <= w.failures
    && (w.rejected ==> w.pc.WriterExited? && e.attempts > 0)
  }

  function DataOf(ops: seq<WriteOp>): seq<Bytes> {
    seq(|ops|, i requires 0 <= i < |ops| => ops[i].data)
  }

  function Flat(xs: seq<Bytes>): Bytes {
    if |xs| == 0 then [] else Flat(xs[..|xs| - 1]) + xs[|xs| - 1]
  }

  /** The messages of the writes started so far, as bytes. */
  function BytesOf(ops: seq<WriteOp>): Bytes {
    if |ops| == 0 then [] else BytesOf(ops[..|ops| - 1]) + ops[|ops| - 1].data
  }

  function OutstandingIn(ops: seq<WriteOp>): nat {
    if |ops| == 0 then 0
    else OutstandingIn(ops[..|ops| - 1]) + (if ops[|ops| - 1].status.Outstanding? then 1 else 0)
  }

  /** Neither a failure nor a timeout so far. */
  predicate Clean(w: Writer) {
    w.failures == 0
  }

  ghost predicate TakesInOrder(w: Writer) {
    && w.arrivals == DataOf(w.ops) + w.buffer
    && |w.buffer| <= BACKLOG
    && (w.pc.Writing? ==> w.pc.op == |w.ops| - 1 && !w.ops[w.pc.op].status.WriteTaken?)
    && (w.pc.WriterUnborn? ==> |w.ops| == 0)
  }

  /** How much of the last message is in the socket. */
  ghost predicate LastWritten(w: Writer, earlier: Bytes)
    requires |w.ops| > 0
  {
    var last := w.ops[|w.ops| - 1];
    match last.status
    case Outstanding => w.socket == earlier
    case WriteDone(err) =>
      if err.None? then w.socket == earlier + last.data else earlier <= w.socket <= earlier + last.data
    case WriteTaken(err) => err.None? && w.socket == earlier + last.data
  }

  ghost predicate RelaysDown(w: Writer) {
    Clean(w) ==>
      && (forall i | 0 <= i < |w.ops| - 1 :: w.ops[i].status == WriteTaken(None))
      && (w.pc.AtSelect? && |w.ops| > 0 ==> w.ops[|w.ops| - 1].status.WriteTaken?)
      && (if |w.ops| == 0 then w.socket == [] else LastWritten(w, BytesOf(w.ops[..|w.ops| - 1])))
  }

  /** The writes the loop has moved on from: all but the one it waits for. */
  function Abandoned(w: Writer): seq<WriteOp> {
    if w.pc.Writing? && |w.ops| > 0 then w.ops[..|w.ops| - 1] else w.ops
  }

  ghost predicate FewOutstanding(w: Writer) {
    OutstandingIn(Abandoned(w)) <= w.timeouts + (if w.pc.WriterExited? && !w.rejected then 1 else 0)
  }

  ghost predicate Born(s: State) {
    && (s.reader.pc.ReaderUnborn? <==> s.starter.AtNewProxy?)
    && (s.writer.pc.WriterUnborn? <==> s.starter.AtNewProxy?)
    && (s.starter.AtNewProxy? ==> |s.writer.arrivals| == 0 && |s.writer.buffer| == 0)
  }

  ghost predicate Inv(s: State) {
    && TeardownOk(s.down) && OwnershipOk(s) && EolOk(s.eol, s.owner) && Born(s)
    && ReaderBudget(s.reader, s.eol) && OneRead(s.reader) && RelaysUp(s.reader)
    && WriterBudget(s.writer, s.eol) && TakesInOrder(s.writer) && RelaysDown(s.writer) && FewOutstanding(s.writer)
  }

  lemma RelayInit(r: Reader, w: Writer, buf: Bytes)
    requires r == Reader(ReaderUnborn, [], buf, [], [], [], 0, false) && |buf| == CHUNK
    requires w == Writer(WriterUnborn, [], [], [], [], 0, 0, false)
    ensures OneRead(r) && RelaysUp(r) && TakesInOrder(w) && RelaysDown(w) && FewOutstanding(w)
  {
    assert DataOf(w.ops) == [];
  }

  lemma InvInit(side: Side)
    ensures Inv(Init(side))
  {
    RelayInit(Init(side).reader, Init(side).writer, EmptyBuffer());
  }

  // ----- steps: teardown and ownership -----

  /** The loops and their helpers leave the owner, the callbacks and what Close works on alone. */
  lemma LoopsFrame(s: State, e: Event)
    requires !IsStart(e) && !IsCallback(e) && !IsOwner(e) && !e.CloseStep? && Step(s, e).Some?
    ensures var t := Step(s, e).value;
            && t.side == s.side && t.starter == s.starter && t.ctxDone == s.ctxDone
            && t.owner == s.owner && t.callbacks == s.callbacks && t.down == s.down
  {
  }

  lemma TeardownStep(s: State, e: Event)
    requires TeardownOk(s.down) && OwnershipOk(s) && Step(s, e).Some?
    ensures TeardownOk(Step(s, e).value.down)
  {
    if e.CloseStep? {
      TeardownClose(s, e.signalled);
    } else if !IsStart(e) && !IsCallback(e) && !IsOwner(e) {
      LoopsFrame(s, e);
    }
  }

  lemma TeardownClose(s: State, signalled: bool)
    requires TeardownOk(s.down) && StepClose(s, signalled).Some?
    ensures TeardownOk(StepClose(s, signalled).value.down)
  {
  }

  lemma OwnershipClose(s: State, signalled: bool)
    requires TeardownOk(s.down) && OwnershipOk(s) && StepClose(s, signalled).Some?
    ensures OwnershipOk(StepClose(s, signalled).value)
  {
  }

  lemma OwnershipOwner(s: State, e: Event)
    requires TeardownOk(s.down) && OwnershipOk(s) && IsOwner(e) && StepOwner(s, e).Some?
    ensures OwnershipOk(StepOwner(s, e).value)
  {
  }

  lemma OwnershipCallback(s: State, e: Event)
    requires TeardownOk(s.down) && OwnershipOk(s) && IsCallback(e) && StepCallback(s, e).Some?
    ensures OwnershipOk(StepCallback(s, e).value)
  {
  }

  lemma OwnershipStart(s: State, e: Event)
    requires TeardownOk(s.down) && OwnershipOk(s) && IsStart(e) && StepStart(s, e).Some?
    ensures OwnershipOk(StepStart(s, e).value)
  {
  }

  lemma OwnershipStep(s: State, e: Event)
    requires TeardownOk(s.down) && OwnershipOk(s) && Step(s, e).Some?
    ensures OwnershipOk(Step(s, e).value)
  {
    if IsStart(e) { OwnershipStart(s, e); }
    else if IsCallback(e) { OwnershipCallback(s, e); }
    else if IsOwner(e) { OwnershipOwner(s, e); }
    else if e.CloseStep? { OwnershipClose(s, e.signalled); }
    else { LoopsFrame(s, e); }
  }

  lemma EolPushed(e: Eol, owner: Owner, from: Sender, err: Error)
    requires EolOk(e, owner)
    ensures EolOk(Pushed(e, from, err), owner)
  {
  }

  predicate Pushes(e: Event) {
    e.CallbackPushes? || e.ReaderPushes? || e.WriterPushes?
  }

  lemma EolFrame(s: State, e: Event)
    requires !IsOwner(e) && !Pushes(e) && Step(s, e).Some?
    ensures var t := Step(s, e).value;
            t.eol == s.eol && (t.owner == s.owner || e.StartOwner? || (e.CloseStep? && s.owner.InClose?))
    ensures var t := Step(s, e).value; e.CloseStep? ==> (OwnerPastSelect(t.owner) <==> OwnerPastSelect(s.owner))
  {
  }

  lemma EolOwner(s: State, e: Event)
    requires EolOk(s.eol, s.owner) && IsOwner(e) && StepOwner(s, e).Some?
    ensures EolOk(StepOwner(s, e).value.eol, StepOwner(s, e).value.owner)
  {
  }

  lemma EolStep(s: State, e: Event)
    requires EolOk(s.eol, s.owner) && OwnershipOk(s) && Step(s, e).Some?
    ensures EolOk(Step(s, e).value.eol, Step(s, e).value.owner)
  {
    if IsOwner(e) {
      EolOwner(s, e);
    } else if e.CallbackPushes? {
      EolPushed(s.eol, s.owner, FromCallback, if s.side.Listener? then None else Some(EOF));
    } else if e.ReaderPushes? {
      EolPushed(s.eol, s.owner, FromReader, Some(s.reader.pc.err));
    } else if e.WriterPushes? {
      EolPushed(s.eol, s.owner, FromWriter, Some(s.writer.pc.err));
    } else {
      EolFrame(s, e);
    }
  }

  lemma BornReader(s: State, e: Event)
    requires Born(s) && IsReader(e) && StepReader(s, e).Some?
    ensures Born(StepReader(s, e).value)
  {
  }

  lemma BornWriter(s: State, e: Event)
    requires Born(s) && IsWriterEvent(e) && StepWriter(s, e).Some?
    ensures Born(StepWriter(s, e).value)
  {
  }

  lemma BornOther(s: State, e: Event)
    requires Born(s) && OwnershipOk(s) && !IsReader(e) && !IsWriterEvent(e) && Step(s, e).Some?
    ensures Born(Step(s, e).value)
  {
  }

  lemma BornStep(s: State, e: Event)
    requires Born(s) && OwnershipOk(s) && Step(s, e).Some?
    ensures Born(Step(s, e).value)
  {
    if IsReader(e) {
      BornReader(s, e);
    } else if IsWriterEvent(e) {
      BornWriter(s, e);
    } else {
      BornOther(s, e);
    }
  }

  // ----- steps: reader -----

  /** Everybody else can only start the reading loop or make it exit. */
  lemma ReaderFrame(s: State, e: Event)
    requires !IsReader(e) && Step(s, e).Some?
    ensures var t := Step(s, e).value;
            && t.reader == s.reader.(pc := t.reader.pc)
            && (t.reader.pc == s.reader.pc || (e.Build? && t.reader.pc.AtTop?)
                || (s.reader.pc.Waiting? && t.reader.pc.ReaderExited?))
            && t.eol.byReader == s.eol.byReader && t.eol.attempts >= s.eol.attempts
  {
  }

  lemma ReaderBudgetStep(s: State, e: Event)
    requires ReaderBudget(s.reader, s.eol) && Born(s) && Step(s, e).Some?
    ensures ReaderBudget(Step(s, e).value.reader, Step(s, e).value.eol)
  {
    if !IsReader(e) {
      ReaderFrame(s, e);
    }
  }

  lemma OneReadOwn(s: State, e: Event)
    requires OneRead(s.reader) && IsReader(e) && StepReader(s, e).Some?
    ensures OneRead(StepReader(s, e).value.reader)
  {
  }

  lemma OneReadStep(s: State, e: Event)
    requires OneRead(s.reader) && Born(s) && Step(s, e).Some?
    ensures OneRead(Step(s, e).value.reader)
  {
    if IsReader(e) {
      OneReadOwn(s, e);
    } else {
      ReaderFrame(s, e);
    }
  }

  lemma {:induction false} SelectedLocal(xs: seq<Bytes>, ys: seq<Bytes>, flags: seq<bool>)
    requires |flags| <= |xs| && |flags| <= |ys| && xs[..|flags|] == ys[..|flags|]
    ensures Selected(xs, flags) == Selected(ys, flags)
  {
    if |flags| > 0 {
      var n := |flags| - 1;
      assert xs[..n] == xs[..|flags|][..n] && ys[..n] == ys[..|flags|][..n];
      assert xs[n] == xs[..|flags|][n] && ys[n] == ys[..|flags|][n];
      SelectedLocal(xs, ys, flags[..n]);
    }
  }

  lemma RelaysUpGets(s: State, op: nat, bytes: Bytes)
    requires RelaysUp(s.reader) && OneRead(s.reader) && StepReader(s, ReadGets(op, bytes)).Some?
    ensures RelaysUp(StepReader(s, ReadGets(op, bytes)).value.reader)
  {
    var r, r' := s.reader, StepReader(s, ReadGets(op, bytes)).value.reader;
    assert op == |r.ops| - 1;
    SelectedLocal(r.got, r'.got, r.outcomes);
    assert r'.buf[..|bytes|] == bytes;
  }

  lemma RelaysUpSendEnds(s: State, op: nat, result: Error)
    requires RelaysUp(s.reader) && OneRead(s.reader) && StepReader(s, SendEnds(op, result)).Some?
    ensures RelaysUp(StepReader(s, SendEnds(op, result)).value.reader)
  {
    var r, r' := s.reader, StepReader(s, SendEnds(op, result)).value.reader;
    assert op == |r.ops| - 1;
    assert r'.outcomes[..|r.outcomes|] == r.outcomes;
  }

  lemma RelaysUpOther(s: State, e: Event)
    requires RelaysUp(s.reader) && OneRead(s.reader) && IsReader(e) && !e.ReadGets? && !e.SendEnds?
    requires StepReader(s, e).Some?
    ensures RelaysUp(StepReader(s, e).value.reader)
  {
    var r, r' := s.reader, StepReader(s, e).value.reader;
    assert Sends(r') == Sends(r);
  }

  lemma RelaysUpOwn(s: State, e: Event)
    requires RelaysUp(s.reader) && OneRead(s.reader) && IsReader(e) && StepReader(s, e).Some?
    ensures RelaysUp(StepReader(s, e).value.reader)
  {
    if e.ReadGets? {
      RelaysUpGets(s, e.op, e.bytes);
    } else if e.SendEnds? {
      RelaysUpSendEnds(s, e.op, e.result);
    } else {
      RelaysUpOther(s, e);
    }
  }

  lemma RelaysUpStep(s: State, e: Event)
    requires RelaysUp(s.reader) && OneRead(s.reader) && Born(s) && Step(s, e).Some?
    ensures RelaysUp(Step(s, e).value.reader)
  {
    if IsReader(e) {
      RelaysUpOwn(s, e);
    } else {
      ReaderFrame(s, e);
      RelaysUpFramed(s.reader, Step(s, e).value.reader);
    }
  }

  lemma RelaysUpFramed(r: Reader, r': Reader)
    requires RelaysUp(r) && r' == r.(pc := r'.pc)
    ensures RelaysUp(r')
  {
  }

  // ----- steps: writer -----

  lemma WriterBudgetStep(s: State, e: Event)
    requires WriterBudget(s.writer, s.eol) && Born(s) && Step(s, e).Some?
    ensures WriterBudget(Step(s, e).value.writer, Step(s, e).value.eol)
  {
    if !IsWriterEvent(e) {
      OthersKeepWriter(s, e);
    }
  }

  predicate IsWriterEvent(e: Event) {
    !IsStart(e) && !IsCallback(e) && !IsOwner(e) && !e.CloseStep? && !IsReader(e)
  }

  /** Everybody else can only start the writing loop or make it exit. */
  lemma OthersKeepWriter(s: State, e: Event)
    requires !IsWriterEvent(e) && Step(s, e).Some?
    ensures var t := Step(s, e).value;
            && t.writer == s.writer.(pc := t.writer.pc)
            && (t.writer.pc == s.writer.pc || (e.Build? && t.writer.pc.AtSelect?)
                || ((s.writer.pc.AtSelect? || s.writer.pc.Writing?) && t.writer.pc.WriterExited?))
            && t.eol.byWriter == s.eol.byWriter && t.eol.attempts >= s.eol.attempts
  {
  }

  lemma TakesInOrderOwn(s: State, e: Event)
    requires TakesInOrder(s.writer) && Born(s) && IsWriterEvent(e) && StepWriter(s, e).Some?
    ensures TakesInOrder(StepWriter(s, e).value.writer)
  {
  }

  lemma TakesInOrderStep(s: State, e: Event)
    requires TakesInOrder(s.writer) && Born(s) && Step(s, e).Some?
    ensures TakesInOrder(Step(s, e).value.writer)
  {
    if IsWriterEvent(e) {
      TakesInOrderOwn(s, e);
    } else {
      OthersKeepWriter(s, e);
    }
  }

  lemma TakesNext(w: Writer, data: Bytes, rest: seq<Bytes>)
    requires RelaysDown(w) && w.pc.AtSelect?
    ensures RelaysDown(w.(pc := Writing(|w.ops|), ops := w.ops + [WriteOp(data, Outstanding)], buffer := rest))
  {
    var ops := w.ops + [WriteOp(data, Outstanding)];
    assert ops[..|ops| - 1] == w.ops;
  }

  lemma RelaysDownTakes(s: State)
    requires RelaysDown(s.writer) && StepWriter(s, WriterTakes).Some?
    ensures RelaysDown(StepWriter(s, WriterTakes).value.writer)
  {
    TakesNext(s.writer, s.writer.buffer[0], s.writer.buffer[1..]);
  }

  lemma WriteReturns(w: Writer, op: nat, n: nat, err: Error)
    requires RelaysDown(w) && op < |w.ops| && w.ops[op].status.Outstanding? && n <= |w.ops[op].data|
    requires err.None? ==> n == |w.ops[op].data|
    ensures RelaysDown(SetWrite(w, op, WriteDone(err)).(socket := w.socket + w.ops[op].data[..n]))
  {
    var last := |w.ops| - 1;
    if Clean(w) && op == last {
      assert w.ops[op := w.ops[op].(status := WriteDone(err))][..last] == w.ops[..last];
      assert n == |w.ops[op].data| ==> w.ops[op].data[..n] == w.ops[op].data;
    }
  }

  lemma RelaysDownEnds(s: State, op: nat, n: nat, result: Error)
    requires RelaysDown(s.writer) && StepWriter(s, WriteEnds(op, n, result)).Some?
    ensures RelaysDown(StepWriter(s, WriteEnds(op, n, result)).value.writer)
  {
    WriteReturns(s.writer, op, n, if result.None? then None else Some(WriteError(result.value)));
  }

  lemma RelaysDownTakesResult(s: State)
    requires RelaysDown(s.writer) && TakesInOrder(s.writer) && WriterBudget(s.writer, s.eol)
    requires Step(s, WriterTakesResult).Some?
    ensures RelaysDown(Step(s, WriterTakesResult).value.writer)
  {
    var w, w' := s.writer, Step(s, WriterTakesResult).value.writer;
    assert w'.ops[..|w.ops| - 1] == w.ops[..|w.ops| - 1];
  }

  predicate MovesWriter(e: Event) {
    e.WriterTakes? || e.WriteEnds? || e.WriterTakesResult?
  }

  /** Every other event leaves the writes and the socket alone, and moves the loop forward at most one way. */
  ghost predicate WriterStays(w: Writer, v: Writer) {
    && v.ops == w.ops && v.socket == w.socket && w.failures <= v.failures
    && (v.pc == w.pc || v.pc.WriterExited? || (w.pc.WriterUnborn? && v.pc.AtSelect?)
        || (w.pc.WriterFailing? && v.pc.AtSelect?)
        || (w.pc.Writing? && v.pc.WriterFailing? && v.timeouts == w.timeouts + 1))
    && (v.timeouts == w.timeouts || (w.pc.Writing? && v.pc.WriterFailing? && v.failures == w.failures + 1))
    && (w.rejected ==> v.rejected) && w.timeouts <= v.timeouts
    && (v.rejected && !w.rejected ==> w.pc.WriterFailing?)
  }

  lemma WriterFrame(s: State, e: Event)
    requires Born(s) && !MovesWriter(e) && Step(s, e).Some?
    ensures WriterStays(s.writer, Step(s, e).value.writer)
  {
    if IsWriterEvent(e) {
      LoopStays(s, e);
    } else {
      OthersKeepWriter(s, e);
    }
  }

  lemma LoopStays(s: State, e: Event)
    requires IsWriterEvent(e) && !MovesWriter(e) && StepWriter(s, e).Some?
    ensures WriterStays(s.writer, StepWriter(s, e).value.writer)
  {
  }

  lemma RelaysDownOther(w: Writer, v: Writer, eol: Eol)
    requires WriterStays(w, v) && RelaysDown(w) && TakesInOrder(w) && WriterBudget(w, eol)
    ensures RelaysDown(v)
  {
  }

  lemma FewOutstandingOther(w: Writer, v: Writer, eol: Eol)
    requires WriterStays(w, v) && FewOutstanding(w) && TakesInOrder(w) && WriterBudget(w, eol)
    ensures FewOutstanding(v)
  {
  }

  lemma RelaysDownStep(s: State, e: Event)
    requires RelaysDown(s.writer) && TakesInOrder(s.writer) && WriterBudget(s.writer, s.eol) && Born(s)
    requires Step(s, e).Some?
    ensures RelaysDown(Step(s, e).value.writer)
  {
    if e.WriterTakes? {
      RelaysDownTakes(s);
    } else if e.WriteEnds? {
      RelaysDownEnds(s, e.op, e.n, e.result);
    } else if e.WriterTakesResult? {
      RelaysDownTakesResult(s);
    } else {
      WriterFrame(s, e);
      RelaysDownOther(s.writer, Step(s, e).value.writer, s.eol);
    }
  }

  lemma {:induction false} OutstandingUpdate(ops: seq<WriteOp>, i: nat, status: WriteStatus)
    requires i < |ops| && !status.Outstanding?
    ensures OutstandingIn(ops[i := ops[i].(status := status)]) ==
            OutstandingIn(ops) - (if ops[i].status.Outstanding? then 1 else 0)
  {
    var n := |ops| - 1;
    var ops' := ops[i := ops[i].(status := status)];
    if i == n {
      assert ops'[..n] == ops[..n];
    } else {
      assert ops'[..n] == ops[..n][i := ops[..n][i].(status := status)];
      OutstandingUpdate(ops[..n], i, status);
    }
  }

  lemma FewOutstandingTakes(w: Writer, data: Bytes, rest: seq<Bytes>)
    requires FewOutstanding(w) && w.pc.AtSelect?
    ensures FewOutstanding(w.(pc := Writing(|w.ops|), ops := w.ops + [WriteOp(data, Outstanding)], buffer := rest))
  {
    var ops := w.ops + [WriteOp(data, Outstanding)];
    assert ops[..|ops| - 1] == w.ops;
    assert Abandoned(w.(pc := Writing(|w.ops|), ops := ops, buffer := rest)) == w.ops == Abandoned(w);
  }

  lemma FewOutstandingSet(w: Writer, op: nat, status: WriteStatus)
    requires FewOutstanding(w) && op < |w.ops| && !status.Outstanding?
    ensures FewOutstanding(SetWrite(w, op, status))
  {
    var w' := SetWrite(w, op, status);
    if op < |Abandoned(w)| {
      OutstandingUpdate(Abandoned(w), op, status);
      assert Abandoned(w') == Abandoned(w)[op := w'.ops[op]];
    } else {
      assert Abandoned(w') == Abandoned(w);
    }
  }

  lemma FewOutstandingTakesResult(w: Writer, v: Writer)
    requires FewOutstanding(w) && w.pc.Writing? && w.pc.op == |w.ops| - 1 && !w.ops[w.pc.op].status.Outstanding?
    requires v.ops == w.ops && v.timeouts == w.timeouts && (v.pc.AtSelect? || v.pc.WriterFailing?)
    ensures FewOutstanding(v)
  {
  }

  lemma FewOutstandingOwn(s: State, e: Event)
    requires FewOutstanding(s.writer) && TakesInOrder(s.writer) && MovesWriter(e) && StepWriter(s, e).Some?
    ensures FewOutstanding(StepWriter(s, e).value.writer)
  {
    var w, v := s.writer, StepWriter(s, e).value.writer;
    if e.WriterTakes? {
      FewOutstandingTakes(w, w.buffer[0], w.buffer[1..]);
    } else if e.WriteEnds? {
      FewOutstandingSet(w, e.op, v.ops[e.op].status);
    } else {
      FewOutstandingSet(w, w.pc.op, v.ops[w.pc.op].status);
      FewOutstandingTakesResult(SetWrite(w, w.pc.op, v.ops[w.pc.op].status), v);
    }
  }

  lemma FewOutstandingStep(s: State, e: Event)
    requires FewOutstanding(s.writer) && TakesInOrder(s.writer) && WriterBudget(s.writer, s.eol) && Born(s)
    requires Step(s, e).Some?
    ensures FewOutstanding(Step(s, e).value.writer)
  {
    if MovesWriter(e) {
      FewOutstandingOwn(s, e);
    } else {
      WriterFrame(s, e);
      FewOutstandingOther(s.writer, Step(s, e).value.writer, s.eol);
    }
  }

  // ----- errors -----

  /** What an owner may be told: never a closed pipe, nil only by the listener's close callback, and
      net.ErrClosed only by a write. */
  ghost predicate ErrorOk(err: Error, side: Side, e: Eol) {
    && err != Some(ClosedPipe)
    && (err == None ==> side.Listener? && e.byCallback > 0)
    && (err == Some(NetClosed) ==> e.byWriter > 0)
  }

  ghost predicate ErrorsOk(s: State) {
    && (forall i | 0 <= i < |s.eol.buffer| :: ErrorOk(s.eol.buffer[i], s.side, s.eol))
    && (OwnerPastSelect(s.owner) ==> ErrorOk(s.owner.err, s.side, s.eol))
    && (s.reader.pc.ReaderFailing? ==> s.reader.pc.err != NetClosed && s.reader.pc.err != ClosedPipe)
    && (s.writer.pc.WriterFailing? ==> s.writer.pc.err != ClosedPipe)
    && (forall i | 0 <= i < |s.writer.ops| :: s.writer.ops[i].status != WriteDone(Some(ClosedPipe)))
  }

  lemma ErrorsReader(s: State, e: Event)
    requires ErrorsOk(s) && IsReader(e) && StepReader(s, e).Some?
    ensures ErrorsOk(StepReader(s, e).value)
  {
  }

  lemma ErrorsWriter(s: State, e: Event)
    requires ErrorsOk(s) && IsWriterEvent(e) && StepWriter(s, e).Some?
    ensures ErrorsOk(StepWriter(s, e).value)
  {
  }

  lemma ErrorsOwner(s: State, e: Event)
    requires ErrorsOk(s) && IsOwner(e) && StepOwner(s, e).Some?
    ensures ErrorsOk(StepOwner(s, e).value)
  {
  }

  lemma ErrorsCallback(s: State, e: Event)
    requires ErrorsOk(s) && IsCallback(e) && StepCallback(s, e).Some?
    ensures ErrorsOk(StepCallback(s, e).value)
  {
  }

  lemma ErrorsStart(s: State, e: Event)
    requires ErrorsOk(s) && IsStart(e) && StepStart(s, e).Some?
    ensures ErrorsOk(StepStart(s, e).value)
  {
  }

  lemma ErrorsClose(s: State, signalled: bool)
    requires ErrorsOk(s) && StepClose(s, signalled).Some?
    ensures ErrorsOk(StepClose(s, signalled).value)
  {
  }

  lemma ErrorsStep(s: State, e: Event)
    requires ErrorsOk(s) && Step(s, e).Some?
    ensures ErrorsOk(Step(s, e).value)
  {
    if IsStart(e) { ErrorsStart(s, e); }
    else if IsCallback(e) { ErrorsCallback(s, e); }
    else if IsOwner(e) { ErrorsOwner(s, e); }
    else if e.CloseStep? { ErrorsClose(s, e.signalled); }
    else if IsReader(e) { ErrorsReader(s, e); }
    else { ErrorsWriter(s, e); }
  }

  // ----- all events -----

  lemma InvStep(s: State, e: Event)
    requires Inv(s) && Step(s, e).Some?
    ensures Inv(Step(s, e).value)
  {
    TeardownStep(s, e);
    OwnershipStep(s, e);
    EolStep(s, e);
    BornStep(s, e);
    ReaderBudgetStep(s, e);
    OneReadStep(s, e);
    RelaysUpStep(s, e);
    WriterBudgetStep(s, e);
    TakesInOrderStep(s, e);
    RelaysDownStep(s, e);
    FewOutstandingStep(s, e);
  }

  lemma InvRun(s: State, es: seq<Event>, t: State)
    requires Inv(s) && Run(Step, s, es) == Some(t)
    ensures Inv(t)
  {
    var inv := (u: State) => Inv(u);
    forall u: State, e: Event | inv(u) && Step(u, e).Some? ensures inv(Step(u, e).value) {
      InvStep(u, e);
    }
    RunKeeps(Step, inv, s, es);
  }
}
