/**
  client/proxy.go, with the owner of a proxy in client/listener.go and
  client/agent.go, on the state that the goroutines share: the channels, the latch,
  the map entry, the one reused read buffer and the futures of the helpers that
  async.Async starts. The ghost `state` adds the history that the theorems are
  about. A method that is one region of the Go code takes one step of the proxy;
  the owner, Close and, once the connection is closed, the two relay loops are
  whole methods, in which every other goroutine may run between any two statements
  (Interfere).
 */
module ProxyProcess {
  import opened Runs
  import opened Handlers
  import opened Proxy
  import opened ProxyProofs
  import opened ProxyTheorems

  /** The helper of a read: where its goroutine is, and the slot of its future. */
  datatype ReadAt = InRead | InSend(n: nat) | Finished
  datatype ReadHelper = ReadHelper(at: ReadAt, slot: Option<Error>)

  /** The helper of a write, with the message it captured. */
  datatype WriteHelper = WriteHelper(data: Bytes, finished: bool, slot: Option<Error>)

  predicate IsRead(op: ReadOp, h: ReadHelper) {
    match op
    case Reading => h == ReadHelper(InRead, None)
    case Sending(n) => h == ReadHelper(InSend(n), None)
    case ReadDone(err) => h == ReadHelper(Finished, Some(err))
    case ReadTaken => h == ReadHelper(Finished, None)
  }

  /** What a future held is forgotten once it has been taken. */
  predicate IsWrite(op: WriteOp, h: WriteHelper) {
    && op.data == h.data
    && match op.status
       case Outstanding => !h.finished && h.slot == None
       case WriteDone(err) => h.finished && h.slot == Some(err)
       case WriteTaken(_) => h.finished && h.slot == None
  }

  ghost predicate ReaderMatches(r: Reader, pc: ReaderPc, readHelpers: seq<ReadHelper>, buf: Bytes) {
    && r.pc == pc && r.buf == buf && |r.ops| == |readHelpers|
    && forall i | 0 <= i < |readHelpers| :: IsRead(r.ops[i], readHelpers[i])
  }

  ghost predicate WriterMatches(w: Writer, pc: WriterPc, writeHelpers: seq<WriteHelper>, buffer: seq<Bytes>) {
    && w.pc == pc && w.buffer == buffer && |w.ops| == |writeHelpers|
    && forall i | 0 <= i < |writeHelpers| :: IsWrite(w.ops[i], writeHelpers[i])
  }

  /** One slot: nothing, or one signal. */
  ghost predicate EolMatches(e: Eol, sig: Option<Error>) {
    e.buffer == match sig case None => [] case Some(err) => [err]
  }

  class ProxyObject {
    const side: Side
    const readBuf: array<bv8>
    // shared between the goroutines
    var eolSig: Option<Error>          // chan error with one slot
    var inMap: bool                    // the listener's map of proxies has it
    var ctxDone: bool
    var writingBuf: seq<Bytes>         // chan []byte, 1024 slots
    var stopped: bool                  // the one slot of the latch is taken
    var connClosed: bool
    var writeStopClosed: bool          // stopSigWrite is closed
    var readStopClosed: bool           // stopSigRead is closed
    var panicked: bool                 // a closed stop channel was closed or sent on
    // where the goroutines are, with their locals
    var starter: Starter
    var owner: Owner
    var callbacks: Callbacks
    var closing: Closing               // inside Close, on the listener's side with the map's lock held
    var readerPc: ReaderPc
    var readHelpers: seq<ReadHelper>
    var writerPc: WriterPc
    var writeHelpers: seq<WriteHelper>
    ghost var state: State
    ghost var log: seq<By<Event>>      // every step so far, and who took it

    ghost predicate DownMatches(d: Teardown)
      reads this
    {
      && d.inMap == inMap && d.closing == closing && (d.latch > 0 <==> stopped) && d.connClosed == connClosed
      && (d.writeStops > 0 <==> writeStopClosed) && (d.readStops > 0 <==> readStopClosed) && d.misuse == panicked
    }

    ghost predicate Valid()
      reads this, readBuf
    {
      && readBuf.Length == CHUNK
      && state.side == side && state.starter == starter && state.ctxDone == ctxDone
      && state.owner == owner && state.callbacks == callbacks
      && DownMatches(state.down) && EolMatches(state.eol, eolSig)
      && ReaderMatches(state.reader, readerPc, readHelpers, readBuf[..])
      && WriterMatches(state.writer, writerPc, writeHelpers, writingBuf)
    }

    /** The log is the whole history. */
    ghost predicate Logged()
      reads this
    {
      Recorded(Step, Init(side), log, state) && Inv(state)
    }

    constructor (side: Side)
      ensures Valid() && Logged() && fresh(readBuf) && state == Init(side) && log == []
    {
      this.side := side;
      eolSig, inMap, ctxDone, writingBuf := None, false, false, [];
      stopped, connClosed, writeStopClosed, readStopClosed, panicked := false, false, false, false, false;
      starter, owner, callbacks, closing := AtNewProxy, NotStarted, Callbacks(0, 0), Free;
      readerPc, readHelpers, writerPc, writeHelpers := ReaderUnborn, [], WriterUnborn, [];
      state, log := Init(side), [];
      readBuf := new bv8[CHUNK](_ => 0);
      InvInit(side);
      NothingRecorded(Step, Init(side));
      new;
      assert readBuf[..] == seq(CHUNK, _ => 0 as bv8);
    }

    // ----- the start -----

    /** NewProxy starts both loops. */
    method NewProxy()
      requires Valid() && starter.AtNewProxy?
      modifies this`starter, this`readerPc, this`writerPc, this`state
      ensures Valid() && StepStart(old(state), Build) == Some(state)
    {
      starter := if side.Listener? then AtInsert else AtGo;
      readerPc, writerPc := AtTop, AtSelect;
      state := StepStart(state, Build).value;
    }

    /** Under the lock of the listener's map. */
    method InsertIntoMap()
      requires Valid() && starter.AtInsert? && closing.Free?
      modifies this`starter, this`inMap, this`state
      ensures Valid() && StepStart(old(state), Insert) == Some(state)
    {
      starter, inMap := AtGo, true;
      state := StepStart(state, Insert).value;
    }

    // ----- trySendEoL -----

    /** A non-blocking send: whether the slot was empty. */
    method TrySendEoL(ghost from: Sender, err: Error) returns (ok: bool)
      requires Valid()
      modifies this`eolSig, this`state
      ensures Valid() && state == old(state).(eol := Pushed(old(state).eol, from, err))
      ensures ok <==> old(eolSig).None?
      ensures eolSig == if ok then Some(err) else old(eolSig)
    {
      ok := eolSig.None?;
      if ok {
        eolSig := Some(err);
      }
      state := state.(eol := Pushed(state.eol, from, err));
    }

    // ----- the owner and the callbacks -----

    /** The data channel has closed. */
    method CallbackBegins()
      requires Valid() && (side.Listener? || starter.AtGo? || starter.Started?)
      modifies this`callbacks, this`state
      ensures Valid() && StepCallback(old(state), CallbackStarts) == Some(state)
    {
      callbacks := if side.Listener? then callbacks.(cleaning := callbacks.cleaning + 1)
                   else callbacks.(pushing := callbacks.pushing + 1);
      state := state.(callbacks := callbacks);
    }

    /** cleanupProxy of a close callback: under the lock, look up and delete before Close. */
    method CallbackLooksUp()
      requires Valid() && callbacks.cleaning > 0 && closing.Free?
      modifies this`callbacks, this`inMap, this`closing, this`state
      ensures Valid() && StepCallback(old(state), CallbackLocks) == Some(state)
    {
      if inMap {
        callbacks := callbacks.(cleaning := callbacks.cleaning - 1);
        inMap, closing := false, Closing(ByCallback, AtLatch);
      } else {
        callbacks := Callbacks(callbacks.cleaning - 1, callbacks.pushing + 1);
      }
      state := StepCallback(state, CallbackLocks).value;
    }

    /** The end of a close callback. */
    method CallbackSignals()
      requires Valid() && callbacks.pushing > 0
      modifies this`callbacks, this`eolSig, this`state
      ensures Valid() && StepCallback(old(state), CallbackPushes) == Some(state)
    {
      var _ := TrySendEoL(FromCallback, if side.Listener? then None else Some(EOF));
      callbacks := callbacks.(pushing := callbacks.pushing - 1);
      state := state.(callbacks := callbacks);
    }

    /** The owner's select: the signal, or on the listener's side the cancelled context. */
    method OwnerSelects(preferContext: bool) returns (byContext: bool)
      requires Valid() && owner.Selecting?
      requires eolSig.Some? || (side.Listener? && ctxDone)
      modifies this`owner, this`eolSig, this`state
      ensures byContext <==> side.Listener? && ctxDone && (preferContext || old(eolSig).None?)
      ensures owner == Cleaning(if byContext then Some(Canceled) else old(eolSig).value)
      ensures Valid() && StepOwner(old(state), if byContext then OwnerCanceled else OwnerReceives) == Some(state)
    {
      byContext := side.Listener? && ctxDone && (preferContext || eolSig.None?);
      if byContext {
        owner := Cleaning(Some(Canceled));
        state := StepOwner(state, OwnerCanceled).value;
      } else {
        owner, eolSig := Cleaning(eolSig.value), None;
        state := StepOwner(state, OwnerReceives).value;
      }
    }

    /** cleanupProxy of the owner; the agent's owner has no map and calls Close at once. */
    method OwnerLooksUp()
      requires Valid() && owner.Cleaning? && closing.Free?
      modifies this`owner, this`inMap, this`closing, this`state
      ensures Valid() && StepOwner(old(state), OwnerLocks) == Some(state)
    {
      if side.Agent? || inMap {
        owner := InClose(owner.err);
        inMap, closing := false, Closing(ByOwner, AtLatch);
      } else {
        owner := ClosingChannel(owner.err);
      }
      state := StepOwner(state, OwnerLocks).value;
    }

    /** dataChannel.Close(), then closed.Resolve(err) */
    method OwnerMoves(e: Event)
      requires Valid() && (e.OwnerClosesChannel? || e.OwnerResolves?)
      requires if e.OwnerClosesChannel? then owner.ClosingChannel? else owner.Resolving?
      modifies this`owner, this`state
      ensures Valid() && StepOwner(old(state), e) == Some(state)
      ensures owner == if e.OwnerClosesChannel? then Resolving(old(owner).err) else Resolved(old(owner).err)
    {
      owner := if e.OwnerClosesChannel? then Resolving(owner.err) else Resolved(owner.err);
      state := StepOwner(state, e).value;
    }

    // ----- Close -----

    /** Close returns to whoever called it. */
    method ReturnFromClose()
      requires closing.Closing?
      modifies this`closing, this`callbacks, this`owner
      ensures closing.Free?
      ensures callbacks == CallbacksAfter(old(callbacks), old(closing).who)
      ensures owner == OwnerAfter(old(owner), old(closing).who)
    {
      if closing.who.ByCallback? {
        callbacks := callbacks.(pushing := callbacks.pushing + 1);
      } else if owner.InClose? {
        owner := ClosingChannel(owner.err);
      }
      closing := Free;
    }

    /** select { case stopped <- struct{}{}: default: return errProxyStooping } */
    method PassLatch() returns (ok: bool)
      requires Valid() && closing.Closing? && closing.stage.AtLatch?
      modifies this`stopped, this`closing, this`callbacks, this`owner, this`state
      ensures Valid() && StepClose(old(state), false) == Some(state)
      ensures ok <==> !old(stopped)
      ensures ok ==> closing == Closing(old(closing).who, AtConn) && owner == old(owner)
    {
      ok := !stopped;
      if ok {
        stopped, closing := true, Closing(closing.who, AtConn);
      } else {
        ReturnFromClose();
      }
      state := StepClose(state, false).value;
    }

    /** conn.Close() */
    method CloseConn(parked: bool)
      requires Valid() && closing.Closing? && closing.stage.AtConn?
      modifies this`connClosed, this`closing, this`state
      ensures Valid() && StepClose(old(state), parked) == Some(state)
    {
      connClosed, closing := true, Closing(closing.who, AtSignalWrite);
      state := StepClose(state, parked).value;
    }

    /** A non-blocking send: `parked` says whether the loop is found waiting in a select. */
    method SignalWrite(parked: bool)
      requires Valid() && closing.Closing? && closing.stage.AtSignalWrite?
      requires parked ==> writerPc.AtSelect? || writerPc.Writing?
      modifies this`panicked, this`closing, this`writerPc, this`state
      ensures Valid() && StepClose(old(state), parked) == Some(state)
    {
      panicked, closing := panicked || writeStopClosed, Closing(closing.who, AtSignalRead);
      if parked {
        writerPc := WriterExited;
      }
      state := StepClose(state, parked).value;
    }

    method SignalRead(parked: bool)
      requires Valid() && closing.Closing? && closing.stage.AtSignalRead?
      requires parked ==> readerPc.Waiting?
      modifies this`panicked, this`closing, this`readerPc, this`state
      ensures Valid() && StepClose(old(state), parked) == Some(state)
    {
      panicked, closing := panicked || readStopClosed, Closing(closing.who, AtCloseWrite);
      if parked {
        readerPc := ReaderExited;
      }
      state := StepClose(state, parked).value;
    }

    /** close(stopSigWrite) */
    method CloseWriteStop(parked: bool)
      requires Valid() && closing.Closing? && closing.stage.AtCloseWrite?
      modifies this`panicked, this`writeStopClosed, this`closing, this`state
      ensures Valid() && StepClose(old(state), parked) == Some(state)
    {
      panicked, writeStopClosed := panicked || writeStopClosed, true;
      closing := Closing(closing.who, AtCloseRead);
      state := StepClose(state, parked).value;
    }

    /** close(stopSigRead), and the return */
    method CloseReadStop(parked: bool)
      requires Valid() && closing.Closing? && closing.stage.AtCloseRead?
      modifies this`panicked, this`readStopClosed, this`closing, this`callbacks, this`owner, this`state
      ensures Valid() && StepClose(old(state), parked) == Some(state)
    {
      ReadStopStep(state, parked);
      panicked, readStopClosed := panicked || readStopClosed, true;
      ReturnFromClose();
      state := state.(down := ReadStopped(state.down), callbacks := callbacks, owner := owner);
    }

    // ----- readingLoop and its helpers -----

    /** Entering the select starts a helper. */
    method StartRead()
      requires Valid() && readerPc.AtTop?
      modifies this`readerPc, this`readHelpers, this`state
      ensures Valid() && StepReader(old(state), ReadStarts) == Some(state)
    {
      readerPc, readHelpers := Waiting(|readHelpers|), readHelpers + [ReadHelper(InRead, None)];
      state := StepReader(state, ReadStarts).value;
    }

    /** conn.Read copies what it got to the front of the buffer. */
    method FillBuffer(bytes: Bytes)
      requires |bytes| <= readBuf.Length
      modifies readBuf
      ensures readBuf[..] == Filled(old(readBuf[..]), bytes)
    {
      for i := 0 to |bytes|
        invariant forall k | 0 <= k < i :: readBuf[k] == bytes[k]
        invariant forall k | i <= k < readBuf.Length :: readBuf[k] == old(readBuf[k])
      {
        readBuf[i] := bytes[i];
      }
    }

    method ReadInto(op: nat, bytes: Bytes)
      requires Valid() && op < |readHelpers| && readHelpers[op].at.InRead?
      requires 0 < |bytes| <= CHUNK && !connClosed
      modifies this`readHelpers, this`state, readBuf
      ensures Valid() && StepReader(old(state), ReadGets(op, bytes)) == Some(state)
    {
      FillBuffer(bytes);
      readHelpers := readHelpers[op := ReadHelper(InSend(|bytes|), None)];
      state := StepReader(state, ReadGets(op, bytes)).value;
    }

    /** dataChannel.Send(readBuf[:n]) takes what the buffer holds now. */
    method SendChunk(op: nat, result: Error) returns (chunk: Bytes)
      requires Valid() && op < |readHelpers| && readHelpers[op].at.InSend? && readHelpers[op].at.n <= CHUNK
      modifies this`readHelpers, this`state
      ensures Valid() && StepReader(old(state), SendEnds(op, result)) == Some(state)
      ensures chunk == readBuf[..old(readHelpers)[op].at.n]
      ensures state.reader.sent == old(state).reader.sent + if result.None? then [chunk] else []
    {
      chunk := readBuf[..readHelpers[op].at.n];
      readHelpers := readHelpers[op := ReadHelper(Finished, Some(result))];
      state := StepReader(state, SendEnds(op, result)).value;
    }

    /** conn.Read fails, or returns nothing and no error. */
    method EndRead(op: nat, failure: Error)
      requires Valid() && op < |readHelpers| && readHelpers[op].at.InRead? && (failure.None? ==> !connClosed)
      modifies this`readHelpers, this`state
      ensures Valid() && StepReader(old(state), ReadEnds(op, failure)) == Some(state)
    {
      var err := if failure == Some(NetClosed) then Some(EOF) else failure;
      readHelpers := readHelpers[op := ReadHelper(Finished, Some(err))];
      state := StepReader(state, ReadEnds(op, failure)).value;
    }

    /** case err := <-future */
    method TakeReadResult()
      requires Valid() && readerPc.Waiting? && readerPc.op < |readHelpers| && readHelpers[readerPc.op].slot.Some?
      modifies this`readerPc, this`readHelpers, this`state
      ensures Valid() && StepReader(old(state), ReaderTakes) == Some(state)
    {
      var op := readerPc.op;
      var err := readHelpers[op].slot.value;
      ReaderTakeStep(state, op, err, readHelpers, readBuf[..]);
      readHelpers := readHelpers[op := readHelpers[op].(slot := None)];
      readerPc := if err == None then AtTop
                  else ReaderFailing(if err.value == NetClosed || err.value == ClosedPipe then EOF else err.value);
      state := state.(reader := AfterTaking(state.reader, op, err));
    }

    method SignalReadFailure()
      requires Valid() && readerPc.ReaderFailing?
      modifies this`readerPc, this`eolSig, this`state
      ensures Valid() && StepReader(old(state), ReaderPushes) == Some(state)
    {
      ReaderPushStep(state);
      var accepted := TrySendEoL(FromReader, Some(readerPc.err));
      readerPc := if accepted then AtTop else ReaderExited;
      state := state.(reader := AfterPush(state.reader, accepted));
    }

    /** case _, ok := <-stopSigRead */
    method StopReading()
      requires Valid() && readerPc.Waiting? && readStopClosed
      modifies this`readerPc, this`state
      ensures Valid() && StepReader(old(state), ReaderStops) == Some(state)
    {
      readerPc := ReaderExited;
      state := StepReader(state, ReaderStops).value;
    }

    // ----- writingLoop and its helpers -----

    /** OnMessage */
    method Deliver(data: Bytes)
      requires Valid() && !starter.AtNewProxy? && |writingBuf| < BACKLOG
      modifies this`writingBuf, this`state
      ensures Valid() && StepWriter(old(state), Arrives(data)) == Some(state)
    {
      writingBuf := writingBuf + [data];
      state := StepWriter(state, Arrives(data)).value;
    }

    /** case data := <-writingBuf, and the helper that writes it */
    method StartWrite()
      requires Valid() && writerPc.AtSelect? && |writingBuf| > 0
      modifies this`writerPc, this`writingBuf, this`writeHelpers, this`state
      ensures Valid() && StepWriter(old(state), WriterTakes) == Some(state)
    {
      writerPc, writeHelpers := Writing(|writeHelpers|), writeHelpers + [WriteHelper(writingBuf[0], false, None)];
      writingBuf := writingBuf[1..];
      state := StepWriter(state, WriterTakes).value;
    }

    /** The helper's conn.Write returns, having written the first `n` bytes. */
    method EndWrite(op: nat, n: nat, result: Error) returns (written: Bytes)
      requires Valid() && op < |writeHelpers| && !writeHelpers[op].finished && n <= |writeHelpers[op].data|
      requires result.None? ==> n == |writeHelpers[op].data| && !connClosed
      modifies this`writeHelpers, this`state
      ensures Valid() && StepWriter(old(state), WriteEnds(op, n, result)) == Some(state)
      ensures written == old(writeHelpers)[op].data[..n] && state.writer.socket == old(state).writer.socket + written
    {
      written := writeHelpers[op].data[..n];
      var err := if result == Some(ClosedPipe) then Some(EOF) else result;
      writeHelpers := writeHelpers[op := writeHelpers[op].(finished := true, slot := Some(err))];
      state := StepWriter(state, WriteEnds(op, n, result)).value;
    }

    /** case err := <-future */
    method TakeWriteResult()
      requires Valid() && writerPc.Writing? && writerPc.op < |writeHelpers| && writeHelpers[writerPc.op].slot.Some?
      modifies this`writerPc, this`writeHelpers, this`state
      ensures Valid() && StepWriter(old(state), WriterTakesResult) == Some(state)
    {
      var op := writerPc.op;
      var err := writeHelpers[op].slot.value;
      writeHelpers := writeHelpers[op := writeHelpers[op].(slot := None)];
      writerPc := if err == None then AtSelect else WriterFailing(err.value);
      state := StepWriter(state, WriterTakesResult).value;
    }

    /** case <-time.After(100 * time.Millisecond): the write stays under way */
    method TimeOutWrite()
      requires Valid() && writerPc.Writing?
      modifies this`writerPc, this`state
      ensures Valid() && StepWriter(old(state), WriterTimesOut) == Some(state)
    {
      writerPc := WriterFailing(TimedOut);
      state := StepWriter(state, WriterTimesOut).value;
    }

    method SignalWriteFailure()
      requires Valid() && writerPc.WriterFailing?
      modifies this`writerPc, this`eolSig, this`state
      ensures Valid() && StepWriter(old(state), WriterPushes) == Some(state)
    {
      WriterPushStep(state);
      var accepted := TrySendEoL(FromWriter, Some(writerPc.err));
      writerPc := if accepted then AtSelect else WriterExited;
      state := state.(writer := AfterWriterPush(state.writer, accepted));
    }

    /** case <-stopSigWrite */
    method StopWriting()
      requires Valid() && (writerPc.AtSelect? || writerPc.Writing?) && writeStopClosed
      modifies this`writerPc, this`state
      ensures Valid() && StepWriter(old(state), WriterStops) == Some(state)
    {
      writerPc := WriterExited;
      state := StepWriter(state, WriterStops).value;
    }

    // ----- one step of any goroutine -----

    method ExecuteStart(e: Event) returns (ok: bool)
      requires Valid() && IsStart(e)
      modifies this
      ensures Valid() && log == old(log) && (!ok ==> state == old(state))
      ensures StepStart(old(state), e) == if ok then Some(state) else None
    {
      ok := true;
      match e {
        case Build =>
          ok := starter.AtNewProxy?;
          if ok { NewProxy(); }
        case Insert =>
          ok := starter.AtInsert? && closing.Free?;
          if ok { InsertIntoMap(); }
        case StartOwner =>
          ok := starter.AtGo?;
          if ok {
            starter, owner := Started, Selecting;
            state := state.(starter := Started, owner := Selecting);
          }
        case CancelContext =>
          ctxDone := true;
          state := state.(ctxDone := true);
      }
    }

    method ExecuteCallback(e: Event) returns (ok: bool)
      requires Valid() && IsCallback(e)
      modifies this
      ensures Valid() && log == old(log) && (!ok ==> state == old(state))
      ensures StepCallback(old(state), e) == if ok then Some(state) else None
    {
      match e {
        case CallbackStarts =>
          ok := side.Listener? || starter.AtGo? || starter.Started?;
          if ok {
            CallbackBegins();
          }
        case CallbackLocks =>
          ok := callbacks.cleaning > 0 && closing.Free?;
          if ok { CallbackLooksUp(); }
        case CallbackPushes =>
          ok := callbacks.pushing > 0;
          if ok { CallbackSignals(); }
      }
    }

    method ExecuteOwner(e: Event) returns (ok: bool)
      requires Valid() && IsOwner(e)
      modifies this
      ensures Valid() && log == old(log) && (!ok ==> state == old(state))
      ensures StepOwner(old(state), e) == if ok then Some(state) else None
    {
      match e {
        case OwnerReceives =>
          ok := owner.Selecting? && eolSig.Some?;
          if ok { var _ := OwnerSelects(false); }
        case OwnerCanceled =>
          ok := owner.Selecting? && side.Listener? && ctxDone;
          if ok { var _ := OwnerSelects(true); }
        case OwnerLocks =>
          ok := owner.Cleaning? && closing.Free?;
          if ok { OwnerLooksUp(); }
        case OwnerClosesChannel =>
          ok := owner.ClosingChannel?;
          if ok { OwnerMoves(e); }
        case OwnerResolves =>
          ok := owner.Resolving?;
          if ok { OwnerMoves(e); }
      }
    }

    /** The statements of Close after the latch. */
    method CloseStatement(parked: bool)
      requires Valid() && closing.Closing? && !closing.stage.AtLatch?
      requires parked && closing.stage.AtSignalWrite? ==> writerPc.AtSelect? || writerPc.Writing?
      requires parked && closing.stage.AtSignalRead? ==> readerPc.Waiting?
      modifies this
      ensures Valid() && log == old(log) && StepClose(old(state), parked) == Some(state)
    {
      match closing.stage {
        case AtConn => CloseConn(parked);
        case AtSignalWrite => SignalWrite(parked);
        case AtSignalRead => SignalRead(parked);
        case AtCloseWrite => CloseWriteStop(parked);
        case AtCloseRead => CloseReadStop(parked);
      }
    }

    method ExecuteClose(signalled: bool) returns (ok: bool)
      requires Valid()
      modifies this
      ensures Valid() && log == old(log) && (!ok ==> state == old(state))
      ensures StepClose(old(state), signalled) == if ok then Some(state) else None
    {
      ok := closing.Closing?;
      if !ok {
        return;
      }
      if closing.stage.AtLatch? {
        var _ := PassLatch();
        return;
      }
      ok := (signalled && closing.stage.AtSignalWrite? ==> writerPc.AtSelect? || writerPc.Writing?)
            && (signalled && closing.stage.AtSignalRead? ==> readerPc.Waiting?);
      if ok {
        CloseStatement(signalled);
      }
    }

    method ExecuteReader(e: Event) returns (ok: bool)
      requires Valid() && IsReader(e)
      modifies this, readBuf
      ensures Valid() && log == old(log) && (!ok ==> state == old(state))
      ensures StepReader(old(state), e) == if ok then Some(state) else None
    {
      match e {
        case ReadStarts =>
          ok := readerPc.AtTop?;
          if ok { StartRead(); }
        case ReadGets(op, bytes) =>
          ok := op < |readHelpers| && readHelpers[op].at.InRead? && 0 < |bytes| <= CHUNK && !connClosed;
          if ok { ReadInto(op, bytes); }
        case ReadGetsNothing(op) =>
          ok := op < |readHelpers| && readHelpers[op].at.InRead? && !connClosed;
          if ok { EndRead(op, None); }
        case ReadFails(op, err) =>
          ok := op < |readHelpers| && readHelpers[op].at.InRead?;
          if ok { EndRead(op, Some(err)); }
        case SendEnds(op, result) =>
          ok := op < |readHelpers| && readHelpers[op].at.InSend? && readHelpers[op].at.n <= CHUNK;
          if ok { var _ := SendChunk(op, result); }
        case ReaderTakes =>
          ok := readerPc.Waiting? && readerPc.op < |readHelpers| && readHelpers[readerPc.op].slot.Some?;
          if ok { TakeReadResult(); }
        case ReaderStops =>
          ok := readerPc.Waiting? && readStopClosed;
          if ok { StopReading(); }
        case ReaderPushes =>
          ok := readerPc.ReaderFailing?;
          if ok { SignalReadFailure(); }
      }
    }

    method ExecuteWriter(e: Event) returns (ok: bool)
      requires Valid() && IsWriterEvent(e)
      modifies this
      ensures Valid() && log == old(log) && (!ok ==> state == old(state))
      ensures StepWriter(old(state), e) == if ok then Some(state) else None
    {
      match e {
        case Arrives(data) =>
          ok := !starter.AtNewProxy? && |writingBuf| < BACKLOG;
          if ok { Deliver(data); }
        case WriterTakes =>
          ok := writerPc.AtSelect? && |writingBuf| > 0;
          if ok { StartWrite(); }
        case WriteEnds(op, n, result) =>
          ok := op < |writeHelpers| && !writeHelpers[op].finished && n <= |writeHelpers[op].data|
                && (result.None? ==> n == |writeHelpers[op].data|) && (connClosed ==> result.Some?);
          if ok { var _ := EndWrite(op, n, result); }
        case WriterTakesResult =>
          ok := writerPc.Writing? && writerPc.op < |writeHelpers| && writeHelpers[writerPc.op].slot.Some?;
          if ok { TakeWriteResult(); }
        case WriterTimesOut =>
          ok := writerPc.Writing?;
          if ok { TimeOutWrite(); }
        case WriterStops =>
          ok := (writerPc.AtSelect? || writerPc.Writing?) && writeStopClosed;
          if ok { StopWriting(); }
        case WriterPushes =>
          ok := writerPc.WriterFailing?;
          if ok { SignalWriteFailure(); }
      }
    }

    /** Records the step that led from `s` to here. */
    ghost method Record(who: nat, e: Event, s: State)
      requires Recorded(Step, Init(side), log, s) && Inv(s) && Step(s, e) == Some(state)
      modifies this`log
      ensures Logged() && log == old(log) + [By(who, e)]
    {
      RecordedStep(Step, Init(side), log, s, By(who, e), state);
      InvStep(s, e);
      log := log + [By(who, e)];
    }

    /** One scheduled step of any goroutine, if it can run now. */
    method Execute(x: By<Event>) returns (ok: bool)
      requires Valid() && Logged()
      modifies this, readBuf
      ensures Valid() && Logged()
      ensures Step(old(state), x.e) == if ok then Some(state) else None
      ensures if ok then log == old(log) + [x] else state == old(state) && log == old(log)
    {
      ghost var s := state;
      ok := ExecuteEvent(x.e);
      if ok {
        Record(x.who, x.e, s);
      }
    }

    method ExecuteEvent(e: Event) returns (ok: bool)
      requires Valid()
      modifies this, readBuf
      ensures Valid() && log == old(log) && (!ok ==> state == old(state))
      ensures Step(old(state), e) == if ok then Some(state) else None
    {
      if IsStart(e) { ok := ExecuteStart(e); }
      else if IsCallback(e) { ok := ExecuteCallback(e); }
      else if IsOwner(e) { ok := ExecuteOwner(e); }
      else if e.CloseStep? { ok := ExecuteClose(e.signalled); }
      else if IsReader(e) { ok := ExecuteReader(e); }
      else { ok := ExecuteWriter(e); }
    }

    /** Any schedule run on the object does what the run of the step function does. */
    method ExecuteAll(es: seq<By<Event>>) returns (ok: bool, ghost done: nat)
      requires Valid() && Logged()
      modifies this, readBuf
      ensures Valid() && Logged()
      ensures (ok <==> Run(Step, old(state), Events(es)).Some?) && (ok ==> done == |es|)
      ensures done <= |es| && log == old(log) + es[..done] && Run(Step, old(state), Events(es[..done])) == Some(state)
    {
      ghost var start := state;
      assert es[0..] == es && es[..0] == [] && log + [] == log;
      for i := 0 to |es|
        invariant Valid() && Logged() && log == old(log) + es[..i]
        invariant Run(Step, start, Events(es[..i])) == Some(state)
        invariant Run(Step, start, Events(es)) == Run(Step, state, Events(es[i..]))
      {
        ScheduleAt(Step, start, es, i, state, old(log));
        done := i;
        ok := Execute(es[i]);
        if !ok { return; }
      }
      ok, done := true, |es|;
      assert es[..done] == es;
    }

    // ----- the other goroutines -----

    /** Whatever steps the other goroutines take, any number of them; `mine` are the caller's own. */
    method Interfere(me: nat, mine: Event -> bool, ghost c: Call<Event>) returns (ghost es: seq<Event>)
      requires Valid() && Logged() && c.me == me && SoFar(c, log)
      modifies this, readBuf
      ensures Valid() && Logged() && SoFar(c, log) && Run(Step, old(state), es) == Some(state)
      ensures forall i | 0 <= i < |es| :: !mine(es[i])
    {
      var schedule: seq<By<Event>> := *;
      es := [];
      if forall i | 0 <= i < |schedule| :: schedule[i].who != me && !mine(schedule[i].e) {
        var _, done := ExecuteAll(schedule);
        CallWaits(c, old(log), schedule[..done]);
        es := Events(schedule[..done]);
      }
    }

    /** The others run while the caller is inside Close. */
    method OthersRunDuringClose(me: nat, ghost c: Call<Event>)
      requires Valid() && Logged() && closing.Closing? && c.me == me && SoFar(c, log)
      modifies this, readBuf
      ensures Valid() && Logged() && SoFar(c, log) && state.down == old(state).down
      ensures old(owner).InClose? ==> owner == old(owner)
    {
      ghost var s := state;
      ghost var es := Interfere(me, (e: Event) => e.CloseStep?, c);
      LockKeepsOthersOut(s, es, state);
    }

    /** The others run, then the next statement of Close. */
    method NextStatement(me: nat, ghost c: Call<Event>) returns (parked: bool)
      requires Valid() && Logged() && closing.Closing? && !closing.stage.AtLatch? && c.me == me && SoFar(c, log)
      modifies this, readBuf
      ensures Valid() && Logged() && SoFar(Then(c, CloseStep(parked)), log) && state.down.latch == 1
      ensures closing == After(old(closing))
      ensures parked ==> old(closing).stage.AtSignalWrite? || old(closing).stage.AtSignalRead?
      ensures old(owner).InClose? ==> owner == if closing.Free? then ClosingChannel(old(owner).err) else old(owner)
    {
      OthersRunDuringClose(me, c);
      parked := *;
      parked := parked && ((closing.stage.AtSignalWrite? && (writerPc.AtSelect? || writerPc.Writing?))
                           || (closing.stage.AtSignalRead? && readerPc.Waiting?));
      OwnStatement(me, parked, c);
    }

    method OwnStatement(me: nat, parked: bool, ghost c: Call<Event>)
      requires Valid() && Logged() && closing.Closing? && !closing.stage.AtLatch? && c.me == me && SoFar(c, log)
      requires parked && closing.stage.AtSignalWrite? ==> writerPc.AtSelect? || writerPc.Writing?
      requires parked && closing.stage.AtSignalRead? ==> readerPc.Waiting?
      modifies this
      ensures Valid() && Logged() && SoFar(Then(c, CloseStep(parked)), log) && state.down.latch == 1
      ensures closing == After(old(closing))
      ensures old(owner).InClose? ==> owner == if closing.Free? then ClosingChannel(old(owner).err) else old(owner)
    {
      ghost var s := state;
      CallActs(c, log, CloseStep(parked));
      CloseStatement(parked);
      CloseAdvances(s, parked);
      Record(me, CloseStep(parked), s);
    }

    /** Close runs to its end, whatever happens in between: it is not refused by the latch, and it leaves
        the connection and both stop channels closed, once. Its own steps are its six statements. */
    method Close(me: nat, ghost c: Call<Event>) returns (ok: bool, write: bool, read: bool)
      requires Valid() && Logged() && closing.Closing? && closing.stage.AtLatch? && c.me == me && SoFar(c, log)
      modifies this, readBuf
      ensures Valid() && Logged() && SoFar(c.(own := c.own + CloseCall(write, read)), log)
      ensures ok && closing.Free? && connClosed && writeStopClosed && readStopClosed && !panicked
      ensures FullyClosed(state.down)
      ensures old(owner).InClose? ==> owner == ClosingChannel(old(owner).err)
    {
      ok := EnterClose(me, c);
      ghost var d := Then(c, CloseStep(false));
      write, read := CloseAndSignal(me, d);
      d := Then(Then(Then(d, CloseStep(false)), CloseStep(write)), CloseStep(read));
      var _ := NextStatement(me, d);                              // close(stopSigWrite)
      var _ := NextStatement(me, Then(d, CloseStep(false)));      // close(stopSigRead)
      CloseCallDone(c, write, read);
    }

    /** The latch is still free. */
    method EnterClose(me: nat, ghost c: Call<Event>) returns (ok: bool)
      requires Valid() && Logged() && closing.Closing? && closing.stage.AtLatch? && c.me == me && SoFar(c, log)
      modifies this
      ensures Valid() && Logged() && SoFar(Then(c, CloseStep(false)), log)
      ensures ok && closing == Closing(old(closing).who, AtConn) && owner == old(owner)
    {
      ghost var s := state;
      CallActs(c, log, CloseStep(false));
      ok := PassLatch();
      Record(me, CloseStep(false), s);
    }

    /** conn.Close() and the two stop signals. */
    method CloseAndSignal(me: nat, ghost c: Call<Event>) returns (write: bool, read: bool)
      requires Valid() && Logged() && closing.Closing? && closing.stage.AtConn? && c.me == me && SoFar(c, log)
      modifies this, readBuf
      ensures Valid() && Logged() && closing == Closing(old(closing).who, AtCloseWrite)
      ensures SoFar(Then(Then(Then(c, CloseStep(false)), CloseStep(write)), CloseStep(read)), log)
      ensures old(owner).InClose? ==> owner == old(owner)
    {
      var _ := NextStatement(me, c);                              // conn.Close()
      ghost var d := Then(c, CloseStep(false));
      write := NextStatement(me, d);                              // signal the writing loop
      read := NextStatement(me, Then(d, CloseStep(write)));       // signal the reading loop
    }

    // ----- the owner goroutine -----

    /** The others run while the owner stands still. */
    method OthersRunBesideOwner(me: nat, ghost c: Call<Event>)
      requires Valid() && Logged() && !owner.InClose? && !owner.NotStarted? && c.me == me && SoFar(c, log)
      modifies this, readBuf
      ensures Valid() && Logged() && SoFar(c, log)
      ensures owner == old(owner) && CloseRank(state.down) <= CloseRank(old(state).down)
    {
      ghost var s := state;
      ghost var es := Interfere(me, (e: Event) => IsOwner(e), c);
      OwnerStandsStill(s, es, state);
    }

    /** The lock is held only while somebody is inside Close, which comes to its end. */
    method AwaitLock(me: nat, ghost c: Call<Event>)
      requires Valid() && Logged() && owner.Cleaning? && c.me == me && SoFar(c, log)
      modifies this, readBuf
      ensures Valid() && Logged() && SoFar(c, log) && owner == old(owner) && closing.Free?
    {
      OthersRunBesideOwner(me, c);
      while !closing.Free?
        invariant Valid() && Logged() && SoFar(c, log) && owner == old(owner)
        decreases CloseRank(state.down)
      {
        HolderMoves(me, c);
        if !closing.Free? {
          OthersRunBesideOwner(me, c);
        }
      }
    }

    /** The holder of the lock, which is another goroutine, executes its next statement. */
    method HolderMoves(me: nat, ghost c: Call<Event>)
      requires Valid() && Logged() && owner.Cleaning? && closing.Closing? && c.me == me && SoFar(c, log)
      modifies this, readBuf
      ensures Valid() && Logged() && SoFar(c, log)
      ensures owner == old(owner) && CloseRank(state.down) < CloseRank(old(state).down)
    {
      var parked: bool := *;
      parked := parked && (closing.stage.AtSignalWrite? ==> writerPc.AtSelect? || writerPc.Writing?)
                       && (closing.stage.AtSignalRead? ==> readerPc.Waiting?);
      CallWaits(c, log, [By(me + 1, CloseStep(parked))]);
      HolderStatement(me + 1, parked);
    }

    method HolderStatement(holder: nat, parked: bool)
      requires Valid() && Logged() && owner.Cleaning? && closing.Closing?
      requires parked && closing.stage.AtSignalWrite? ==> writerPc.AtSelect? || writerPc.Writing?
      requires parked && closing.stage.AtSignalRead? ==> readerPc.Waiting?
      modifies this, readBuf
      ensures Valid() && Logged() && log == old(log) + [By(holder, CloseStep(parked))]
      ensures owner == old(owner) && CloseRank(state.down) < CloseRank(old(state).down)
    {
      ghost var s := state;
      var _ := ExecuteClose(parked);
      HolderAdvances(s, parked);
      Record(holder, CloseStep(parked), s);
    }

    /** cleanupProxy by the owner, or on the agent's side Close alone: afterwards the proxy is out of the map
        and closed, by this call or by a callback before it. */
    method OwnerCleansUp(me: nat, ghost c: Call<Event>) returns (ghost own: seq<Event>)
      requires Valid() && Logged() && owner.Cleaning? && c.me == me && SoFar(c, log)
      modifies this, readBuf
      ensures Valid() && Logged() && owner == ClosingChannel(old(owner).err)
      ensures IsCleanup(own) && SoFar(c.(own := c.own + own), log)
    {
      AwaitLock(me, c);
      ghost var s := state;
      CallActs(c, log, OwnerLocks);
      OwnerLooksUp();
      Record(me, OwnerLocks, s);
      own := [OwnerLocks];
      if owner.InClose? {
        OwnerInCloseHolds(state);
        ghost var d := Then(c, OwnerLocks);
        var _, write, read := Close(me, d);
        own := own + CloseCall(write, read);
        CleanupCloses(c, write, read);
      }
    }

    /** dataChannel.Close() and closed.Resolve(err) */
    method OwnerEnds(me: nat, ghost c: Call<Event>)
      requires Valid() && Logged() && owner.ClosingChannel? && c.me == me && SoFar(c, log)
      modifies this, readBuf
      ensures Valid() && Logged() && owner == Resolved(old(owner).err)
      ensures SoFar(Then(Then(c, OwnerClosesChannel), OwnerResolves), log)
    {
      OwnerStep(me, OwnerClosesChannel, c);
      OwnerStep(me, OwnerResolves, Then(c, OwnerClosesChannel));
    }

    method OwnerStep(me: nat, e: Event, ghost c: Call<Event>)
      requires Valid() && Logged() && (e.OwnerClosesChannel? || e.OwnerResolves?) && c.me == me && SoFar(c, log)
      requires if e.OwnerClosesChannel? then owner.ClosingChannel? else owner.Resolving?
      modifies this, readBuf
      ensures Valid() && Logged() && SoFar(Then(c, e), log)
      ensures owner == if e.OwnerClosesChannel? then Resolving(old(owner).err) else Resolved(old(owner).err)
    {
      OthersRunBesideOwner(me, c);
      ghost var s := state;
      CallActs(c, log, e);
      OwnerMoves(e);
      Record(me, e, s);
    }

    /** The whole goroutine: it waits for the end-of-life signal or, on the listener's side, the context, then
        cleans up, closes the data channel and resolves `closed`. False means that neither has come yet.
        Whatever else runs in between, at the end the proxy is out of the map and has been closed, once. Of
        all the steps recorded meanwhile, exactly those of `own` are the owner's. */
    method RunOwner(me: nat, preferContext: bool) returns (left: bool, err: Error, ghost own: seq<Event>)
      requires Valid() && Logged() && owner.Selecting?
      modifies this, readBuf
      ensures Valid() && Logged() && Wrote(old(log), own, log, me) && IsOwnerCall(left, err, own)
      ensures !left ==> owner.Selecting? && eolSig.None? && !(side.Listener? && ctxDone)
      ensures left ==> owner == Resolved(err) && !inMap && connClosed && !panicked
      ensures left ==> FullyClosed(state.down) && state.eol.received <= 1
    {
      CallStarts(me, log);
      ghost var c := Call(me, log, []);
      OthersRunBesideOwner(me, c);
      left := eolSig.Some? || (side.Listener? && ctxDone);
      err, own := None, [];
      if left {
        ghost var first;
        err, first := OwnerLeavesSelect(me, preferContext, c);
        ghost var d := Then(c, first);
        ghost var cleanup := OwnerCleansUp(me, d);
        OwnerEnds(me, d.(own := d.own + cleanup));
        own := [first] + cleanup + [OwnerClosesChannel, OwnerResolves];
        OwnerCallDone(c, first, cleanup);
        ResolvedMeansClosed(state);
      }
    }

    method OwnerLeavesSelect(me: nat, preferContext: bool, ghost c: Call<Event>)
      returns (err: Error, ghost first: Event)
      requires Valid() && Logged() && owner.Selecting? && c.me == me && SoFar(c, log)
      requires eolSig.Some? || (side.Listener? && ctxDone)
      modifies this`owner, this`eolSig, this`state, this`log
      ensures Valid() && Logged() && SoFar(Then(c, first), log) && owner == Cleaning(err)
      ensures first.OwnerReceives? || (first.OwnerCanceled? && err == Some(Canceled))
    {
      ghost var s := state;
      var byContext := OwnerSelects(preferContext);
      first := if byContext then OwnerCanceled else OwnerReceives;
      CallActs(c, log, first);
      Record(me, first, s);
      err := owner.err;
    }

    // ----- the loops on a closed connection -----

    /** The others run after the connection has been closed. */
    method OthersRun(me: nat, mine: Event -> bool, ghost c: Call<Event>)
      requires Valid() && Logged() && connClosed && c.me == me && SoFar(c, log)
      modifies this, readBuf
      ensures Valid() && Logged() && SoFar(c, log) && connClosed && (old(writeStopClosed) ==> writeStopClosed)
      ensures ReaderMeasure(state) <= ReaderMeasure(old(state)) && WriterMeasure(state) <= WriterMeasure(old(state))
    {
      ghost var s := state;
      ghost var es := Interfere(me, mine, c);
      MeasuresKept(s, es, state);
    }

    /** The rest of readingLoop, from wherever it stands when the connection has been closed: it ends, after
        at most three failing iterations in its lifetime, whatever the other goroutines do meanwhile. Its own
        steps are those of the loop and its helper, at most as many as the measure allowed for. */
    method ReadingLoop(me: nat) returns (ghost own: seq<Event>)
      requires Valid() && Logged() && connClosed
      modifies this, readBuf
      ensures Valid() && Logged() && connClosed && readerPc.ReaderExited? && state.reader.failures <= 3
      ensures Wrote(old(log), own, log, me) && |own| <= ReaderMeasure(old(state)) && forall e | e in own :: IsReader(e)
    {
      CallStarts(me, log);
      ghost var c := Call(me, log, []);
      while !readerPc.ReaderExited?
        invariant Valid() && Logged() && connClosed && ReadingOn(c, me, old(log), ReaderMeasure(old(state)))
        decreases ReaderMeasure(state)
      {
        c := ReaderRound(me, c, old(log), ReaderMeasure(old(state)));
      }
      own := c.own;
      FailuresBounded(state);
    }

    /** The steps of the loop so far, within its budget. */
    ghost predicate ReadingOn(c: Call<Event>, me: nat, start: seq<By<Event>>, budget: nat)
      reads this
    {
      && c.me == me && c.start == start && SoFar(c, log)
      && |c.own| + ReaderMeasure(state) <= budget && forall e | e in c.own :: IsReader(e)
    }

    /** Others run, then the loop or its helper takes a step. */
    method ReaderRound(me: nat, ghost c: Call<Event>, ghost start: seq<By<Event>>, ghost budget: nat)
      returns (ghost d: Call<Event>)
      requires Valid() && Logged() && connClosed && !readerPc.ReaderExited? && ReadingOn(c, me, start, budget)
      modifies this, readBuf
      ensures Valid() && Logged() && connClosed && ReadingOn(d, me, start, budget)
      ensures readerPc.ReaderExited? || ReaderMeasure(state) < ReaderMeasure(old(state))
    {
      OthersRun(me, (e: Event) => IsReader(e), c);
      d := c;
      if !readerPc.ReaderExited? {
        ghost var mine := ReaderTurn(me, c);
        d := Then(c, mine);
      }
    }

    method ReaderTurn(me: nat, ghost c: Call<Event>) returns (ghost mine: Event)
      requires Valid() && Logged() && connClosed && !readerPc.ReaderExited? && c.me == me && SoFar(c, log)
      modifies this, readBuf
      ensures Valid() && Logged() && connClosed && IsReader(mine) && SoFar(Then(c, mine), log)
      ensures ReaderMeasure(state) < ReaderMeasure(old(state))
    {
      ghost var s := state;
      mine := ReaderIteration();
      CallActs(c, log, mine);
      ReaderMoved(s, mine, state);
      Record(me, mine, s);
    }

    /** One statement of the loop or of its helper, on a closed connection. */
    method ReaderIteration() returns (ghost mine: Event)
      requires Valid() && OneRead(state.reader) && Born(state) && OwnershipOk(state)
      requires connClosed && !readerPc.ReaderExited?
      requires forall i | 0 <= i < |readHelpers| && readHelpers[i].at.InSend? :: readHelpers[i].at.n <= CHUNK
      modifies this, readBuf
      ensures Valid() && log == old(log) && IsReader(mine) && StepReader(old(state), mine) == Some(state)
    {
      var choose: bool := *;
      match readerPc {
        case AtTop =>
          StartRead();
          mine := ReadStarts;
        case ReaderFailing(_) =>
          SignalReadFailure();
          mine := ReaderPushes;
        case Waiting(op) =>
          if choose && readStopClosed {
            StopReading();
            mine := ReaderStops;
          } else {
            mine := HelperMoves(op);
          }
      }
    }

    /** The helper's next statement, or the receive of its result. */
    method HelperMoves(op: nat) returns (ghost mine: Event)
      requires Valid() && readerPc == Waiting(op) && op < |readHelpers|
      requires readHelpers[op].at.Finished? ==> readHelpers[op].slot.Some?
      requires readHelpers[op].at.InSend? ==> readHelpers[op].at.n <= CHUNK
      modifies this`readerPc, this`readHelpers, this`state
      ensures Valid() && IsReader(mine) && StepReader(old(state), mine) == Some(state)
    {
      match readHelpers[op].at {
        case InRead =>
          var err: Err := *;
          EndRead(op, Some(err));
          mine := ReadFails(op, err);
        case InSend(n) =>
          var result: Error := *;
          var _ := SendChunk(op, result);
          mine := SendEnds(op, result);
        case Finished =>
          TakeReadResult();
          mine := ReaderTakes;
      }
    }

    /** The rest of writingLoop once Close has closed its stop channel: it ends, after at most three failing
        iterations in its lifetime, even while messages keep arriving. Its own steps are those of the loop and
        of the helper it waits for, at most as many as the measure allowed for. */
    method WritingLoop(me: nat) returns (ghost own: seq<Event>)
      requires Valid() && Logged() && connClosed && writeStopClosed
      modifies this, readBuf
      ensures Valid() && Logged() && connClosed && writerPc.WriterExited? && state.writer.failures <= 3
      ensures Wrote(old(log), own, log, me) && |own| <= WriterMeasure(old(state)) && forall e | e in own :: OfWriter(e)
    {
      CallStarts(me, log);
      ghost var c := Call(me, log, []);
      while !writerPc.WriterExited?
        invariant Valid() && Logged() && connClosed && writeStopClosed
        invariant WritingOn(c, me, old(log), WriterMeasure(old(state)))
        decreases WriterMeasure(state)
      {
        c := WriterRound(me, c, old(log), WriterMeasure(old(state)));
      }
      own := c.own;
      FailuresBounded(state);
    }

    ghost predicate WritingOn(c: Call<Event>, me: nat, start: seq<By<Event>>, budget: nat)
      reads this
    {
      && c.me == me && c.start == start && SoFar(c, log)
      && |c.own| + WriterMeasure(state) <= budget && forall e | e in c.own :: OfWriter(e)
    }

    method WriterRound(me: nat, ghost c: Call<Event>, ghost start: seq<By<Event>>, ghost budget: nat)
      returns (ghost d: Call<Event>)
      requires Valid() && Logged() && connClosed && writeStopClosed && !writerPc.WriterExited?
      requires WritingOn(c, me, start, budget)
      modifies this, readBuf
      ensures Valid() && Logged() && connClosed && writeStopClosed && WritingOn(d, me, start, budget)
      ensures writerPc.WriterExited? || WriterMeasure(state) < WriterMeasure(old(state))
    {
      OthersRun(me, (e: Event) => MovesLoop(e), c);
      d := c;
      if !writerPc.WriterExited? {
        ghost var mine := WriterTurn(me, c);
        d := Then(c, mine);
      }
    }

    method WriterTurn(me: nat, ghost c: Call<Event>) returns (ghost mine: Event)
      requires Valid() && Logged() && connClosed && writeStopClosed && !writerPc.WriterExited?
      requires c.me == me && SoFar(c, log)
      modifies this, readBuf
      ensures Valid() && Logged() && connClosed && writeStopClosed && OfWriter(mine) && SoFar(Then(c, mine), log)
      ensures WriterMeasure(state) < WriterMeasure(old(state))
    {
      ghost var s := state;
      mine := WriterIteration();
      CallActs(c, log, mine);
      Record(me, mine, s);
      WriterDecreases(s, mine);
      StopsKept(s, mine);
    }

    method WriterIteration() returns (ghost mine: Event)
      requires Valid() && TakesInOrder(state.writer) && Born(state) && OwnershipOk(state)
      requires connClosed && writeStopClosed && !writerPc.WriterExited?
      modifies this
      ensures Valid() && log == old(log) && OfWriter(mine) && IsWriter(old(state).writer, mine)
      ensures StepWriter(old(state), mine) == Some(state)
    {
      var choose: bool := *;
      match writerPc {
        case AtSelect =>
          if choose && |writingBuf| > 0 {
            StartWrite();
            mine := WriterTakes;
          } else {
            StopWriting();
            mine := WriterStops;
          }
        case WriterFailing(_) =>
          SignalWriteFailure();
          mine := WriterPushes;
        case Writing(op) =>
          if choose {
            StopWriting();
            mine := WriterStops;
          } else {
            mine := WriteMoves(op);
          }
      }
    }

    /** The select around a write in progress: its result, its 100 ms, or meanwhile the write itself ends. */
    method WriteMoves(op: nat) returns (ghost mine: Event)
      requires Valid() && writerPc == Writing(op) && op < |writeHelpers| && connClosed
      requires writeHelpers[op].finished ==> writeHelpers[op].slot.Some?
      modifies this`writerPc, this`writeHelpers, this`state
      ensures Valid() && OfWriter(mine) && IsWriter(old(state).writer, mine)
      ensures StepWriter(old(state), mine) == Some(state)
    {
      var late: bool := *;
      if late {
        TimeOutWrite();
        mine := WriterTimesOut;
      } else if writeHelpers[op].finished {
        TakeWriteResult();
        mine := WriterTakesResult;
      } else {
        var n: nat, err: Err := *, *;
        n := if n <= |writeHelpers[op].data| then n else 0;
        var _ := EndWrite(op, n, Some(err));
        mine := WriteEnds(op, n, Some(err));
      }
    }
  }

  // ----- steps with an outcome -----

  function ReadEnds(op: nat, failure: Error): Event {
    if failure.None? then ReadGetsNothing(op) else ReadFails(op, failure.value)
  }

  function ReadStopped(d: Teardown): Teardown {
    d.(misuse := d.misuse || d.readStops > 0, readStops := d.readStops + 1, closing := Free)
  }

  function CallbacksAfter(c: Callbacks, who: Closer): Callbacks {
    if who.ByCallback? then c.(pushing := c.pushing + 1) else c
  }

  function OwnerAfter(o: Owner, who: Closer): Owner {
    if who.ByOwner? && o.InClose? then ClosingChannel(o.err) else o
  }

  lemma ReadStopStep(s: State, parked: bool)
    requires s.down.closing.Closing? && s.down.closing.stage.AtCloseRead?
    ensures StepClose(s, parked) ==
            Some(s.(down := ReadStopped(s.down), callbacks := CallbacksAfter(s.callbacks, s.down.closing.who),
                    owner := OwnerAfter(s.owner, s.down.closing.who)))
  {
  }

  function AfterTaking(r: Reader, op: nat, err: Error): Reader
    requires op < |r.ops|
  {
    var t := r.(ops := r.ops[op := ReadTaken]);
    if err.None? then t.(pc := AtTop) else t.(pc := ReaderFailing(LoopError(err.value)), failures := r.failures + 1)
  }

  lemma ReaderTakeStep(s: State, op: nat, err: Error, helpers: seq<ReadHelper>, buf: Bytes)
    requires ReaderMatches(s.reader, Waiting(op), helpers, buf) && op < |helpers| && helpers[op].slot == Some(err)
    ensures op < |s.reader.ops| && StepReader(s, ReaderTakes) == Some(s.(reader := AfterTaking(s.reader, op, err)))
    ensures var r := AfterTaking(s.reader, op, err);
            ReaderMatches(r, r.pc, helpers[op := helpers[op].(slot := None)], buf)
  {
  }

  function AfterPush(r: Reader, accepted: bool): Reader {
    if accepted then r.(pc := AtTop) else r.(pc := ReaderExited, rejected := true)
  }

  lemma ReaderPushStep(s: State)
    requires s.reader.pc.ReaderFailing?
    ensures StepReader(s, ReaderPushes) ==
            Some(s.(eol := Pushed(s.eol, FromReader, Some(s.reader.pc.err)),
                    reader := AfterPush(s.reader, Accepts(s.eol))))
  {
  }

  function AfterWriterPush(w: Writer, accepted: bool): Writer {
    if accepted then w.(pc := AtSelect) else w.(pc := WriterExited, rejected := true)
  }

  lemma WriterPushStep(s: State)
    requires s.writer.pc.WriterFailing?
    ensures StepWriter(s, WriterPushes) ==
            Some(s.(eol := Pushed(s.eol, FromWriter, Some(s.writer.pc.err)),
                    writer := AfterWriterPush(s.writer, Accepts(s.eol))))
  {
  }

  // ----- the steps of a call -----

  /** The six statements of Close; `write` and `read` say whether each loop was found at its select. */
  function CloseCall(write: bool, read: bool): seq<Event> {
    [CloseStep(false), CloseStep(false), CloseStep(write), CloseStep(read), CloseStep(false), CloseStep(false)]
  }

  lemma CloseCallDone(c: Call<Event>, write: bool, read: bool)
    ensures var d := Then(Then(Then(Then(c, CloseStep(false)), CloseStep(false)), CloseStep(write)), CloseStep(read));
            Then(Then(d, CloseStep(false)), CloseStep(false)) == c.(own := c.own + CloseCall(write, read))
  {
  }

  /** The owner's clean-up: the look-up, and Close unless a callback had it. */
  ghost predicate IsCleanup(es: seq<Event>) {
    es == [OwnerLocks] || exists write, read :: es == [OwnerLocks] + CloseCall(write, read)
  }

  lemma CleanupCloses(c: Call<Event>, write: bool, read: bool)
    ensures Then(c, OwnerLocks).(own := Then(c, OwnerLocks).own + CloseCall(write, read)) ==
            c.(own := c.own + ([OwnerLocks] + CloseCall(write, read)))
  {
  }

  /** The owner's steps: nothing while it waits, else its select, its clean-up, and its end. */
  ghost predicate IsOwnerCall(left: bool, err: Error, es: seq<Event>) {
    if !left then es == []
    else exists first, cleanup ::
      && es == [first] + cleanup + [OwnerClosesChannel, OwnerResolves] && IsCleanup(cleanup)
      && (first == OwnerReceives || (first == OwnerCanceled && err == Some(Canceled)))
  }

  lemma OwnerCallDone(c: Call<Event>, first: Event, cleanup: seq<Event>)
    requires c.own == []
    ensures var d := Then(c, first);
            Then(Then(d.(own := d.own + cleanup), OwnerClosesChannel), OwnerResolves) ==
            c.(own := [first] + cleanup + [OwnerClosesChannel, OwnerResolves])
  {
    assert c.own + [first] == [first];
  }

  lemma ReaderMoved(s: State, e: Event, t: State)
    requires Inv(s) && s.down.connClosed && !s.reader.pc.ReaderExited? && IsReader(e) && StepReader(s, e) == Some(t)
    ensures Step(s, e) == Some(t) && t.down.connClosed && ReaderMeasure(t) < ReaderMeasure(s)
  {
    ReaderDecreases(s, e);
  }

  /** The steps of the writing loop and its helpers. */
  predicate OfWriter(e: Event) {
    MovesLoop(e) || e.WriteEnds?
  }

  /** Where Close stands after the statement at hand. */
  function After(c: Closing): Closing
    requires c.Closing?
  {
    match c.stage
    case AtLatch => Closing(c.who, AtConn)
    case AtConn => Closing(c.who, AtSignalWrite)
    case AtSignalWrite => Closing(c.who, AtSignalRead)
    case AtSignalRead => Closing(c.who, AtCloseWrite)
    case AtCloseWrite => Closing(c.who, AtCloseRead)
    case AtCloseRead => Free
  }

  lemma CloseAdvances(s: State, parked: bool)
    requires Inv(s) && s.down.closing.Closing? && !s.down.closing.stage.AtLatch? && StepClose(s, parked).Some?
    ensures var t := StepClose(s, parked).value;
            && Inv(t) && t.down.closing == After(s.down.closing) && t.down.latch == 1
            && (s.owner.InClose? ==> t.owner == if t.down.closing.Free? then ClosingChannel(s.owner.err) else s.owner)
  {
    InvStep(s, CloseStep(parked));
    CloseMoves(s, parked);
  }

  lemma CloseMoves(s: State, parked: bool)
    requires TeardownOk(s.down) && OwnershipOk(s) && s.down.closing.Closing? && !s.down.closing.stage.AtLatch?
    requires StepClose(s, parked).Some?
    ensures var t := StepClose(s, parked).value;
            && t.down.closing == After(s.down.closing) && t.down.latch == 1
            && (s.owner.InClose? ==> t.owner == if t.down.closing.Free? then ClosingChannel(s.owner.err) else s.owner)
  {
  }

  /** How many statements of Close can still be executed, by whoever is or will be inside. */
  function CloseRank(d: Teardown): nat {
    (if d.inMap then 7 else 0) +
    match d.closing
    case Free => 0
    case Closing(_, AtLatch) => 6
    case Closing(_, AtConn) => 5
    case Closing(_, AtSignalWrite) => 4
    case Closing(_, AtSignalRead) => 3
    case Closing(_, AtCloseWrite) => 2
    case Closing(_, AtCloseRead) => 1
  }

  lemma HolderAdvances(s: State, parked: bool)
    requires Inv(s) && s.owner.Cleaning? && StepClose(s, parked).Some?
    ensures var t := StepClose(s, parked).value;
            Inv(t) && t.owner == s.owner && CloseRank(t.down) < CloseRank(s.down)
  {
    InvStep(s, CloseStep(parked));
    HolderRank(s, parked);
  }

  lemma HolderRank(s: State, parked: bool)
    requires OwnershipOk(s) && s.owner.Cleaning? && StepClose(s, parked).Some?
    ensures var t := StepClose(s, parked).value; t.owner == s.owner && CloseRank(t.down) < CloseRank(s.down)
  {
  }

  lemma ResolvedMeansClosed(s: State)
    requires Inv(s) && s.owner.Resolved?
    ensures !s.down.inMap && FullyClosed(s.down) && !s.down.misuse && s.eol.received <= 1
  {
  }

  lemma OwnerInCloseHolds(s: State)
    requires Inv(s) && s.owner.InClose?
    ensures s.down.closing.Closing?
  {
  }

  lemma OwnerStandsStillStep(s: State, e: Event)
    requires OwnershipOk(s) && !s.owner.InClose? && !s.owner.NotStarted? && !IsOwner(e) && Step(s, e).Some?
    ensures Step(s, e).value.owner == s.owner && CloseRank(Step(s, e).value.down) <= CloseRank(s.down)
  {
    if IsReader(e) || IsWriterEvent(e) {
      LoopsFrame(s, e);
    }
  }

  /** Only the owner's own steps move it, and the others use up statements of Close. */
  lemma {:induction false} OwnerStandsStill(s: State, es: seq<Event>, t: State)
    requires Inv(s) && !s.owner.InClose? && !s.owner.NotStarted? && Run(Step, s, es) == Some(t)
    requires forall i | 0 <= i < |es| :: !IsOwner(es[i])
    ensures Inv(t) && t.owner == s.owner && CloseRank(t.down) <= CloseRank(s.down)
    decreases |es|
  {
    if |es| > 0 {
      InvStep(s, es[0]);
      OwnerStandsStillStep(s, es[0]);
      OwnerStandsStill(Step(s, es[0]).value, es[1..], t);
    }
  }

  /** The writing loop's own steps. */
  predicate MovesLoop(e: Event) {
    e.WriterTakes? || e.WriterTakesResult? || e.WriterTimesOut? || e.WriterStops? || e.WriterPushes?
  }

  lemma FailuresBounded(s: State)
    requires Inv(s)
    ensures s.reader.failures <= 3 && s.writer.failures <= 3
  {
  }

  // ----- rely -----

  /** While somebody is inside Close nobody else touches what it works on. */
  lemma {:induction false} DownKept(s: State, es: seq<Event>, t: State)
    requires s.down.closing.Closing? && (s.owner.InClose? ==> s.starter.Started?) && Run(Step, s, es) == Some(t)
    requires forall i | 0 <= i < |es| :: !es[i].CloseStep?
    ensures t.down == s.down && (s.owner.InClose? ==> t.owner == s.owner)
    decreases |es|
  {
    if |es| > 0 {
      DownKeptByStep(s, es[0]);
      DownKept(Step(s, es[0]).value, es[1..], t);
    }
  }

  lemma DownKeptByStep(s: State, e: Event)
    requires s.down.closing.Closing? && Step(s, e).Some? && !e.CloseStep?
    ensures Step(s, e).value.down == s.down
    ensures s.owner.InClose? && s.starter.Started? ==>
              Step(s, e).value.owner == s.owner && Step(s, e).value.starter.Started?
  {
  }

  lemma LockKeepsOthersOut(s: State, es: seq<Event>, t: State)
    requires Inv(s) && s.down.closing.Closing? && Run(Step, s, es) == Some(t)
    requires forall i | 0 <= i < |es| :: !es[i].CloseStep?
    ensures Inv(t) && t.down == s.down && (s.owner.InClose? ==> t.owner == s.owner)
  {
    InvRun(s, es, t);
    DownKept(s, es, t);
  }

  lemma StopsKept(s: State, e: Event)
    requires Step(s, e).Some?
    ensures Step(s, e).value.down.writeStops >= s.down.writeStops
  {
    if IsReader(e) || IsWriterEvent(e) {
      LoopsFrame(s, e);
    }
  }

  /** What other goroutines do takes neither loop's measure up, and nothing re-opens the connection. */
  lemma {:induction false} MeasuresKept(s: State, es: seq<Event>, t: State)
    requires Inv(s) && s.down.connClosed && Run(Step, s, es) == Some(t)
    ensures Inv(t) && t.down.connClosed && t.down.writeStops >= s.down.writeStops
    ensures ReaderMeasure(t) <= ReaderMeasure(s) && WriterMeasure(t) <= WriterMeasure(s)
    decreases |es|
  {
    if |es| > 0 {
      var u := Step(s, es[0]).value;
      InvStep(s, es[0]);
      ReaderDecreases(s, es[0]);
      WriterDecreases(s, es[0]);
      StopsKept(s, es[0]);
      MeasuresKept(u, es[1..], t);
    }
  }
}
