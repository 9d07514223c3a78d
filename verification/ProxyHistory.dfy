/**
  A proxied connection as the history of a run. The functions here read the events only:
  what conn.Read, conn.Write and dataChannel.Send were given and returned, which errors
  the loops took and signalled, what lay in eolSig, and how far Close has come. The
  lemmas say that the state is exactly that, and that a step is possible exactly when the
  history allows it.
 */
module ProxyHistory {
  import opened Runs
  import opened Proxy
  import opened ProxyProofs
  import opened ProxyTheorems

  // ----- the reading loop -----

  /** What the helper in progress, or the last one, returned. */
  function ReadReturned(es: seq<Event>): Option<Error> {
    if |es| == 0 then None
    else match es[|es| - 1]
      case ReadStarts => None
      case ReadGetsNothing(_) => Some(None)
      case ReadFails(_, err) => Some(Some(err))
      case SendEnds(_, result) => Some(result)
      case _ => ReadReturned(es[..|es| - 1])
  }

  /** The errors that the loop received from its helpers. */
  function ReadErrors(es: seq<Event>): seq<Err> {
    if |es| == 0 then []
    else
      var n := |es| - 1;
      ReadErrors(es[..n]) +
      if !es[n].ReaderTakes? then []
      else match ReadReturned(es[..n]) case Some(Some(err)) => [err] case _ => []
  }

  /** How an error of the reading side is reported: a connection that is closed, by whichever end, is at its end. */
  function ReadReport(err: Err): Err {
    match err
    case EOF => EOF
    case NetClosed => EOF
    case ClosedPipe => EOF
    case Canceled => Canceled
    case TimedOut => TimedOut
    case Other => Other
  }

  /** The chunks that conn.Read returned, */
  function Chunks(es: seq<Event>): seq<Bytes> {
    if |es| == 0 then []
    else Chunks(es[..|es| - 1]) + match es[|es| - 1] case ReadGets(_, bytes) => [bytes] case _ => []
  }

  /** what dataChannel.Send returned for each, */
  function SendResults(es: seq<Event>): seq<Error> {
    if |es| == 0 then []
    else SendResults(es[..|es| - 1]) + match es[|es| - 1] case SendEnds(_, result) => [result] case _ => []
  }

  /** and those it accepted: each is the chunk last read. */
  function Accepted(es: seq<Event>): seq<Bytes> {
    if |es| == 0 then []
    else
      var n := |es| - 1;
      Accepted(es[..n]) +
      match es[n]
      case SendEnds(_, result) =>
        if result.None? && |Chunks(es[..n])| > 0 then [Chunks(es[..n])[|Chunks(es[..n])| - 1]] else []
      case _ => []
  }

  // ----- the writing loop -----

  /** The messages of the data channel. */
  function Arrived(es: seq<Event>): seq<Bytes> {
    if |es| == 0 then []
    else Arrived(es[..|es| - 1]) + match es[|es| - 1] case Arrives(data) => [data] case _ => []
  }

  /** What conn.Write returned for the i-th message, if it has. */
  function WriteReturned(es: seq<Event>, i: int): Option<Error> {
    if |es| == 0 then None
    else
      var n := |es| - 1;
      match es[n]
      case WriteEnds(op, _, result) => if op == i then Some(result) else WriteReturned(es[..n], i)
      case _ => WriteReturned(es[..n], i)
  }

  /** The message the loop took last. */
  function Current(es: seq<Event>): int {
    Count(es, WriterTakes) - 1
  }

  /** The errors that the loop received, and its 100 ms time-outs. */
  function WriteErrors(es: seq<Event>): seq<Err> {
    if |es| == 0 then []
    else
      var n := |es| - 1;
      WriteErrors(es[..n]) +
      match es[n]
      case WriterTakesResult =>
        (match WriteReturned(es[..n], Current(es[..n])) case Some(Some(err)) => [err] case _ => [])
      case WriterTimesOut => [TimedOut]
      case _ => []
  }

  /** How an error of the writing side is reported. */
  function WriteReport(err: Err): Err {
    match err
    case EOF => EOF
    case ClosedPipe => EOF
    case NetClosed => NetClosed
    case Canceled => Canceled
    case TimedOut => TimedOut
    case Other => Other
  }

  /** What has been written to the socket: of each message, as much as conn.Write says. */
  function Written(es: seq<Event>): Bytes {
    if |es| == 0 then []
    else
      var n := |es| - 1;
      Written(es[..n]) +
      match es[n]
      case WriteEnds(op, k, _) =>
        if op < |Arrived(es[..n])| && k <= |Arrived(es[..n])[op]| then Arrived(es[..n])[op][..k] else []
      case _ => []
  }

  // ----- end of life -----

  function Latest(errs: seq<Err>): Err {
    if |errs| == 0 then Other else errs[|errs| - 1]
  }

  /** A non-blocking send into a channel with one slot. */
  function Offered(slot: Option<Error>, signal: Error): Option<Error> {
    if slot.None? then Some(signal) else slot
  }

  /** What lies in eolSig. A loop signals the error it took last; a close callback nil, or on the agent's side
      end-of-file. */
  function Slot(side: Side, es: seq<Event>): Option<Error> {
    if |es| == 0 then None
    else
      var n := |es| - 1;
      match es[n]
      case OwnerReceives => None
      case ReaderPushes => Offered(Slot(side, es[..n]), Some(ReadReport(Latest(ReadErrors(es[..n])))))
      case WriterPushes => Offered(Slot(side, es[..n]), Some(WriteReport(Latest(WriteErrors(es[..n])))))
      case CallbackPushes => Offered(Slot(side, es[..n]), if side.Listener? then None else Some(EOF))
      case _ => Slot(side, es[..n])
  }

  /** What the owner left its select with. */
  function Told(side: Side, es: seq<Event>): Option<Error> {
    if |es| == 0 then None
    else
      var n := |es| - 1;
      match es[n]
      case OwnerReceives => Slot(side, es[..n])
      case OwnerCanceled => Some(Some(Canceled))
      case _ => Told(side, es[..n])
  }

  // ----- Close and the map -----

  /** How many statements of Close have been executed. */
  function Closes(es: seq<Event>): nat {
    if |es| == 0 then 0 else Closes(es[..|es| - 1]) + if es[|es| - 1].CloseStep? then 1 else 0
  }

  /** The listener's map has the proxy: it was put in, and nobody has looked it up for a clean-up since. */
  function InMap(es: seq<Event>): bool {
    if |es| == 0 then false
    else match es[|es| - 1]
      case Insert => true
      case CallbackLocks => false
      case OwnerLocks => false
      case _ => InMap(es[..|es| - 1])
  }

  /** Who called Close: whoever found the proxy in the map; on the agent's side the owner. */
  function CloserOf(side: Side, es: seq<Event>): Option<Closer> {
    if |es| == 0 then None
    else
      var n := |es| - 1;
      match es[n]
      case CallbackLocks => if InMap(es[..n]) then Some(ByCallback) else CloserOf(side, es[..n])
      case OwnerLocks => if side.Agent? || InMap(es[..n]) then Some(ByOwner) else CloserOf(side, es[..n])
      case _ => CloserOf(side, es[..n])
  }

  predicate InsideClose(side: Side, es: seq<Event>) {
    CloserOf(side, es).Some? && Closes(es) < 6
  }

  function StageAfter(closes: nat): Stage {
    if closes == 0 then AtLatch
    else if closes == 1 then AtConn
    else if closes == 2 then AtSignalWrite
    else if closes == 3 then AtSignalRead
    else if closes == 4 then AtCloseWrite
    else AtCloseRead
  }

  // ----- where the goroutines are -----

  function OwnerOf(side: Side, es: seq<Event>): Owner {
    if StartOwner !in es then NotStarted
    else match Told(side, es)
      case None => Selecting
      case Some(err) =>
        if OwnerResolves in es then Resolved(err)
        else if OwnerClosesChannel in es then Resolving(err)
        else if OwnerLocks !in es then Cleaning(err)
        else if CloserOf(side, es) == Some(ByOwner) && Closes(es) < 6 then InClose(err)
        else ClosingChannel(err)
  }

  function StarterOf(side: Side, es: seq<Event>): Starter {
    if StartOwner in es then Started
    else if Insert in es || (side.Agent? && Build in es) then AtGo
    else if Build in es then AtInsert
    else AtNewProxy
  }

  /** Close callbacks that have not reached the lock, */
  function CallbacksBefore(side: Side, es: seq<Event>): int {
    if side.Agent? then 0 else Count(es, CallbackStarts) - Count(es, CallbackLocks)
  }

  /** and that are past their clean-up. */
  function CallbacksAfter(side: Side, es: seq<Event>): int {
    (if side.Agent? then Count(es, CallbackStarts) else Count(es, CallbackLocks)) - Count(es, CallbackPushes)
    - (if CloserOf(side, es) == Some(ByCallback) && Closes(es) < 6 then 1 else 0)
  }

  /** The reading loop has returned: it found its stop channel closed, its signal was refused, or Close found it at
      its select. */
  function ReaderEnded(side: Side, es: seq<Event>): bool {
    if |es| == 0 then false
    else
      var n := |es| - 1;
      || ReaderEnded(side, es[..n]) || es[n] == ReaderStops
      || (es[n] == ReaderPushes && Slot(side, es[..n]).Some?) || (es[n] == CloseStep(true) && Closes(es[..n]) == 3)
  }

  function WriterEnded(side: Side, es: seq<Event>): bool {
    if |es| == 0 then false
    else
      var n := |es| - 1;
      || WriterEnded(side, es[..n]) || es[n] == WriterStops
      || (es[n] == WriterPushes && Slot(side, es[..n]).Some?) || (es[n] == CloseStep(true) && Closes(es[..n]) == 2)
  }

  function ReaderAt(side: Side, es: seq<Event>): ReaderPc {
    if Build !in es then ReaderUnborn
    else if ReaderEnded(side, es) then ReaderExited
    else if Count(es, ReaderPushes) < |ReadErrors(es)| then ReaderFailing(ReadReport(Latest(ReadErrors(es))))
    else if Count(es, ReaderTakes) < Count(es, ReadStarts) then Waiting(Count(es, ReadStarts) - 1)
    else AtTop
  }

  function WriterAt(side: Side, es: seq<Event>): WriterPc {
    if Build !in es then WriterUnborn
    else if WriterEnded(side, es) then WriterExited
    else if Count(es, WriterPushes) < |WriteErrors(es)| then WriterFailing(WriteReport(Latest(WriteErrors(es))))
    else if Count(es, WriterTakesResult) + Count(es, WriterTimesOut) < Count(es, WriterTakes) then Writing(Current(es))
    else AtSelect
  }

  // ----- the state is that history -----

  ghost predicate DownIs(side: Side, es: seq<Event>, d: Teardown) {
    var k := Closes(es);
    && k <= 6 && (k > 0 ==> CloserOf(side, es).Some?)
    && d.inMap == InMap(es)
    && d.closing == (if InsideClose(side, es) then Closing(CloserOf(side, es).value, StageAfter(k)) else Free)
    && d.latch == d.bodies == (if k >= 1 then 1 else 0) && d.connClosed == (k >= 2)
    && d.writeStops == (if k >= 5 then 1 else 0) && d.readStops == (if k >= 6 then 1 else 0) && !d.misuse
  }

  ghost predicate StartIs(side: Side, es: seq<Event>, s: State) {
    && s.side == side && s.starter == StarterOf(side, es) && s.ctxDone == (CancelContext in es)
    && (StartOwner in es ==> Build in es && (side.Listener? ==> Insert in es))
    && (Insert in es ==> side.Listener? && Build in es)
  }

  ghost predicate OwnerIs(side: Side, es: seq<Event>, o: Owner) {
    && o == OwnerOf(side, es)
    && (StartOwner !in es ==> OwnerLocks !in es && Told(side, es).None?)
    && (OwnerLocks in es ==> Told(side, es).Some?)
    && (OwnerClosesChannel in es ==> OwnerLocks in es && !(CloserOf(side, es) == Some(ByOwner) && Closes(es) < 6))
    && (OwnerResolves in es ==> OwnerClosesChannel in es)
    && (CloserOf(side, es) == Some(ByOwner) ==> OwnerLocks in es)
  }

  ghost predicate CallbacksAre(side: Side, es: seq<Event>, c: Callbacks) {
    c.cleaning == CallbacksBefore(side, es) && c.pushing == CallbacksAfter(side, es)
  }

  ghost predicate EolIs(side: Side, es: seq<Event>, e: Eol) {
    e.buffer == match Slot(side, es) case None => [] case Some(signal) => [signal]
  }

  /** The helper in progress, or the last one. */
  ghost predicate HelperIs(es: seq<Event>, op: ReadOp) {
    if Count(es, ReaderTakes) == Count(es, ReadStarts) then op.ReadTaken?
    else match ReadReturned(es)
      case Some(None) => op == ReadDone(None)
      case Some(Some(err)) => op.ReadDone? && op.err.Some? && ReadReport(op.err.value) == ReadReport(err)
      case None =>
        if |Chunks(es)| > |SendResults(es)| then op == Sending(|Chunks(es)[|Chunks(es)| - 1]|) else op == Reading
  }

  ghost predicate ReaderIs(side: Side, es: seq<Event>, r: Reader) {
    && r.pc == ReaderAt(side, es) && r.failures == |ReadErrors(es)| && |r.ops| == Count(es, ReadStarts)
    && (if |r.ops| == 0 then Count(es, ReaderTakes) == 0 else HelperIs(es, r.ops[|r.ops| - 1]))
    && Count(es, ReaderTakes) <= Count(es, ReadStarts) <= Count(es, ReaderTakes) + 1
    && Count(es, ReaderPushes) <= |ReadErrors(es)| <= Count(es, ReaderPushes) + 1
    && (Count(es, ReaderPushes) < |ReadErrors(es)| ==>
          !ReaderEnded(side, es) && Count(es, ReaderTakes) == Count(es, ReadStarts))
    && (Build !in es ==> !ReaderEnded(side, es) && Count(es, ReadStarts) == |ReadErrors(es)| == 0)
  }

  ghost predicate RelayedUp(es: seq<Event>, r: Reader) {
    && r.got == Chunks(es) && r.sent == Accepted(es) && |r.outcomes| == |SendResults(es)|
    && forall i | 0 <= i < |r.outcomes| :: r.outcomes[i] <==> SendResults(es)[i].None?
  }

  ghost predicate WriteIs(es: seq<Event>, op: WriteOp, i: nat) {
    match WriteReturned(es, i)
    case None => op.status.Outstanding?
    case Some(None) => !op.status.Outstanding? && op.status.err == None
    case Some(Some(err)) => !op.status.Outstanding? && op.status.err == Some(WriteReport(err))
  }

  ghost predicate WritesAre(es: seq<Event>, w: Writer) {
    && |w.ops| == Count(es, WriterTakes) <= |Arrived(es)|
    && (forall i | 0 <= i < |w.ops| :: w.ops[i].data == Arrived(es)[i] && WriteIs(es, w.ops[i], i))
    && (forall i | |w.ops| <= i :: WriteReturned(es, i).None?)
  }

  ghost predicate RelayedDown(es: seq<Event>, w: Writer) {
    && w.arrivals == Arrived(es) && w.socket == Written(es) && WritesAre(es, w)
    && w.buffer == Arrived(es)[Count(es, WriterTakes)..]
  }

  ghost predicate WriterIs(side: Side, es: seq<Event>, w: Writer) {
    && w.pc == WriterAt(side, es) && w.failures == |WriteErrors(es)| && w.timeouts == Count(es, WriterTimesOut)
    && Count(es, WriterTakesResult) + Count(es, WriterTimesOut) <= Count(es, WriterTakes)
    && Count(es, WriterTakes) <= Count(es, WriterTakesResult) + Count(es, WriterTimesOut) + 1
    && Count(es, WriterPushes) <= |WriteErrors(es)| <= Count(es, WriterPushes) + 1
    && (Count(es, WriterPushes) < |WriteErrors(es)| ==>
          && !WriterEnded(side, es)
          && Count(es, WriterTakesResult) + Count(es, WriterTimesOut) == Count(es, WriterTakes))
    && (Build !in es ==> !WriterEnded(side, es) && Count(es, WriterTakes) == |WriteErrors(es)| == |Arrived(es)| == 0)
  }

  // ----- one more event: the goroutine that creates the proxy, the owner, the callbacks and Close -----

  lemma StartStepOnly(s: State, e: Event)
    requires Step(s, e).Some?
    ensures var t := Step(s, e).value;
            && t.side == s.side && t.ctxDone == (s.ctxDone || e == CancelContext)
            && t.starter == (match e
                             case Build => if s.side.Listener? then AtInsert else AtGo
                             case Insert => AtGo
                             case StartOwner => Started
                             case _ => s.starter)
            && (e.Build? ==> s.starter.AtNewProxy?) && (e.Insert? ==> s.starter.AtInsert? && s.down.closing.Free?)
            && (e.StartOwner? ==> s.starter.AtGo?)
  {
  }

  lemma {:induction false} StartIsHistory(side: Side, es: seq<Event>, s: State)
    requires Reached(side, es, s)
    ensures StartIs(side, es, s)
  {
    if |es| > 0 {
      var n := |es| - 1;
      var t := RunLast(Step, Init(side), es, s);
      StartIsHistory(side, es[..n], t);
      StartStepOnly(t, es[n]);
      assert es == es[..n] + [es[n]];
    }
  }

  lemma DownStepOnly(s: State, e: Event)
    requires Step(s, e).Some? && TeardownOk(s.down) && OwnershipOk(s)
    ensures var t := Step(s, e).value;
            match e
            case Insert => t.down == s.down.(inMap := true)
            case CallbackLocks =>
              && s.down.closing.Free?
              && t.down == if s.down.inMap then s.down.(inMap := false, closing := Closing(ByCallback, AtLatch))
                           else s.down
            case OwnerLocks =>
              && s.down.closing.Free?
              && t.down == if s.side.Agent? || s.down.inMap
                           then s.down.(inMap := false, closing := Closing(ByOwner, AtLatch)) else s.down
            case CloseStep(_) => s.down.closing.Closing? && t.down == NextDown(s.down)
            case _ => t.down == s.down
  {
    if IsReader(e) || IsWriterEvent(e) {
      LoopsFrame(s, e);
    }
  }

  /** What the next statement of Close does, when all goes well. */
  function NextDown(d: Teardown): Teardown
    requires d.closing.Closing?
  {
    match d.closing.stage
    case AtLatch => d.(latch := 1, bodies := d.bodies + 1, closing := Closing(d.closing.who, AtConn))
    case AtConn => d.(connClosed := true, closing := Closing(d.closing.who, AtSignalWrite))
    case AtSignalWrite => d.(closing := Closing(d.closing.who, AtSignalRead))
    case AtSignalRead => d.(closing := Closing(d.closing.who, AtCloseWrite))
    case AtCloseWrite => d.(writeStops := 1, closing := Closing(d.closing.who, AtCloseRead))
    case AtCloseRead => d.(readStops := 1, closing := Free)
  }

  lemma DownNext(side: Side, es: seq<Event>, t: State, s: State)
    requires |es| > 0 && Step(t, es[|es| - 1]) == Some(s) && t.side == side
    requires DownIs(side, es[..|es| - 1], t.down) && TeardownOk(t.down) && OwnershipOk(t)
    ensures DownIs(side, es, s.down)
  {
    DownStepOnly(t, es[|es| - 1]);
  }

  lemma {:induction false} DownIsHistory(side: Side, es: seq<Event>, s: State)
    requires Reached(side, es, s)
    ensures DownIs(side, es, s.down)
  {
    if |es| > 0 {
      var n := |es| - 1;
      var t := RunLast(Step, Init(side), es, s);
      DownIsHistory(side, es[..n], t);
      StartIsHistory(side, es[..n], t);
      InvInit(side);
      InvRun(Init(side), es[..n], t);
      DownNext(side, es, t, s);
    }
  }

  // ----- eolSig and the loops -----

  lemma EolStepOnly(s: State, e: Event)
    requires Step(s, e).Some? && |s.eol.buffer| <= 1
    ensures var t := Step(s, e).value;
            match e
            case OwnerReceives => |s.eol.buffer| == 1 && t.eol.buffer == []
            case ReaderPushes =>
              && s.reader.pc.ReaderFailing?
              && t.eol.buffer == if s.eol.buffer == [] then [Some(s.reader.pc.err)] else s.eol.buffer
            case WriterPushes =>
              && s.writer.pc.WriterFailing?
              && t.eol.buffer == if s.eol.buffer == [] then [Some(s.writer.pc.err)] else s.eol.buffer
            case CallbackPushes =>
              t.eol.buffer ==
              if s.eol.buffer == [] then [if s.side.Listener? then None else Some(EOF)] else s.eol.buffer
            case _ => t.eol.buffer == s.eol.buffer
  {
  }

  lemma EolNext(side: Side, es: seq<Event>, t: State, s: State)
    requires |es| > 0 && Step(t, es[|es| - 1]) == Some(s) && t.side == side
    requires EolIs(side, es[..|es| - 1], t.eol)
    requires t.reader.pc == ReaderAt(side, es[..|es| - 1]) && t.writer.pc == WriterAt(side, es[..|es| - 1])
    ensures EolIs(side, es, s.eol)
  {
    EolStepOnly(t, es[|es| - 1]);
  }

  /** The events that the reading loop takes part in. */
  predicate TouchesReader(e: Event) {
    IsReader(e) || e.Build? || e.CloseStep?
  }

  lemma ReaderStepOnly(s: State, e: Event)
    requires Step(s, e).Some? && !IsReader(e)
    ensures Step(s, e).value.reader ==
            if e.Build? then s.reader.(pc := AtTop)
            else if e == CloseStep(true) && s.down.closing.Closing? && s.down.closing.stage.AtSignalRead?
            then s.reader.(pc := ReaderExited)
            else s.reader
    ensures e == CloseStep(true) && s.down.closing.Closing? && s.down.closing.stage.AtSignalRead? ==>
              s.reader.pc.Waiting?
  {
  }

  /** Other events do not move the reading loop. */
  lemma ReaderFrame(side: Side, es: seq<Event>)
    requires |es| > 0 && !TouchesReader(es[|es| - 1])
    ensures var p := es[..|es| - 1];
            && (Build in es <==> Build in p)
            && ReaderEnded(side, es) == ReaderEnded(side, p) && ReadErrors(es) == ReadErrors(p)
            && Count(es, ReaderPushes) == Count(p, ReaderPushes) && Count(es, ReaderTakes) == Count(p, ReaderTakes)
            && Count(es, ReadStarts) == Count(p, ReadStarts) && ReadReturned(es) == ReadReturned(p)
            && Chunks(es) == Chunks(p) && SendResults(es) == SendResults(p)
  {
    assert es == es[..|es| - 1] + [es[|es| - 1]];
  }

  lemma ReaderElse(side: Side, es: seq<Event>, r: Reader)
    requires |es| > 0 && ReaderIs(side, es[..|es| - 1], r) && !TouchesReader(es[|es| - 1])
    ensures ReaderIs(side, es, r)
  {
    ReaderFrame(side, es);
  }

  lemma ReaderBuilt(side: Side, es: seq<Event>, r: Reader)
    requires |es| > 0 && ReaderIs(side, es[..|es| - 1], r) && es[|es| - 1].Build? && Build !in es[..|es| - 1]
    ensures ReaderIs(side, es, r.(pc := AtTop))
  {
    assert es == es[..|es| - 1] + [es[|es| - 1]];
  }

  lemma ReaderBesideClose(side: Side, es: seq<Event>, t: State, s: State)
    requires |es| > 0 && Step(t, es[|es| - 1]) == Some(s) && es[|es| - 1].CloseStep?
    requires ReaderIs(side, es[..|es| - 1], t.reader) && DownIs(side, es[..|es| - 1], t.down)
    ensures ReaderIs(side, es, s.reader)
  {
    var n := |es| - 1;
    ReaderStepOnly(t, es[n]);
    CloseStepStage(side, es[..n], t, s, es[n]);
    ReaderCloses(side, es, t.reader, es[n].signalled && Closes(es[..n]) == 3);
  }

  lemma CloseStepStage(side: Side, es: seq<Event>, s: State, t: State, e: Event)
    requires Step(s, e) == Some(t) && e.CloseStep? && DownIs(side, es, s.down)
    ensures s.down.closing.Closing?
    ensures s.down.closing.stage.AtSignalRead? <==> Closes(es) == 3
    ensures s.down.closing.stage.AtSignalWrite? <==> Closes(es) == 2
  {
  }

  lemma ReaderCloses(side: Side, es: seq<Event>, r: Reader, found: bool)
    requires |es| > 0 && ReaderIs(side, es[..|es| - 1], r) && es[|es| - 1].CloseStep?
    requires (es[|es| - 1] == CloseStep(true) && Closes(es[..|es| - 1]) == 3) == found && (found ==> r.pc.Waiting?)
    ensures ReaderIs(side, es, if found then r.(pc := ReaderExited) else r)
  {
    assert es == es[..|es| - 1] + [es[|es| - 1]];
  }

  // The loop's own events.

  lemma ReadStarted(side: Side, es: seq<Event>, r: Reader)
    requires |es| > 0 && es[|es| - 1].ReadStarts? && ReaderIs(side, es[..|es| - 1], r) && RelayedUp(es[..|es| - 1], r)
    requires r.pc.AtTop? && OneRead(r) && RelaysUp(r)
    ensures ReaderIs(side, es, r.(pc := Waiting(|r.ops|), ops := r.ops + [Reading]))
  {
    assert es == es[..|es| - 1] + [es[|es| - 1]];
  }

  predicate OfHelper(e: Event) {
    e.ReadGets? || e.ReadGetsNothing? || e.ReadFails? || e.SendEnds?
  }

  lemma HelperFrame(side: Side, es: seq<Event>)
    requires |es| > 0 && OfHelper(es[|es| - 1])
    ensures var p := es[..|es| - 1];
            && (Build in es <==> Build in p)
            && ReaderEnded(side, es) == ReaderEnded(side, p) && ReadErrors(es) == ReadErrors(p)
            && Count(es, ReaderPushes) == Count(p, ReaderPushes) && Count(es, ReaderTakes) == Count(p, ReaderTakes)
            && Count(es, ReadStarts) == Count(p, ReadStarts)
  {
    assert es == es[..|es| - 1] + [es[|es| - 1]];
  }

  lemma LastHelper(r: Reader, op: nat)
    requires OneRead(r) && op < |r.ops| && !r.ops[op].ReadTaken?
    ensures op == |r.ops| - 1
  {
  }

  /** A helper's step: it does not move the loop. */
  lemma HelperMoved(side: Side, es: seq<Event>, r: Reader, op: nat, status: ReadOp)
    requires |es| > 0 && ReaderIs(side, es[..|es| - 1], r) && OfHelper(es[|es| - 1])
    requires op == |r.ops| - 1 && !r.ops[op].ReadTaken? && HelperIs(es, status)
    ensures ReaderIs(side, es, r.(ops := r.ops[op := status]))
  {
    HelperFrame(side, es);
    var u := r.(ops := r.ops[op := status]);
    assert u.ops[|u.ops| - 1] == status;
  }

  lemma ReadTakenBy(side: Side, es: seq<Event>, r: Reader, r': Reader)
    requires |es| > 0 && es[|es| - 1].ReaderTakes? && ReaderIs(side, es[..|es| - 1], r)
    requires r.pc.Waiting? && r.pc.op == |r.ops| - 1 && r.ops[r.pc.op].ReadDone?
    requires var err := r.ops[r.pc.op].err; var u := r.(ops := r.ops[r.pc.op := ReadTaken]);
             r' == if err.None? then u.(pc := AtTop)
                   else u.(pc := ReaderFailing(ReadReport(err.value)), failures := r.failures + 1)
    ensures ReaderIs(side, es, r')
  {
    assert es == es[..|es| - 1] + [es[|es| - 1]];
  }

  lemma ReadPushed(side: Side, es: seq<Event>, r: Reader, r': Reader)
    requires |es| > 0 && es[|es| - 1].ReaderPushes? && ReaderIs(side, es[..|es| - 1], r) && r.pc.ReaderFailing?
    requires r' == if Slot(side, es[..|es| - 1]).None? then r.(pc := AtTop)
                   else r.(pc := ReaderExited, rejected := true)
    ensures ReaderIs(side, es, r')
  {
    assert es == es[..|es| - 1] + [es[|es| - 1]];
  }

  lemma ReadStopped(side: Side, es: seq<Event>, r: Reader)
    requires |es| > 0 && es[|es| - 1].ReaderStops? && ReaderIs(side, es[..|es| - 1], r) && r.pc.Waiting?
    ensures ReaderIs(side, es, r.(pc := ReaderExited))
  {
    assert es == es[..|es| - 1] + [es[|es| - 1]];
  }

  /** What a helper's event makes of its helper. */
  lemma HelperStep(s: State, e: Event)
    requires OfHelper(e) && StepReader(s, e).Some?
    ensures e.op < |s.reader.ops| && !s.reader.ops[e.op].ReadTaken?
    ensures var r, r' := s.reader, StepReader(s, e).value.reader;
            match e
            case ReadGets(op, bytes) => r.ops[op] == Reading && r'.ops == r.ops[op := Sending(|bytes|)]
            case ReadGetsNothing(op) => r.ops[op] == Reading && r'.ops == r.ops[op := ReadDone(None)]
            case ReadFails(op, err) => r.ops[op] == Reading && r'.ops == r.ops[op := ReadDone(Some(ReadError(err)))]
            case SendEnds(op, result) => r.ops[op].Sending? && r'.ops == r.ops[op := ReadDone(result)]
            case _ => true
    ensures var r, r' := s.reader, StepReader(s, e).value.reader; r'.pc == r.pc && r'.failures == r.failures
  {
  }

  lemma ReaderIsAlike(side: Side, es: seq<Event>, r: Reader, r': Reader)
    requires ReaderIs(side, es, r) && r'.pc == r.pc && r'.failures == r.failures && r'.ops == r.ops
    ensures ReaderIs(side, es, r')
  {
  }

  lemma HelperResult(es: seq<Event>, r: Reader, e: Event, status: ReadOp)
    requires |es| > 0 && es[|es| - 1] == e && OfHelper(e) && e.op == |r.ops| - 1
    requires HelperIs(es[..|es| - 1], r.ops[e.op]) && RelayedUp(es[..|es| - 1], r) && RelaysUp(r)
    requires if e.SendEnds? then r.ops[e.op].Sending? else r.ops[e.op] == Reading
    requires match e
             case ReadGets(_, bytes) => status == Sending(|bytes|)
             case ReadGetsNothing(_) => status == ReadDone(None)
             case ReadFails(_, err) => status == ReadDone(Some(ReadError(err)))
             case SendEnds(_, result) => status == ReadDone(result)
             case _ => true
    ensures HelperIs(es, status)
  {
    assert Count(es, ReaderTakes) == Count(es[..|es| - 1], ReaderTakes);
    assert Count(es, ReadStarts) == Count(es[..|es| - 1], ReadStarts);
  }

  lemma HelperNext(side: Side, es: seq<Event>, t: State, s: State)
    requires |es| > 0 && OfHelper(es[|es| - 1]) && StepReader(t, es[|es| - 1]) == Some(s)
    requires ReaderIs(side, es[..|es| - 1], t.reader) && RelayedUp(es[..|es| - 1], t.reader)
    requires OneRead(t.reader) && RelaysUp(t.reader)
    ensures ReaderIs(side, es, s.reader)
  {
    var e := es[|es| - 1];
    HelperStep(t, e);
    LastHelper(t.reader, e.op);
    HelperResult(es, t.reader, e, s.reader.ops[e.op]);
    HelperMoved(side, es, t.reader, e.op, s.reader.ops[e.op]);
    ReaderIsAlike(side, es, t.reader.(ops := t.reader.ops[e.op := s.reader.ops[e.op]]), s.reader);
  }

  lemma LoopStep(s: State, e: Event)
    requires IsReader(e) && !OfHelper(e) && StepReader(s, e).Some? && OneRead(s.reader)
    ensures var r, r' := s.reader, StepReader(s, e).value.reader;
            match e
            case ReadStarts => r.pc.AtTop? && r' == r.(pc := Waiting(|r.ops|), ops := r.ops + [Reading])
            case ReaderTakes =>
              && r.pc.Waiting? && r.pc.op == |r.ops| - 1 && r.ops[r.pc.op].ReadDone?
              && var err := r.ops[r.pc.op].err; var u := r.(ops := r.ops[r.pc.op := ReadTaken]);
                 r' == if err.None? then u.(pc := AtTop)
                       else u.(pc := ReaderFailing(ReadReport(err.value)), failures := r.failures + 1)
            case ReaderStops => r.pc.Waiting? && r' == r.(pc := ReaderExited)
            case ReaderPushes =>
              && r.pc.ReaderFailing?
              && r' == if s.eol.buffer == [] then r.(pc := AtTop) else r.(pc := ReaderExited, rejected := true)
            case _ => true
  {
  }

  lemma ReaderNext(side: Side, es: seq<Event>, t: State, s: State)
    requires |es| > 0 && IsReader(es[|es| - 1]) && StepReader(t, es[|es| - 1]) == Some(s)
    requires ReaderIs(side, es[..|es| - 1], t.reader) && RelayedUp(es[..|es| - 1], t.reader)
    requires EolIs(side, es[..|es| - 1], t.eol) && OneRead(t.reader) && RelaysUp(t.reader)
    ensures ReaderIs(side, es, s.reader)
  {
    var e := es[|es| - 1];
    if OfHelper(e) {
      HelperNext(side, es, t, s);
    } else {
      LoopStep(t, e);
      match e {
        case ReadStarts => ReadStarted(side, es, t.reader);
        case ReaderTakes => ReadTakenBy(side, es, t.reader, s.reader);
        case ReaderStops => ReadStopped(side, es, t.reader);
        case ReaderPushes => ReadPushed(side, es, t.reader, s.reader);
        case _ =>
      }
    }
  }

  // What the reading side relays.

  lemma RelayedUpStep(s: State, e: Event)
    requires Step(s, e).Some? && OneRead(s.reader) && RelaysUp(s.reader)
    ensures var r, r' := s.reader, Step(s, e).value.reader;
            match e
            case ReadGets(_, bytes) => r'.got == r.got + [bytes] && r'.outcomes == r.outcomes && r'.sent == r.sent
            case SendEnds(_, result) =>
              && r'.got == r.got && r'.outcomes == r.outcomes + [result.None?] && |r.got| > 0
              && r'.sent == r.sent + if result.None? then [r.got[|r.got| - 1]] else []
            case _ => r'.got == r.got && r'.outcomes == r.outcomes && r'.sent == r.sent
  {
    if !IsReader(e) {
      ReaderStepOnly(s, e);
    }
  }

  lemma RelayedUpNext(es: seq<Event>, t: State, s: State)
    requires |es| > 0 && Step(t, es[|es| - 1]) == Some(s) && OneRead(t.reader) && RelaysUp(t.reader)
    requires RelayedUp(es[..|es| - 1], t.reader)
    ensures RelayedUp(es, s.reader)
  {
    RelayedUpStep(t, es[|es| - 1]);
  }

  // The writing loop.

  lemma WriterStepOnly(s: State, e: Event)
    requires Step(s, e).Some? && !IsWriterEvent(e)
    ensures Step(s, e).value.writer ==
            if e.Build? then s.writer.(pc := AtSelect)
            else if e == CloseStep(true) && s.down.closing.Closing? && s.down.closing.stage.AtSignalWrite?
            then s.writer.(pc := WriterExited)
            else s.writer
    ensures e == CloseStep(true) && s.down.closing.Closing? && s.down.closing.stage.AtSignalWrite? ==>
              s.writer.pc.AtSelect? || s.writer.pc.Writing?
  {
  }

  predicate TouchesWriter(e: Event) {
    IsWriterEvent(e) || e.Build? || e.CloseStep?
  }

  /** Other events do not move the writing loop. */
  lemma WriterFrame(side: Side, es: seq<Event>)
    requires |es| > 0 && !TouchesWriter(es[|es| - 1])
    ensures var p := es[..|es| - 1];
            && (Build in es <==> Build in p) && WriterEnded(side, es) == WriterEnded(side, p)
            && WriteErrors(es) == WriteErrors(p) && Arrived(es) == Arrived(p)
            && Count(es, WriterPushes) == Count(p, WriterPushes) && Count(es, WriterTakes) == Count(p, WriterTakes)
            && Count(es, WriterTakesResult) == Count(p, WriterTakesResult)
            && Count(es, WriterTimesOut) == Count(p, WriterTimesOut)
  {
    assert es == es[..|es| - 1] + [es[|es| - 1]];
  }

  lemma WriterElse(side: Side, es: seq<Event>, w: Writer)
    requires |es| > 0 && WriterIs(side, es[..|es| - 1], w) && !TouchesWriter(es[|es| - 1])
    ensures WriterIs(side, es, w)
  {
    WriterFrame(side, es);
  }

  lemma WriterBuilt(side: Side, es: seq<Event>, w: Writer)
    requires |es| > 0 && WriterIs(side, es[..|es| - 1], w) && es[|es| - 1].Build? && Build !in es[..|es| - 1]
    ensures WriterIs(side, es, w.(pc := AtSelect))
  {
    assert es == es[..|es| - 1] + [es[|es| - 1]];
  }

  lemma WriterCloses(side: Side, es: seq<Event>, w: Writer, found: bool)
    requires |es| > 0 && WriterIs(side, es[..|es| - 1], w) && es[|es| - 1].CloseStep?
    requires (es[|es| - 1] == CloseStep(true) && Closes(es[..|es| - 1]) == 2) == found
    requires found ==> w.pc.AtSelect? || w.pc.Writing?
    ensures WriterIs(side, es, if found then w.(pc := WriterExited) else w)
  {
    assert es == es[..|es| - 1] + [es[|es| - 1]];
  }

  lemma WriterBesideClose(side: Side, es: seq<Event>, t: State, s: State)
    requires |es| > 0 && Step(t, es[|es| - 1]) == Some(s) && es[|es| - 1].CloseStep?
    requires WriterIs(side, es[..|es| - 1], t.writer) && DownIs(side, es[..|es| - 1], t.down)
    ensures WriterIs(side, es, s.writer)
  {
    var n := |es| - 1;
    WriterStepOnly(t, es[n]);
    CloseStepStage(side, es[..n], t, s, es[n]);
    WriterCloses(side, es, t.writer, es[n].signalled && Closes(es[..n]) == 2);
  }

  /** What a step of the writing loop, of a helper or of the data channel does. */
  lemma WriterEventStep(s: State, e: Event)
    requires IsWriterEvent(e) && StepWriter(s, e).Some? && TakesInOrder(s.writer)
    ensures var w, w' := s.writer, StepWriter(s, e).value.writer;
            match e
            case Arrives(data) =>
              !s.starter.AtNewProxy? && w' == w.(arrivals := w.arrivals + [data], buffer := w.buffer + [data])
            case WriterTakes =>
              && w.pc.AtSelect? && |w.buffer| > 0
              && w' == w.(pc := Writing(|w.ops|), ops := w.ops + [WriteOp(w.buffer[0], Outstanding)],
                          buffer := w.buffer[1..])
            case WriteEnds(op, k, result) =>
              && op < |w.ops| && w.ops[op].status.Outstanding? && k <= |w.ops[op].data|
              && w' == w.(ops := w.ops[op := WriteOp(w.ops[op].data, WriteDone(Reported(result)))],
                          socket := w.socket + w.ops[op].data[..k])
            case WriterTakesResult =>
              && w.pc.Writing? && w.pc.op == |w.ops| - 1 && w.ops[w.pc.op].status.WriteDone?
              && var err := w.ops[w.pc.op].status.err;
                 var u := w.(ops := w.ops[w.pc.op := WriteOp(w.ops[w.pc.op].data, WriteTaken(err))]);
                 w' == if err.None? then u.(pc := AtSelect)
                       else u.(pc := WriterFailing(err.value), failures := w.failures + 1)
            case WriterTimesOut =>
              && w.pc.Writing?
              && w' == w.(pc := WriterFailing(TimedOut), failures := w.failures + 1, timeouts := w.timeouts + 1)
            case WriterStops => (w.pc.AtSelect? || w.pc.Writing?) && w' == w.(pc := WriterExited)
            case WriterPushes =>
              && w.pc.WriterFailing?
              && w' == if s.eol.buffer == [] then w.(pc := AtSelect) else w.(pc := WriterExited, rejected := true)
            case _ => true
  {
  }

  function Reported(result: Error): Error {
    if result.None? then None else Some(WriteReport(result.value))
  }

  // Where the loop is.

  lemma ArrivalPasses(side: Side, es: seq<Event>, w: Writer, w': Writer)
    requires |es| > 0 && es[|es| - 1].Arrives? && WriterIs(side, es[..|es| - 1], w) && Build in es[..|es| - 1]
    requires w'.pc == w.pc && w'.failures == w.failures && w'.timeouts == w.timeouts
    ensures WriterIs(side, es, w')
  {
    assert es == es[..|es| - 1] + [es[|es| - 1]];
  }

  lemma WriteStarted(side: Side, es: seq<Event>, w: Writer, w': Writer)
    requires |es| > 0 && es[|es| - 1].WriterTakes? && WriterIs(side, es[..|es| - 1], w) && w.pc.AtSelect?
    requires |w.ops| == Count(es[..|es| - 1], WriterTakes) && w'.pc == Writing(|w.ops|)
    requires w'.failures == w.failures && w'.timeouts == w.timeouts
    ensures WriterIs(side, es, w')
  {
    assert es == es[..|es| - 1] + [es[|es| - 1]];
  }

  lemma WriteEnded(side: Side, es: seq<Event>, w: Writer, w': Writer)
    requires |es| > 0 && es[|es| - 1].WriteEnds? && WriterIs(side, es[..|es| - 1], w)
    requires w'.pc == w.pc && w'.failures == w.failures && w'.timeouts == w.timeouts
    ensures WriterIs(side, es, w')
  {
    assert es == es[..|es| - 1] + [es[|es| - 1]];
  }

  lemma WriteResultTaken(side: Side, es: seq<Event>, w: Writer, w': Writer, err: Error)
    requires |es| > 0 && es[|es| - 1].WriterTakesResult? && WriterIs(side, es[..|es| - 1], w) && w.pc.Writing?
    requires |w.ops| == Count(es[..|es| - 1], WriterTakes) && w.pc.op == |w.ops| - 1
    requires WriteIs(es[..|es| - 1], w.ops[w.pc.op], w.pc.op) && w.ops[w.pc.op].status == WriteDone(err)
    requires w'.timeouts == w.timeouts
    requires if err.None? then w'.pc == AtSelect && w'.failures == w.failures
             else w'.pc == WriterFailing(err.value) && w'.failures == w.failures + 1
    ensures WriterIs(side, es, w')
  {
    assert es == es[..|es| - 1] + [es[|es| - 1]];
  }

  lemma WriteTimedOut(side: Side, es: seq<Event>, w: Writer, w': Writer)
    requires |es| > 0 && es[|es| - 1].WriterTimesOut? && WriterIs(side, es[..|es| - 1], w) && w.pc.Writing?
    requires w'.pc == WriterFailing(TimedOut) && w'.failures == w.failures + 1 && w'.timeouts == w.timeouts + 1
    ensures WriterIs(side, es, w')
  {
    assert es == es[..|es| - 1] + [es[|es| - 1]];
  }

  lemma WriterStopped(side: Side, es: seq<Event>, w: Writer, w': Writer)
    requires |es| > 0 && es[|es| - 1].WriterStops? && WriterIs(side, es[..|es| - 1], w)
    requires (w.pc.AtSelect? || w.pc.Writing?) && w'.pc == WriterExited
    requires w'.failures == w.failures && w'.timeouts == w.timeouts
    ensures WriterIs(side, es, w')
  {
    assert es == es[..|es| - 1] + [es[|es| - 1]];
  }

  lemma WriterPushed(side: Side, es: seq<Event>, w: Writer, w': Writer)
    requires |es| > 0 && es[|es| - 1].WriterPushes? && WriterIs(side, es[..|es| - 1], w) && w.pc.WriterFailing?
    requires w'.pc == if Slot(side, es[..|es| - 1]).None? then AtSelect else WriterExited
    requires w'.failures == w.failures && w'.timeouts == w.timeouts
    ensures WriterIs(side, es, w')
  {
    assert es == es[..|es| - 1] + [es[|es| - 1]];
  }

  lemma WriterNext(side: Side, es: seq<Event>, t: State, s: State)
    requires |es| > 0 && IsWriterEvent(es[|es| - 1]) && StepWriter(t, es[|es| - 1]) == Some(s)
    requires WriterIs(side, es[..|es| - 1], t.writer) && RelayedDown(es[..|es| - 1], t.writer) && TakesInOrder(t.writer)
    requires EolIs(side, es[..|es| - 1], t.eol) && StartIs(side, es[..|es| - 1], t)
    ensures WriterIs(side, es, s.writer)
  {
    var e, w := es[|es| - 1], t.writer;
    WriterEventStep(t, e);
    match e {
      case Arrives(_) => ArrivalPasses(side, es, w, s.writer);
      case WriterTakes => WriteStarted(side, es, w, s.writer);
      case WriteEnds(_, _, _) => WriteEnded(side, es, w, s.writer);
      case WriterTakesResult => WriteResultTaken(side, es, w, s.writer, w.ops[w.pc.op].status.err);
      case WriterTimesOut => WriteTimedOut(side, es, w, s.writer);
      case WriterStops => WriterStopped(side, es, w, s.writer);
      case WriterPushes => WriterPushed(side, es, w, s.writer);
      case _ =>
    }
  }

  // What the writing side relays.

  lemma RelayedDownElse(es: seq<Event>, w: Writer, w': Writer)
    requires |es| > 0 && RelayedDown(es[..|es| - 1], w)
    requires !es[|es| - 1].Arrives? && !es[|es| - 1].WriterTakes? && !es[|es| - 1].WriteEnds?
    requires w'.arrivals == w.arrivals && w'.buffer == w.buffer && w'.socket == w.socket && |w'.ops| == |w.ops|
    requires forall i | 0 <= i < |w.ops| ::
               && w'.ops[i].data == w.ops[i].data
               && (w'.ops[i].status.Outstanding? <==> w.ops[i].status.Outstanding?)
               && (!w.ops[i].status.Outstanding? ==> w'.ops[i].status.err == w.ops[i].status.err)
    ensures RelayedDown(es, w')
  {
    forall i | 0 <= i < |w.ops| ensures WriteIs(es, w'.ops[i], i) {
      assert WriteIs(es[..|es| - 1], w.ops[i], i);
    }
  }

  lemma MessageArrived(es: seq<Event>, w: Writer, data: Bytes)
    requires |es| > 0 && RelayedDown(es[..|es| - 1], w) && es[|es| - 1] == Arrives(data)
    ensures RelayedDown(es, w.(arrivals := w.arrivals + [data], buffer := w.buffer + [data]))
  {
    forall i | 0 <= i < |w.ops| ensures WriteIs(es, w.ops[i], i) {
      assert WriteIs(es[..|es| - 1], w.ops[i], i);
    }
  }

  lemma MessageTaken(es: seq<Event>, w: Writer, w': Writer)
    requires |es| > 0 && RelayedDown(es[..|es| - 1], w) && es[|es| - 1].WriterTakes? && |w.buffer| > 0
    requires w'.ops == w.ops + [WriteOp(w.buffer[0], Outstanding)] && w'.buffer == w.buffer[1..]
    requires w'.arrivals == w.arrivals && w'.socket == w.socket
    ensures RelayedDown(es, w')
  {
    var p, k := es[..|es| - 1], |w.ops|;
    assert Arrived(es) == Arrived(p) && w.buffer[0] == Arrived(p)[k];
    assert WriteReturned(p, k).None? && WriteReturned(es, k) == WriteReturned(p, k);
    assert w'.ops[k] == WriteOp(Arrived(es)[k], Outstanding);
    forall i | 0 <= i < |w.ops| ensures WriteIs(es, w'.ops[i], i) {
      assert WriteIs(es[..|es| - 1], w.ops[i], i);
    }
  }

  lemma MessageWritten(es: seq<Event>, w: Writer, w': Writer, op: nat, k: nat, result: Error)
    requires |es| > 0 && RelayedDown(es[..|es| - 1], w) && es[|es| - 1] == WriteEnds(op, k, result)
    requires op < |w.ops| && w.ops[op].status.Outstanding? && k <= |w.ops[op].data|
    requires w' == w.(ops := w.ops[op := WriteOp(w.ops[op].data, WriteDone(Reported(result)))],
                      socket := w.socket + w.ops[op].data[..k])
    ensures RelayedDown(es, w')
  {
    forall i | 0 <= i < |w.ops| ensures WriteIs(es, w'.ops[i], i) {
      assert WriteIs(es[..|es| - 1], w.ops[i], i);
    }
  }

  lemma RelayedDownNext(es: seq<Event>, t: State, s: State)
    requires |es| > 0 && Step(t, es[|es| - 1]) == Some(s) && TakesInOrder(t.writer)
    requires RelayedDown(es[..|es| - 1], t.writer)
    ensures RelayedDown(es, s.writer)
  {
    var e := es[|es| - 1];
    if IsWriterEvent(e) {
      WriterEventStep(t, e);
      match e {
        case Arrives(data) => MessageArrived(es, t.writer, data);
        case WriterTakes => MessageTaken(es, t.writer, s.writer);
        case WriteEnds(op, k, result) => MessageWritten(es, t.writer, s.writer, op, k, result);
        case _ => RelayedDownElse(es, t.writer, s.writer);
      }
    } else {
      WriterStepOnly(t, e);
      RelayedDownElse(es, t.writer, s.writer);
    }
  }

  // ----- every run -----

  ghost predicate LoopsAre(side: Side, es: seq<Event>, s: State) {
    && EolIs(side, es, s.eol) && ReaderIs(side, es, s.reader) && RelayedUp(es, s.reader)
    && WriterIs(side, es, s.writer) && RelayedDown(es, s.writer)
  }

  lemma ReaderAny(side: Side, es: seq<Event>, t: State, s: State)
    requires |es| > 0 && Step(t, es[|es| - 1]) == Some(s) && OneRead(t.reader) && RelaysUp(t.reader)
    requires EolIs(side, es[..|es| - 1], t.eol) && ReaderIs(side, es[..|es| - 1], t.reader)
    requires RelayedUp(es[..|es| - 1], t.reader)
    requires DownIs(side, es[..|es| - 1], t.down) && StartIs(side, es[..|es| - 1], t)
    ensures ReaderIs(side, es, s.reader)
  {
    var e := es[|es| - 1];
    if IsReader(e) {
      ReaderNext(side, es, t, s);
    } else if e.CloseStep? {
      ReaderBesideClose(side, es, t, s);
    } else {
      ReaderAside(side, es, t, s);
    }
  }

  lemma ReaderAside(side: Side, es: seq<Event>, t: State, s: State)
    requires |es| > 0 && Step(t, es[|es| - 1]) == Some(s) && ReaderIs(side, es[..|es| - 1], t.reader)
    requires !IsReader(es[|es| - 1]) && !es[|es| - 1].CloseStep? && StartIs(side, es[..|es| - 1], t)
    ensures ReaderIs(side, es, s.reader)
  {
    ReaderStepOnly(t, es[|es| - 1]);
    if es[|es| - 1].Build? {
      BuiltOnce(side, es[..|es| - 1], t, s);
      ReaderBuilt(side, es, t.reader);
    } else {
      ReaderElse(side, es, t.reader);
    }
  }

  lemma BuiltOnce(side: Side, es: seq<Event>, t: State, s: State)
    requires Step(t, Build) == Some(s) && StartIs(side, es, t)
    ensures Build !in es
  {
  }

  lemma WriterAny(side: Side, es: seq<Event>, t: State, s: State)
    requires |es| > 0 && Step(t, es[|es| - 1]) == Some(s) && TakesInOrder(t.writer)
    requires EolIs(side, es[..|es| - 1], t.eol) && WriterIs(side, es[..|es| - 1], t.writer)
    requires RelayedDown(es[..|es| - 1], t.writer)
    requires DownIs(side, es[..|es| - 1], t.down) && StartIs(side, es[..|es| - 1], t)
    ensures WriterIs(side, es, s.writer)
  {
    var e := es[|es| - 1];
    if IsWriterEvent(e) {
      WriterNext(side, es, t, s);
    } else if e.CloseStep? {
      WriterBesideClose(side, es, t, s);
    } else {
      WriterAside(side, es, t, s);
    }
  }

  lemma WriterAside(side: Side, es: seq<Event>, t: State, s: State)
    requires |es| > 0 && Step(t, es[|es| - 1]) == Some(s) && WriterIs(side, es[..|es| - 1], t.writer)
    requires !IsWriterEvent(es[|es| - 1]) && !es[|es| - 1].CloseStep? && StartIs(side, es[..|es| - 1], t)
    ensures WriterIs(side, es, s.writer)
  {
    WriterStepOnly(t, es[|es| - 1]);
    if es[|es| - 1].Build? {
      BuiltOnce(side, es[..|es| - 1], t, s);
      WriterBuilt(side, es, t.writer);
    } else {
      WriterElse(side, es, t.writer);
    }
  }

  lemma ReaderBegins(side: Side, buf: Bytes)
    ensures var r := Reader(ReaderUnborn, [], buf, [], [], [], 0, false); ReaderIs(side, [], r) && RelayedUp([], r)
  {
  }

  lemma WriterBegins(side: Side)
    ensures var w := Writer(WriterUnborn, [], [], [], [], 0, 0, false); WriterIs(side, [], w) && RelayedDown([], w)
  {
  }

  lemma LoopsBegin(side: Side)
    ensures LoopsAre(side, [], Init(side))
  {
    ReaderBegins(side, EmptyBuffer());
    WriterBegins(side);
  }

  lemma {:induction false} LoopsAreHistory(side: Side, es: seq<Event>, s: State)
    requires Reached(side, es, s)
    ensures LoopsAre(side, es, s)
  {
    if |es| == 0 {
      LoopsBegin(side);
    } else {
      var n := |es| - 1;
      var t := RunLast(Step, Init(side), es, s);
      LoopsAreHistory(side, es[..n], t);
      LoopsNext(side, es, t, s);
    }
  }

  lemma LoopsNext(side: Side, es: seq<Event>, t: State, s: State)
    requires |es| > 0 && Step(t, es[|es| - 1]) == Some(s) && LoopsAre(side, es[..|es| - 1], t)
    requires Reached(side, es[..|es| - 1], t)
    ensures LoopsAre(side, es, s)
  {
    var n := |es| - 1;
    InvInit(side);
    InvRun(Init(side), es[..n], t);
    StartIsHistory(side, es[..n], t);
    DownIsHistory(side, es[..n], t);
    EolNext(side, es, t, s);
    ReaderAny(side, es, t, s);
    RelayedUpNext(es, t, s);
    WriterAny(side, es, t, s);
    RelayedDownNext(es, t, s);
  }

  // The owner and the callbacks.

  lemma OwnerStepOnly(s: State, e: Event)
    requires Step(s, e).Some? && TeardownOk(s.down) && OwnershipOk(s)
    ensures var t := Step(s, e).value;
            match e
            case StartOwner => s.owner.NotStarted? && t.owner == Selecting
            case OwnerReceives => s.owner.Selecting? && |s.eol.buffer| > 0 && t.owner == Cleaning(s.eol.buffer[0])
            case OwnerCanceled => s.owner.Selecting? && t.owner == Cleaning(Some(Canceled))
            case OwnerLocks =>
              && s.owner.Cleaning? && s.down.closing.Free?
              && t.owner == if s.side.Agent? || s.down.inMap then InClose(s.owner.err) else ClosingChannel(s.owner.err)
            case OwnerClosesChannel => s.owner.ClosingChannel? && t.owner == Resolving(s.owner.err)
            case OwnerResolves => s.owner.Resolving? && t.owner == Resolved(s.owner.err)
            case CloseStep(_) =>
              && s.down.closing.Closing?
              && t.owner == (if s.down.closing == Closing(ByOwner, AtCloseRead) && s.owner.InClose?
                             then ClosingChannel(s.owner.err) else s.owner)
              && (s.down.closing == Closing(ByOwner, AtCloseRead) ==> s.owner.InClose?)
            case _ => t.owner == s.owner
  {
    if IsReader(e) || IsWriterEvent(e) {
      LoopsFrame(s, e);
    }
  }

  lemma OwnerNext(side: Side, es: seq<Event>, t: State, s: State)
    requires |es| > 0 && Step(t, es[|es| - 1]) == Some(s) && t.side == side
    requires OwnerIs(side, es[..|es| - 1], t.owner) && DownIs(side, es[..|es| - 1], t.down)
    requires EolIs(side, es[..|es| - 1], t.eol)
    requires TeardownOk(t.down) && OwnershipOk(t)
    ensures OwnerIs(side, es, s.owner)
  {
    OwnerStepOnly(t, es[|es| - 1]);
    assert es == es[..|es| - 1] + [es[|es| - 1]];
  }

  lemma CallbackStepOnly(s: State, e: Event)
    requires Step(s, e).Some? && TeardownOk(s.down) && OwnershipOk(s)
    ensures var c, t := s.callbacks, Step(s, e).value;
            match e
            case CallbackStarts =>
              t.callbacks == if s.side.Listener? then Callbacks(c.cleaning + 1, c.pushing)
                             else Callbacks(c.cleaning, c.pushing + 1)
            case CallbackLocks =>
              && c.cleaning > 0 && s.down.closing.Free?
              && t.callbacks == Callbacks(c.cleaning - 1, if s.down.inMap then c.pushing else c.pushing + 1)
            case CallbackPushes => c.pushing > 0 && t.callbacks == Callbacks(c.cleaning, c.pushing - 1)
            case CloseStep(_) =>
              t.callbacks == if s.down.closing == Closing(ByCallback, AtCloseRead) then
                               Callbacks(c.cleaning, c.pushing + 1)
                             else c
            case _ => t.callbacks == c
  {
    if IsReader(e) || IsWriterEvent(e) {
      LoopsFrame(s, e);
    }
  }

  lemma CallbacksNext(side: Side, es: seq<Event>, t: State, s: State)
    requires |es| > 0 && Step(t, es[|es| - 1]) == Some(s) && t.side == side
    requires CallbacksAre(side, es[..|es| - 1], t.callbacks) && DownIs(side, es[..|es| - 1], t.down)
    requires TeardownOk(t.down) && OwnershipOk(t)
    ensures CallbacksAre(side, es, s.callbacks)
  {
    CallbackStepOnly(t, es[|es| - 1]);
  }

  lemma {:induction false} OwnerIsHistory(side: Side, es: seq<Event>, s: State)
    requires Reached(side, es, s)
    ensures OwnerIs(side, es, s.owner) && CallbacksAre(side, es, s.callbacks)
  {
    if |es| > 0 {
      var n := |es| - 1;
      var t := RunLast(Step, Init(side), es, s);
      OwnerIsHistory(side, es[..n], t);
      InvInit(side);
      InvRun(Init(side), es[..n], t);
      StartIsHistory(side, es[..n], t);
      DownIsHistory(side, es[..n], t);
      LoopsAreHistory(side, es[..n], t);
      OwnerNext(side, es, t, s);
      CallbacksNext(side, es, t, s);
    }
  }

  // ----- what can happen next -----

  /** A helper is in conn.Read, */
  predicate InRead(es: seq<Event>) {
    && Count(es, ReaderTakes) < Count(es, ReadStarts)
    && ReadReturned(es).None? && |Chunks(es)| == |SendResults(es)|
  }

  /** or in dataChannel.Send. */
  predicate InSend(es: seq<Event>) {
    Count(es, ReaderTakes) < Count(es, ReadStarts) && ReadReturned(es).None? && |Chunks(es)| > |SendResults(es)|
  }

  predicate CloseCan(side: Side, es: seq<Event>, signalled: bool) {
    && InsideClose(side, es)
    && (signalled && Closes(es) == 2 ==> WriterAt(side, es).AtSelect? || WriterAt(side, es).Writing?)
    && (signalled && Closes(es) == 3 ==> ReaderAt(side, es).Waiting?)
  }

  predicate CanHappen(side: Side, es: seq<Event>, e: Event) {
    match e
    case Build => Build !in es
    case Insert => side.Listener? && Build in es && Insert !in es && !InsideClose(side, es)
    case StartOwner => (if side.Listener? then Insert in es else Build in es) && StartOwner !in es
    case CancelContext => true
    case CallbackStarts => side.Listener? || Build in es
    case CallbackLocks => CallbacksBefore(side, es) > 0 && !InsideClose(side, es)
    case CallbackPushes => CallbacksAfter(side, es) > 0
    case OwnerReceives => OwnerOf(side, es).Selecting? && Slot(side, es).Some?
    case OwnerCanceled => OwnerOf(side, es).Selecting? && side.Listener? && CancelContext in es
    case OwnerLocks => OwnerOf(side, es).Cleaning? && !InsideClose(side, es)
    case OwnerClosesChannel => OwnerOf(side, es).ClosingChannel?
    case OwnerResolves => OwnerOf(side, es).Resolving?
    case CloseStep(signalled) => CloseCan(side, es, signalled)
    case ReadStarts => ReaderAt(side, es).AtTop?
    case ReadGets(op, bytes) => InRead(es) && op == Count(es, ReadStarts) - 1 && 0 < |bytes| <= CHUNK && Closes(es) < 2
    case ReadGetsNothing(op) => InRead(es) && op == Count(es, ReadStarts) - 1 && Closes(es) < 2
    case ReadFails(op, _) => InRead(es) && op == Count(es, ReadStarts) - 1
    case SendEnds(op, _) => InSend(es) && op == Count(es, ReadStarts) - 1
    case ReaderTakes => ReaderAt(side, es).Waiting? && ReadReturned(es).Some?
    case ReaderStops => ReaderAt(side, es).Waiting? && Closes(es) == 6
    case ReaderPushes => ReaderAt(side, es).ReaderFailing?
    case Arrives(_) => Build in es && |Arrived(es)| - Count(es, WriterTakes) < BACKLOG
    case WriterTakes => WriterAt(side, es).AtSelect? && Count(es, WriterTakes) < |Arrived(es)|
    case WriteEnds(op, k, result) =>
      && op < Count(es, WriterTakes) <= |Arrived(es)| && WriteReturned(es, op).None? && k <= |Arrived(es)[op]|
      && (result.None? ==> k == |Arrived(es)[op]|) && (Closes(es) >= 2 ==> result.Some?)
    case WriterTakesResult => WriterAt(side, es).Writing? && WriteReturned(es, Current(es)).Some?
    case WriterTimesOut => WriterAt(side, es).Writing?
    case WriterStops => (WriterAt(side, es).AtSelect? || WriterAt(side, es).Writing?) && Closes(es) >= 5
    case WriterPushes => WriterAt(side, es).WriterFailing?
  }

  lemma StartCan(side: Side, es: seq<Event>, s: State, e: Event)
    requires Reached(side, es, s) && IsStart(e)
    ensures Step(s, e).Some? <==> CanHappen(side, es, e)
  {
    StartIsHistory(side, es, s);
    DownIsHistory(side, es, s);
  }

  lemma CallbackCan(side: Side, es: seq<Event>, s: State, e: Event)
    requires Reached(side, es, s) && IsCallback(e)
    ensures Step(s, e).Some? <==> CanHappen(side, es, e)
  {
    StartIsHistory(side, es, s);
    DownIsHistory(side, es, s);
    OwnerIsHistory(side, es, s);
  }

  lemma OwnerCan(side: Side, es: seq<Event>, s: State, e: Event)
    requires Reached(side, es, s) && IsOwner(e)
    ensures Step(s, e).Some? <==> CanHappen(side, es, e)
  {
    OwnerFacts(side, es, s);
    OwnerGuard(s, e);
  }

  lemma OwnerFacts(side: Side, es: seq<Event>, s: State)
    requires Reached(side, es, s)
    ensures s.side == side && s.ctxDone == (CancelContext in es) && s.owner == OwnerOf(side, es)
    ensures s.down.closing.Free? <==> !InsideClose(side, es)
    ensures |s.eol.buffer| > 0 <==> Slot(side, es).Some?
  {
    StartIsHistory(side, es, s);
    DownIsHistory(side, es, s);
    OwnerIsHistory(side, es, s);
    LoopsAreHistory(side, es, s);
  }

  lemma OwnerGuard(s: State, e: Event)
    requires IsOwner(e)
    ensures Step(s, e).Some? <==>
            match e
            case OwnerReceives => s.owner.Selecting? && |s.eol.buffer| > 0
            case OwnerCanceled => s.owner.Selecting? && s.side.Listener? && s.ctxDone
            case OwnerLocks => s.owner.Cleaning? && s.down.closing.Free?
            case OwnerClosesChannel => s.owner.ClosingChannel?
            case _ => s.owner.Resolving?
  {
  }

  lemma CloserCan(side: Side, es: seq<Event>, s: State, signalled: bool)
    requires Reached(side, es, s)
    ensures Step(s, CloseStep(signalled)).Some? <==> CloseCan(side, es, signalled)
  {
    DownIsHistory(side, es, s);
    LoopsAreHistory(side, es, s);
    CloseGuard(s, signalled);
  }

  lemma CloseGuard(s: State, signalled: bool)
    ensures Step(s, CloseStep(signalled)).Some? <==>
            && s.down.closing.Closing?
            && (signalled && s.down.closing.stage.AtSignalWrite? ==> s.writer.pc.AtSelect? || s.writer.pc.Writing?)
            && (signalled && s.down.closing.stage.AtSignalRead? ==> s.reader.pc.Waiting?)
  {
  }

  /** Which helper is where, seen from the history. */
  lemma HelperAt(side: Side, es: seq<Event>, r: Reader, op: nat)
    requires ReaderIs(side, es, r) && RelayedUp(es, r) && OneRead(r) && RelaysUp(r)
    ensures op < |r.ops| && r.ops[op].Reading? <==> InRead(es) && op == Count(es, ReadStarts) - 1
    ensures op < |r.ops| && r.ops[op].Sending? <==> InSend(es) && op == Count(es, ReadStarts) - 1
    ensures r.pc.Waiting? ==> r.pc.op < |r.ops| && (r.ops[r.pc.op].ReadDone? <==> ReadReturned(es).Some?)
  {
  }

  lemma ReaderCan(side: Side, es: seq<Event>, s: State, e: Event)
    requires Reached(side, es, s) && IsReader(e)
    ensures Step(s, e).Some? <==> CanHappen(side, es, e)
  {
    ReaderFacts(side, es, s);
    if OfHelper(e) {
      HelperGuard(s, e);
      HelperAt(side, es, s.reader, e.op);
    } else {
      ReaderGuard(s, e);
      HelperAt(side, es, s.reader, 0);
    }
  }

  lemma ReaderFacts(side: Side, es: seq<Event>, s: State)
    requires Reached(side, es, s)
    ensures ReaderIs(side, es, s.reader) && RelayedUp(es, s.reader) && OneRead(s.reader) && RelaysUp(s.reader)
    ensures s.down.connClosed == (Closes(es) >= 2) && (s.down.readStops > 0 <==> Closes(es) == 6)
  {
    InvInit(side);
    InvRun(Init(side), es, s);
    DownIsHistory(side, es, s);
    LoopsAreHistory(side, es, s);
  }

  lemma HelperGuard(s: State, e: Event)
    requires OfHelper(e) && RelaysUp(s.reader) && OneRead(s.reader)
    ensures Step(s, e).Some? <==>
            && e.op < |s.reader.ops|
            && match e
               case ReadGets(op, bytes) => s.reader.ops[op].Reading? && 0 < |bytes| <= CHUNK && !s.down.connClosed
               case ReadGetsNothing(op) => s.reader.ops[op].Reading? && !s.down.connClosed
               case ReadFails(op, _) => s.reader.ops[op].Reading?
               case SendEnds(op, _) => s.reader.ops[op].Sending?
               case _ => true
  {
    if e.op < |s.reader.ops| && s.reader.ops[e.op].Sending? {
      LastHelper(s.reader, e.op);
    }
  }

  lemma ReaderGuard(s: State, e: Event)
    requires IsReader(e) && !OfHelper(e)
    ensures Step(s, e).Some? <==>
            match e
            case ReadStarts => s.reader.pc.AtTop?
            case ReaderTakes =>
              s.reader.pc.Waiting? && s.reader.pc.op < |s.reader.ops| && s.reader.ops[s.reader.pc.op].ReadDone?
            case ReaderStops => s.reader.pc.Waiting? && s.down.readStops > 0
            case _ => s.reader.pc.ReaderFailing?
  {
  }

  lemma WriterCan(side: Side, es: seq<Event>, s: State, e: Event)
    requires Reached(side, es, s) && IsWriterEvent(e)
    ensures Step(s, e).Some? <==> CanHappen(side, es, e)
  {
    WriterFacts(side, es, s);
    if e.WriteEnds? {
      WriteGuard(s, e.op, e.n, e.result);
      WriteAt(es, s.writer, e.op);
    } else {
      LoopGuard(s, e);
      if s.writer.pc.Writing? {
        WriteAt(es, s.writer, s.writer.pc.op);
      }
    }
  }

  lemma WriterFacts(side: Side, es: seq<Event>, s: State)
    requires Reached(side, es, s)
    ensures WriterIs(side, es, s.writer) && RelayedDown(es, s.writer) && TakesInOrder(s.writer)
    ensures s.down.connClosed == (Closes(es) >= 2) && (s.down.writeStops > 0 <==> Closes(es) >= 5)
    ensures s.starter.AtNewProxy? <==> Build !in es
  {
    InvInit(side);
    InvRun(Init(side), es, s);
    StartIsHistory(side, es, s);
    DownIsHistory(side, es, s);
    LoopsAreHistory(side, es, s);
  }

  lemma WriteAt(es: seq<Event>, w: Writer, op: nat)
    requires RelayedDown(es, w)
    ensures |w.ops| == Count(es, WriterTakes) <= |Arrived(es)|
    ensures op < |w.ops| ==>
              && w.ops[op].data == Arrived(es)[op]
              && (w.ops[op].status.Outstanding? <==> WriteReturned(es, op).None?)
  {
    assert op < |w.ops| ==> WriteIs(es, w.ops[op], op);
  }

  lemma WriteGuard(s: State, op: nat, k: nat, result: Error)
    ensures Step(s, WriteEnds(op, k, result)).Some? <==>
            && op < |s.writer.ops| && s.writer.ops[op].status.Outstanding? && k <= |s.writer.ops[op].data|
            && (result.None? ==> k == |s.writer.ops[op].data|) && (s.down.connClosed ==> result.Some?)
  {
  }

  lemma LoopGuard(s: State, e: Event)
    requires IsWriterEvent(e) && !e.WriteEnds? && TakesInOrder(s.writer)
    ensures Step(s, e).Some? <==>
            match e
            case Arrives(_) => !s.starter.AtNewProxy? && |s.writer.buffer| < BACKLOG
            case WriterTakes => s.writer.pc.AtSelect? && |s.writer.buffer| > 0
            case WriterTakesResult => s.writer.pc.Writing? && !s.writer.ops[s.writer.pc.op].status.Outstanding?
            case WriterTimesOut => s.writer.pc.Writing?
            case WriterStops => (s.writer.pc.AtSelect? || s.writer.pc.Writing?) && s.down.writeStops > 0
            case _ => s.writer.pc.WriterFailing?
  {
  }

  /** A step is possible exactly when the history allows it. */
  lemma HappensExactly(side: Side, es: seq<Event>, s: State, e: Event)
    requires Reached(side, es, s)
    ensures Step(s, e).Some? <==> CanHappen(side, es, e)
  {
    if IsStart(e) { StartCan(side, es, s, e); }
    else if IsCallback(e) { CallbackCan(side, es, s, e); }
    else if IsOwner(e) { OwnerCan(side, es, s, e); }
    else if e.CloseStep? { CloserCan(side, es, s, e.signalled); }
    else if IsReader(e) { ReaderCan(side, es, s, e); }
    else { WriterCan(side, es, s, e); }
  }

  ghost function Can(side: Side): (seq<Event>, Event) -> bool {
    (es, e) => CanHappen(side, es, e)
  }

  ghost predicate Possible(side: Side, es: seq<Event>) {
    Allowed(Can(side), es)
  }

  /** The runs of a proxied connection are exactly the schedules whose events could each happen then. */
  lemma RunsAreHistories(side: Side, es: seq<Event>)
    ensures Run(Step, Init(side), es).Some? <==> Possible(side, es)
  {
    forall fs, s, e | Reached(side, fs, s) ensures Can(side)(fs, e) <==> Step(s, e).Some? {
      HappensExactly(side, fs, s, e);
    }
    RunsAreAllowed(Can(side), Step, Init(side), es);
  }

  // ----- what follows -----

  lemma ReaderReports(side: Side, es: seq<Event>, r: Reader)
    requires ReaderIs(side, es, r)
    ensures r.failures == |ReadErrors(es)|
    ensures Count(es, ReaderPushes) + (if r.pc.ReaderFailing? then 1 else 0) == |ReadErrors(es)|
  {
  }

  lemma ReaderMustPush(side: Side, es: seq<Event>)
    requires ReaderAt(side, es).ReaderFailing?
    ensures CanHappen(side, es, ReaderPushes)
    ensures forall e | IsReader(e) && !OfHelper(e) && CanHappen(side, es, e) :: e == ReaderPushes
  {
  }

  lemma WriterMustPush(side: Side, es: seq<Event>)
    requires WriterAt(side, es).WriterFailing?
    ensures CanHappen(side, es, WriterPushes)
    ensures forall e | MovesWritingLoop(e) && CanHappen(side, es, e) :: e == WriterPushes
  {
  }

  lemma WriterReports(side: Side, es: seq<Event>, w: Writer)
    requires WriterIs(side, es, w)
    ensures w.failures == |WriteErrors(es)|
    ensures Count(es, WriterPushes) + (if w.pc.WriterFailing? then 1 else 0) == |WriteErrors(es)|
  {
  }

  predicate MovesWritingLoop(e: Event) {
    e.WriterTakes? || e.WriterTakesResult? || e.WriterTimesOut? || e.WriterStops? || e.WriterPushes?
  }

  /** Every error that a loop received, and every time-out, is one failure of it, and is followed by exactly one attempt
      to signal it, which is the loop's very next step. */
  lemma ErrorsAreReported(side: Side, es: seq<Event>, s: State)
    requires Reached(side, es, s)
    ensures s.reader.failures == |ReadErrors(es)| && s.writer.failures == |WriteErrors(es)|
    ensures Count(es, ReaderPushes) + (if s.reader.pc.ReaderFailing? then 1 else 0) == |ReadErrors(es)|
    ensures Count(es, WriterPushes) + (if s.writer.pc.WriterFailing? then 1 else 0) == |WriteErrors(es)|
    ensures s.reader.pc.ReaderFailing? ==>
              && CanHappen(side, es, ReaderPushes)
              && forall e | IsReader(e) && !OfHelper(e) && CanHappen(side, es, e) :: e == ReaderPushes
    ensures s.writer.pc.WriterFailing? ==>
              && CanHappen(side, es, WriterPushes)
              && forall e | MovesWritingLoop(e) && CanHappen(side, es, e) :: e == WriterPushes
  {
    LoopsAreHistory(side, es, s);
    ReaderReports(side, es, s.reader);
    WriterReports(side, es, s.writer);
    if s.reader.pc.ReaderFailing? {
      ReaderMustPush(side, es);
    }
    if s.writer.pc.WriterFailing? {
      WriterMustPush(side, es);
    }
  }

  lemma ToldPastSelect(side: Side, es: seq<Event>, o: Owner)
    requires OwnerIs(side, es, o)
    ensures OwnerPastSelect(o) <==> Told(side, es).Some?
    ensures OwnerPastSelect(o) ==> o.err == Told(side, es).value
  {
  }

  /** What lies in eolSig is what was signalled first since the owner last received; and what the owner ends with is
      what lay there when it left its select, or the cancellation. */
  lemma OwnerIsTold(side: Side, es: seq<Event>, s: State)
    requires Reached(side, es, s)
    ensures s.eol.buffer == match Slot(side, es) case None => [] case Some(signal) => [signal]
    ensures OwnerPastSelect(s.owner) <==> Told(side, es).Some?
    ensures OwnerPastSelect(s.owner) ==> s.owner.err == Told(side, es).value
  {
    LoopsAreHistory(side, es, s);
    OwnerIsHistory(side, es, s);
    ToldPastSelect(side, es, s.owner);
  }

  /** The loops' other steps touch neither the slot nor the owner. */
  lemma LoopsKeepOwner(side: Side, es: seq<Event>, e: Event)
    requires e.ReaderTakes? || e.WriterTakesResult? || e.WriterTimesOut?
    ensures var fs := es + [e];
            && Slot(side, fs) == Slot(side, es) && (OwnerOf(side, es).Selecting? ==> OwnerOf(side, fs).Selecting?)
  {
    var fs := es + [e];
    assert fs[..|es|] == es;
  }

  lemma ReadFailureTaken(side: Side, es: seq<Event>, err: Err)
    requires CanHappen(side, es, ReaderTakes) && ReadReturned(es) == Some(Some(err))
    requires Count(es, ReaderPushes) == |ReadErrors(es)|
    ensures CanHappen(side, es + [ReaderTakes], ReaderPushes) && Latest(ReadErrors(es + [ReaderTakes])) == err
  {
    var fs := es + [ReaderTakes];
    assert fs[..|es|] == es;
  }

  lemma WriteFailureTaken(side: Side, es: seq<Event>, err: Err)
    requires CanHappen(side, es, WriterTakesResult) && WriteReturned(es, Current(es)) == Some(Some(err))
    requires Count(es, WriterPushes) == |WriteErrors(es)|
    ensures CanHappen(side, es + [WriterTakesResult], WriterPushes)
    ensures Latest(WriteErrors(es + [WriterTakesResult])) == err
  {
    var fs := es + [WriterTakesResult];
    assert fs[..|es|] == es;
  }

  lemma TimeOutTaken(side: Side, es: seq<Event>)
    requires CanHappen(side, es, WriterTimesOut) && Count(es, WriterPushes) == |WriteErrors(es)|
    ensures CanHappen(side, es + [WriterTimesOut], WriterPushes)
    ensures Latest(WriteErrors(es + [WriterTimesOut])) == TimedOut
  {
    var fs := es + [WriterTimesOut];
    assert fs[..|es|] == es;
  }

  /** A signal into an empty slot, and the owner's receive. */
  lemma SignalReceived(side: Side, es: seq<Event>, push: Event, signal: Error)
    requires CanHappen(side, es, push) && Slot(side, es).None? && OwnerOf(side, es).Selecting?
    requires || (push == ReaderPushes && signal == Some(ReadReport(Latest(ReadErrors(es)))))
             || (push == WriterPushes && signal == Some(WriteReport(Latest(WriteErrors(es)))))
    requires Possible(side, es)
    ensures Possible(side, es + [push] + [OwnerReceives]) && Told(side, es + [push] + [OwnerReceives]) == Some(signal)
  {
    var fs := es + [push];
    assert fs[..|es|] == es;
    assert Slot(side, fs) == Some(signal) && OwnerOf(side, fs).Selecting?;
    PossibleThen(side, es, push);
    PossibleThen(side, fs, OwnerReceives);
    assert (fs + [OwnerReceives])[..|fs|] == fs;
  }

  lemma PossibleThen(side: Side, es: seq<Event>, e: Event)
    requires Possible(side, es) && CanHappen(side, es, e)
    ensures Possible(side, es + [e])
  {
    assert (es + [e])[..|es|] == es;
  }

  lemma NoFailurePending(side: Side, es: seq<Event>, s: State)
    requires Reached(side, es, s)
    ensures Possible(side, es)
    ensures s.owner == OwnerOf(side, es) && s.reader.pc == ReaderAt(side, es) && s.writer.pc == WriterAt(side, es)
    ensures s.reader.pc.Waiting? ==> Count(es, ReaderPushes) == |ReadErrors(es)|
    ensures s.writer.pc.Writing? ==> Count(es, WriterPushes) == |WriteErrors(es)|
  {
    RunsAreHistories(side, es);
    ErrorsAreReported(side, es, s);
    LoopsAreHistory(side, es, s);
    OwnerIsHistory(side, es, s);
  }

  /** An error of the reading side reaches the owner: when conn.Read or dataChannel.Send has failed and the loop waits
      for it, the loop can take the error and signal it, and the owner, if nothing was signalled before, leaves its
      select with exactly that error, reported as end-of-file if a connection was closed. */
  lemma ReadFailureReachesOwner(side: Side, es: seq<Event>, s: State, err: Err)
    requires Reached(side, es, s) && s.reader.pc.Waiting? && ReadReturned(es) == Some(Some(err))
    requires s.owner.Selecting? && Slot(side, es).None?
    ensures Possible(side, es + [ReaderTakes] + [ReaderPushes] + [OwnerReceives])
    ensures Told(side, es + [ReaderTakes] + [ReaderPushes] + [OwnerReceives]) == Some(Some(ReadReport(err)))
  {
    NoFailurePending(side, es, s);
    ReadFailureTaken(side, es, err);
    LoopsKeepOwner(side, es, ReaderTakes);
    PossibleThen(side, es, ReaderTakes);
    SignalReceived(side, es + [ReaderTakes], ReaderPushes, Some(ReadReport(err)));
  }

  /** So does one of the writing side, when conn.Write has failed, or 100 ms have passed. */
  lemma WriteFailureReachesOwner(side: Side, es: seq<Event>, s: State, e: Event, err: Err)
    requires Reached(side, es, s) && s.writer.pc.Writing?
    requires || (e.WriterTakesResult? && WriteReturned(es, Current(es)) == Some(Some(err)))
             || (e.WriterTimesOut? && err == TimedOut)
    requires s.owner.Selecting? && Slot(side, es).None?
    ensures Possible(side, es + [e] + [WriterPushes] + [OwnerReceives])
    ensures Told(side, es + [e] + [WriterPushes] + [OwnerReceives]) == Some(Some(WriteReport(err)))
  {
    NoFailurePending(side, es, s);
    if e.WriterTakesResult? {
      WriteFailureTaken(side, es, err);
    } else {
      TimeOutTaken(side, es);
    }
    LoopsKeepOwner(side, es, e);
    PossibleThen(side, es, e);
    SignalReceived(side, es + [e], WriterPushes, Some(WriteReport(err)));
  }

  /** No end-of-life is lost: once any signal was attempted, accepted or not, it or an earlier one lies in the slot, or
      the owner has left its select. */
  lemma {:induction false} NoSignalLost(side: Side, es: seq<Event>)
    requires Possible(side, es)
    requires ReaderPushes in es || WriterPushes in es || CallbackPushes in es
    ensures Slot(side, es).Some? || Told(side, es).Some?
  {
    var n := |es| - 1;
    if ReaderPushes in es[..n] || WriterPushes in es[..n] || CallbackPushes in es[..n] {
      NoSignalLost(side, es[..n]);
    }
    SignalStays(side, es);
  }

  lemma SignalStays(side: Side, es: seq<Event>)
    requires |es| > 0 && CanHappen(side, es[..|es| - 1], es[|es| - 1])
    requires var e := es[|es| - 1];
             || Slot(side, es[..|es| - 1]).Some? || Told(side, es[..|es| - 1]).Some?
             || e == ReaderPushes || e == WriterPushes || e == CallbackPushes
    ensures Slot(side, es).Some? || Told(side, es).Some?
  {
  }

  /** Upstream, in terms of what was read and sent: the data channel is given each chunk as it was read, by the helper
      that read it, and what it accepted is what the state says was sent. */
  lemma ChunksAreSent(side: Side, es: seq<Event>, s: State)
    requires Reached(side, es, s)
    ensures s.reader.got == Chunks(es) && s.reader.sent == Accepted(es)
    ensures |SendResults(es)| <= |Chunks(es)| <= |SendResults(es)| + 1
    ensures (forall i | 0 <= i < |SendResults(es)| :: SendResults(es)[i].None?) ==>
              Accepted(es) == Chunks(es)[..|SendResults(es)|] && Flat(Accepted(es)) <= Flat(Chunks(es))
  {
    LoopsAreHistory(side, es, s);
    UpstreamRelay(side, es, s, 0);
  }

  /** Downstream: what conn.Write has written, as a function of the messages and of what it returned. */
  lemma MessagesAreWritten(side: Side, es: seq<Event>, s: State)
    requires Reached(side, es, s)
    ensures s.writer.arrivals == Arrived(es) && s.writer.socket == Written(es)
    ensures WriteErrors(es) == [] ==> Written(es) <= Flat(Arrived(es))
  {
    LoopsAreHistory(side, es, s);
    DownstreamRelay(side, es, s);
  }
}
