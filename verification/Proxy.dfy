/**
  One proxied connection: the Proxy with its two relay loops, and whoever owns
  it, which is ListenerNetConn.startProxy with its map of proxies on one side and
  AgentNetConn.onDataChannelHandler on the other. Each event is one region that
  runs without interleaving; Close is not such a region, only the lock around it
  on the listener's side keeps a second Close out.
 */
module Proxy {
  import opened Runs

  type Bytes = seq<bv8>

  /** Size of readBuf and capacity of writingBuf. */
  const CHUNK := 1024
  const BACKLOG := 1024

  datatype Err = EOF | ClosedPipe | NetClosed | Canceled | TimedOut | Other

  /** A Go error; None is nil. */
  type Error = Option<Err>

  datatype Side = Listener | Agent

  /** How far the goroutine that creates the proxy has come. */
  datatype Starter = AtNewProxy | AtInsert | AtGo | Started

  datatype Owner =
    | NotStarted
    | Selecting
    | Cleaning(err: Error)         // left its select
    | InClose(err: Error)
    | ClosingChannel(err: Error)
    | Resolving(err: Error)
    | Resolved(err: Error)

  /** Who is inside Close. */
  datatype Closer = ByOwner | ByCallback
  datatype Stage = AtLatch | AtConn | AtSignalWrite | AtSignalRead | AtCloseWrite | AtCloseRead
  datatype Closing = Free | Closing(who: Closer, stage: Stage)

  datatype Teardown = Teardown(
    inMap: bool,
    closing: Closing,
    latch: nat,              // the capacity-1 channel `stopped`
    bodies: nat,             // times Close got past it
    connClosed: bool,
    writeStops: nat,         // closes of stopSigWrite
    readStops: nat,          // closes of stopSigRead
    misuse: bool)            // a stop channel closed twice, or sent on after being closed

  datatype Eol = Eol(
    buffer: seq<Error>,      // eolSig
    received: nat,           // by the owner
    byReader: nat,           // accepted sends, by sender
    byWriter: nat,
    byCallback: nat,
    attempts: nat)

  /** Close callbacks under way: before their clean-up, and before their end-of-life signal. */
  datatype Callbacks = Callbacks(cleaning: nat, pushing: nat)

  /** A goroutine started by async.Async around conn.Read and dataChannel.Send. */
  datatype ReadOp = Reading | Sending(n: nat) | ReadDone(err: Error) | ReadTaken
  datatype ReaderPc = ReaderUnborn | AtTop | Waiting(op: nat) | ReaderFailing(err: Err) | ReaderExited

  datatype Reader = Reader(
    pc: ReaderPc,
    ops: seq<ReadOp>,
    buf: Bytes,              // readBuf
    got: seq<Bytes>,         // what each read that got data put into it
    outcomes: seq<bool>,     // whether the data channel accepted each
    sent: seq<Bytes>,        // what it accepted
    failures: nat,           // iterations that ended with an error
    rejected: bool)          // exited because trySendEoL failed

  datatype WriteStatus = Outstanding | WriteDone(err: Error) | WriteTaken(err: Error)
  datatype WriteOp = WriteOp(data: Bytes, status: WriteStatus)
  datatype WriterPc = WriterUnborn | AtSelect | Writing(op: nat) | WriterFailing(err: Err) | WriterExited

  datatype Writer = Writer(
    pc: WriterPc,
    ops: seq<WriteOp>,
    arrivals: seq<Bytes>,    // messages from the data channel
    buffer: seq<Bytes>,      // writingBuf
    socket: Bytes,           // what conn.Write has written
    failures: nat,
    timeouts: nat,           // of those, the 100 ms ones
    rejected: bool)

  datatype State = State(
    side: Side,
    starter: Starter,
    ctxDone: bool,
    owner: Owner,
    callbacks: Callbacks,
    down: Teardown,
    eol: Eol,
    reader: Reader,
    writer: Writer)

  datatype Event =
    | Build | Insert | StartOwner | CancelContext
    | CallbackStarts | CallbackLocks | CallbackPushes
    | OwnerReceives | OwnerCanceled | OwnerLocks | OwnerClosesChannel | OwnerResolves
    | CloseStep(signalled: bool)
    | ReadStarts
    | ReadGets(op: nat, bytes: Bytes)
    | ReadGetsNothing(op: nat)
    | ReadFails(op: nat, err: Err)
    | SendEnds(op: nat, result: Error)
    | ReaderTakes | ReaderStops | ReaderPushes
    | Arrives(data: Bytes)
    | WriterTakes
    | WriteEnds(op: nat, n: nat, result: Error)
    | WriterTakesResult | WriterTimesOut | WriterStops | WriterPushes

  /** make([]byte, 1024) */
  function EmptyBuffer(): (b: Bytes)
    ensures |b| == CHUNK
  {
    seq(CHUNK, _ => 0)
  }

  function Init(side: Side): State {
    State(side, AtNewProxy, false, NotStarted, Callbacks(0, 0),
          Teardown(false, Free, 0, 0, false, 0, 0, false),
          Eol([], 0, 0, 0, 0, 0),
          Reader(ReaderUnborn, [], EmptyBuffer(), [], [], [], 0, false),
          Writer(WriterUnborn, [], [], [], [], 0, 0, false))
  }

  // ----- trySendEoL -----

  datatype Sender = FromReader | FromWriter | FromCallback

  /** A non-blocking send on a channel with one slot. */
  predicate Accepts(e: Eol) {
    |e.buffer| == 0
  }

  function Pushed(e: Eol, from: Sender, err: Error): Eol {
    var t := e.(attempts := e.attempts + 1);
    if !Accepts(e) then t
    else match from
      case FromReader => t.(buffer := [err], byReader := e.byReader + 1)
      case FromWriter => t.(buffer := [err], byWriter := e.byWriter + 1)
      case FromCallback => t.(buffer := [err], byCallback := e.byCallback + 1)
  }

  // ----- the owner, the callbacks and Close -----

  predicate OwnerPastSelect(o: Owner) {
    !o.NotStarted? && !o.Selecting?
  }

  /** The callback is registered before NewProxy by startProxy, after it by onDataChannelHandler. */
  predicate CallbackRegistered(s: State) {
    s.side.Listener? || s.starter.AtGo? || s.starter.Started?
  }

  function StepStart(s: State, e: Event): Option<State> {
    match e
    case Build =>
      if s.starter.AtNewProxy? then
        Some(s.(starter := if s.side.Listener? then AtInsert else AtGo,
                reader := s.reader.(pc := AtTop), writer := s.writer.(pc := AtSelect)))
      else None
    case Insert =>
      if s.starter.AtInsert? && s.down.closing.Free? then
        Some(s.(starter := AtGo, down := s.down.(inMap := true)))
      else None
    case StartOwner =>
      if s.starter.AtGo? then Some(s.(starter := Started, owner := Selecting)) else None
    case CancelContext => Some(s.(ctxDone := true))
    case _ => None
  }

  function StepCallback(s: State, e: Event): Option<State> {
    var c := s.callbacks;
    match e
    case CallbackStarts =>
      if CallbackRegistered(s) then
        Some(s.(callbacks := if s.side.Listener? then c.(cleaning := c.cleaning + 1) else c.(pushing := c.pushing + 1)))
      else None
    case CallbackLocks =>
      if c.cleaning > 0 && s.down.closing.Free? then
        if s.down.inMap then
          Some(s.(callbacks := c.(cleaning := c.cleaning - 1),
                  down := s.down.(inMap := false, closing := Closing(ByCallback, AtLatch))))
        else Some(s.(callbacks := Callbacks(c.cleaning - 1, c.pushing + 1)))
      else None
    case CallbackPushes =>
      if c.pushing > 0 then
        Some(s.(callbacks := c.(pushing := c.pushing - 1),
                eol := Pushed(s.eol, FromCallback, if s.side.Listener? then None else Some(EOF))))
      else None
    case _ => None
  }

  function StepOwner(s: State, e: Event): Option<State> {
    match e
    case OwnerReceives =>
      if s.owner.Selecting? && |s.eol.buffer| > 0 then
        Some(s.(owner := Cleaning(s.eol.buffer[0]),
                eol := s.eol.(buffer := s.eol.buffer[1..], received := s.eol.received + 1)))
      else None
    case OwnerCanceled =>
      if s.owner.Selecting? && s.side.Listener? && s.ctxDone then Some(s.(owner := Cleaning(Some(Canceled)))) else None
    case OwnerLocks =>
      if s.owner.Cleaning? && s.down.closing.Free? then
        if s.side.Agent? || s.down.inMap then
          Some(s.(owner := InClose(s.owner.err), down := s.down.(inMap := false, closing := Closing(ByOwner, AtLatch))))
        else Some(s.(owner := ClosingChannel(s.owner.err)))
      else None
    case OwnerClosesChannel =>
      if s.owner.ClosingChannel? then Some(s.(owner := Resolving(s.owner.err))) else None
    case OwnerResolves =>
      if s.owner.Resolving? then Some(s.(owner := Resolved(s.owner.err))) else None
    case _ => None
  }

  /** Close returns to whoever called it. */
  function Returned(s: State): State {
    var d := s.down.(closing := Free);
    if s.down.closing.Closing? && s.down.closing.who.ByCallback? then
      s.(down := d, callbacks := s.callbacks.(pushing := s.callbacks.pushing + 1))
    else if s.owner.InClose? then s.(down := d, owner := ClosingChannel(s.owner.err))
    else s.(down := d)
  }

  /** One statement of Close. `signalled` says whether a stop signal found its loop parked in a select. */
  function StepClose(s: State, signalled: bool): Option<State> {
    if s.down.closing.Free? then None
    else
      var d := s.down;
      var who := d.closing.who;
      match d.closing.stage
      case AtLatch =>
        if d.latch == 0 then
          Some(s.(down := d.(latch := 1, bodies := d.bodies + 1, closing := Closing(who, AtConn))))
        else Some(Returned(s))
      case AtConn => Some(s.(down := d.(connClosed := true, closing := Closing(who, AtSignalWrite))))
      case AtSignalWrite =>
        if signalled && !s.writer.pc.AtSelect? && !s.writer.pc.Writing? then None
        else Some(s.(down := d.(closing := Closing(who, AtSignalRead), misuse := d.misuse || d.writeStops > 0),
                     writer := if signalled then s.writer.(pc := WriterExited) else s.writer))
      case AtSignalRead =>
        if signalled && !s.reader.pc.Waiting? then None
        else Some(s.(down := d.(closing := Closing(who, AtCloseWrite), misuse := d.misuse || d.readStops > 0),
                     reader := if signalled then s.reader.(pc := ReaderExited) else s.reader))
      case AtCloseWrite =>
        Some(s.(down := d.(closing := Closing(who, AtCloseRead), misuse := d.misuse || d.writeStops > 0,
                           writeStops := d.writeStops + 1)))
      case AtCloseRead =>
        Some(Returned(s.(down := d.(misuse := d.misuse || d.readStops > 0, readStops := d.readStops + 1))))
  }

  // ----- readingLoop -----

  function SetRead(r: Reader, op: nat, status: ReadOp): Reader
    requires op < |r.ops|
  {
    r.(ops := r.ops[op := status])
  }

  /** conn.Read puts its data at the front of the one readBuf. */
  function Filled(buf: Bytes, bytes: Bytes): Bytes {
    if |bytes| <= |buf| then bytes + buf[|bytes|..] else buf
  }

  /** The helper turns a closed connection into end-of-file, */
  function ReadError(err: Err): Err {
    if err.NetClosed? then EOF else err
  }

  /** and so does the loop. */
  function LoopError(err: Err): Err {
    if err.NetClosed? || err.ClosedPipe? then EOF else err
  }

  function StepReader(s: State, e: Event): Option<State> {
    var r := s.reader;
    match e
    case ReadStarts =>
      if r.pc.AtTop? then Some(s.(reader := r.(pc := Waiting(|r.ops|), ops := r.ops + [Reading]))) else None
    case ReadGets(op, bytes) =>
      if op < |r.ops| && r.ops[op].Reading? && 0 < |bytes| <= |r.buf| && !s.down.connClosed then
        Some(s.(reader := SetRead(r, op, Sending(|bytes|)).(buf := Filled(r.buf, bytes), got := r.got + [bytes])))
      else None
    case ReadGetsNothing(op) =>
      if op < |r.ops| && r.ops[op].Reading? && !s.down.connClosed then
        Some(s.(reader := SetRead(r, op, ReadDone(None))))
      else None
    case ReadFails(op, err) =>
      if op < |r.ops| && r.ops[op].Reading? then
        Some(s.(reader := SetRead(r, op, ReadDone(Some(ReadError(err))))))
      else None
    case SendEnds(op, result) =>
      if op < |r.ops| && r.ops[op].Sending? && r.ops[op].n <= |r.buf| then
        var t := SetRead(r, op, ReadDone(result)).(outcomes := r.outcomes + [result.None?]);
        Some(s.(reader := if result.None? then t.(sent := r.sent + [r.buf[..r.ops[op].n]]) else t))
      else None
    case ReaderTakes =>
      if r.pc.Waiting? && r.pc.op < |r.ops| && r.ops[r.pc.op].ReadDone? then
        var err := r.ops[r.pc.op].err;
        var t := SetRead(r, r.pc.op, ReadTaken);
        Some(s.(reader := if err.None? then t.(pc := AtTop)
                          else t.(pc := ReaderFailing(LoopError(err.value)), failures := r.failures + 1)))
      else None
    case ReaderStops =>
      if r.pc.Waiting? && s.down.readStops > 0 then Some(s.(reader := r.(pc := ReaderExited))) else None
    case ReaderPushes =>
      if r.pc.ReaderFailing? then
        Some(s.(eol := Pushed(s.eol, FromReader, Some(r.pc.err)),
                reader := if Accepts(s.eol) then r.(pc := AtTop) else r.(pc := ReaderExited, rejected := true)))
      else None
    case _ => None
  }

  // ----- writingLoop -----

  function SetWrite(w: Writer, op: nat, status: WriteStatus): Writer
    requires op < |w.ops|
  {
    w.(ops := w.ops[op := w.ops[op].(status := status)])
  }

  function WriteError(err: Err): Err {
    if err.ClosedPipe? then EOF else err
  }

  function StepWriter(s: State, e: Event): Option<State> {
    var w := s.writer;
    match e
    case Arrives(data) =>
      if !s.starter.AtNewProxy? && |w.buffer| < BACKLOG then
        Some(s.(writer := w.(arrivals := w.arrivals + [data], buffer := w.buffer + [data])))
      else None
    case WriterTakes =>
      if w.pc.AtSelect? && |w.buffer| > 0 then
        Some(s.(writer := w.(pc := Writing(|w.ops|), ops := w.ops + [WriteOp(w.buffer[0], Outstanding)],
                             buffer := w.buffer[1..])))
      else None
    case WriteEnds(op, n, result) =>
      if op < |w.ops| && w.ops[op].status.Outstanding? && n <= |w.ops[op].data|
         && (result.None? ==> n == |w.ops[op].data|)
         && (s.down.connClosed ==> result.Some?)
      then
        var err := if result.None? then None else Some(WriteError(result.value));
        Some(s.(writer := SetWrite(w, op, WriteDone(err)).(socket := w.socket + w.ops[op].data[..n])))
      else None
    case WriterTakesResult =>
      if w.pc.Writing? && w.pc.op < |w.ops| && w.ops[w.pc.op].status.WriteDone? then
        var err := w.ops[w.pc.op].status.err;
        var t := SetWrite(w, w.pc.op, WriteTaken(err));
        Some(s.(writer := if err.None? then t.(pc := AtSelect)
                          else t.(pc := WriterFailing(err.value), failures := w.failures + 1)))
      else None
    case WriterTimesOut =>
      if w.pc.Writing? then
        Some(s.(writer := w.(pc := WriterFailing(TimedOut), failures := w.failures + 1, timeouts := w.timeouts + 1)))
      else None
    case WriterStops =>
      if (w.pc.AtSelect? || w.pc.Writing?) && s.down.writeStops > 0 then
        Some(s.(writer := w.(pc := WriterExited)))
      else None
    case WriterPushes =>
      if w.pc.WriterFailing? then
        Some(s.(eol := Pushed(s.eol, FromWriter, Some(w.pc.err)),
                writer := if Accepts(s.eol) then w.(pc := AtSelect) else w.(pc := WriterExited, rejected := true)))
      else None
    case _ => None
  }

  // ----- all of it -----

  predicate IsStart(e: Event) { e.Build? || e.Insert? || e.StartOwner? || e.CancelContext? }
  predicate IsCallback(e: Event) { e.CallbackStarts? || e.CallbackLocks? || e.CallbackPushes? }
  predicate IsOwner(e: Event) {
    e.OwnerReceives? || e.OwnerCanceled? || e.OwnerLocks? || e.OwnerClosesChannel? || e.OwnerResolves?
  }
  predicate IsReader(e: Event) {
    e.ReadStarts? || e.ReadGets? || e.ReadGetsNothing? || e.ReadFails? || e.SendEnds? || e.ReaderTakes? ||
    e.ReaderStops? || e.ReaderPushes?
  }

  function Step(s: State, e: Event): Option<State> {
    if IsStart(e) then StepStart(s, e)
    else if IsCallback(e) then StepCallback(s, e)
    else if IsOwner(e) then StepOwner(s, e)
    else if e.CloseStep? then StepClose(s, e.signalled)
    else if IsReader(e) then StepReader(s, e)
    else StepWriter(s, e)
  }
}
