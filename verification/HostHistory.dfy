/**
  The registry's state as the history of a run. The functions here read the events only:
  what was sent on each channel, in order, what the actor did with it, and what happened
  on each host's signal channel. The lemmas say that the state is exactly that.
 */
module HostHistory {
  import opened Runs
  import opened Packets
  import opened HostRegistry

  // ----- the channels of the actor -----

  /** The hosts whose idle timers fired, */
  function Fired(es: seq<Event>): seq<Key> {
    if |es| == 0 then []
    else Fired(es[..|es| - 1]) + match es[|es| - 1] case TimerFires(h) => [h] case _ => []
  }

  /** those that timed-out deliveries asked to close, */
  function Pushed(es: seq<Event>): seq<Key> {
    if |es| == 0 then []
    else Pushed(es[..|es| - 1]) + match es[|es| - 1] case CloserPushes(h) => [h] case _ => []
  }

  /** and those that calls of client() asked for. */
  function Asked(es: seq<Event>): seq<Key> {
    if |es| == 0 then []
    else Asked(es[..|es| - 1]) + match es[|es| - 1] case Ask(h) => [h] case _ => []
  }

  /** Whether each of those calls came after the host's login. */
  function AskedAfterLogin(es: seq<Event>): seq<bool> {
    if |es| == 0 then []
    else
      var n := |es| - 1;
      AskedAfterLogin(es[..n]) + match es[n] case Ask(h) => [Login(h) in es[..n]] case _ => []
  }

  function Nth(hosts: seq<Key>, n: nat, message: Key -> Message): Option<Message> {
    if n < |hosts| then Some(message(hosts[n])) else None
  }

  /** What the actor has received and not yet handled: each receive takes the oldest of its channel. */
  function InActor(es: seq<Event>): Option<Message> {
    if |es| == 0 then None
    else
      var n := |es| - 1;
      match es[n]
      case Login(h) => Some(Register(h))
      case TakeCheck => Nth(Fired(es[..n]), Count(es[..n], TakeCheck), h => Check(h))
      case TakeClose => Nth(Pushed(es[..n]), Count(es[..n], TakeClose), h => Close(h))
      case TakeRequest => Nth(Asked(es[..n]), Count(es[..n], TakeRequest), h => Lookup(h))
      case TakeNote(h) => Some(Note(h))
      case Handle => None
      case _ => InActor(es[..n])
  }

  /** The messages it has handled. */
  function Turns(es: seq<Event>): seq<Message> {
    if |es| == 0 then []
    else
      var n := |es| - 1;
      Turns(es[..n]) + if es[n].Handle? && InActor(es[..n]).Some? then [InActor(es[..n]).value] else []
  }

  // ----- the map -----

  /** ListenNewOffer has marked the client of `h` active. */
  function Marked(es: seq<Event>, h: Key): bool {
    if |es| == 0 then false
    else
      var n := |es| - 1;
      || Marked(es[..n], h)
      || (es[n].Listen? && es[n].reply < |Asked(es[..n])| && Asked(es[..n])[es[n].reply] == h)
  }

  /** `h` has been registered, and since then neither closed nor, while it was idle, checked. */
  function Mapped(es: seq<Event>, h: Key): bool {
    if |es| == 0 then false
    else
      var n := |es| - 1;
      if !es[n].Handle? then Mapped(es[..n], h)
      else match InActor(es[..n])
        case Some(Register(g)) => g == h || Mapped(es[..n], h)
        case Some(Close(g)) => g != h && Mapped(es[..n], h)
        case Some(Check(g)) => Mapped(es[..n], h) && (g == h ==> Marked(es[..n], h))
        case _ => Mapped(es[..n], h)
  }

  /** The replies given: for which host, and whether it was mapped. */
  function Replied(es: seq<Event>): seq<(Key, bool)> {
    if |es| == 0 then []
    else
      var n := |es| - 1;
      Replied(es[..n]) +
      if !es[n].Handle? then []
      else match InActor(es[..n]) case Some(Lookup(h)) => [(h, Mapped(es[..n], h))] case _ => []
  }

  // ----- the notifications of a host -----

  /** Notifications handled while the host was mapped: each starts a delivery. */
  function Entrusted(es: seq<Event>, h: Key): nat {
    if |es| == 0 then 0
    else
      var n := |es| - 1;
      Entrusted(es[..n], h) +
      if es[n].Handle? && InActor(es[..n]) == Some(Note(h)) && Mapped(es[..n], h) then 1 else 0
  }

  /** The others are ignored. */
  function Ignored(es: seq<Event>, h: Key): nat {
    if |es| == 0 then 0
    else
      var n := |es| - 1;
      Ignored(es[..n], h) +
      if es[n].Handle? && InActor(es[..n]) == Some(Note(h)) && !Mapped(es[..n], h) then 1 else 0
  }

  /** Signals in the buffered channel: deliveries that arrived with room or found it later, less those received. */
  function Signals(es: seq<Event>, h: Key): int
    decreases |es|, 1
  {
    WithRoom(es, h) + Count(es, SenderDelivers(h)) - Count(es, ListenerTakes(h))
  }

  /** Deliveries that found room when they arrived. */
  function WithRoom(es: seq<Event>, h: Key): nat
    decreases |es|, 0
  {
    if |es| == 0 then 0
    else
      var n := |es| - 1;
      WithRoom(es[..n], h) + if es[n] == SenderArrives(h) && Signals(es[..n], h) < BUFFER then 1 else 0
  }

  // ----- the state is that history: channels -----

  lemma QueueMoves(q: seq<Key>, n: nat, h: Key)
    requires n <= |q|
    ensures (q + [h])[n..] == q[n..] + [h]
    ensures n < |q| ==> q[n..] != [] && q[n..][0] == q[n] && q[n..][1..] == q[n + 1..]
  {
  }

  lemma {:induction false} ChecksQueued(es: seq<Event>, s: State)
    requires Reached(es, s)
    ensures Count(es, TakeCheck) <= |Fired(es)| && s.gcQueue == Fired(es)[Count(es, TakeCheck)..]
  {
    if |es| > 0 {
      var n := |es| - 1;
      var t := RunLast(Step, Init(), es, s);
      ChecksQueued(es[..n], t);
      QueueMoves(Fired(es[..n]), Count(es[..n], TakeCheck), if es[n].TimerFires? then es[n].host else "");
      GcQueueStep(t, es[n]);
    }
  }

  lemma GcQueueStep(s: State, e: Event)
    requires Step(s, e).Some?
    ensures var t := Step(s, e).value;
            match e
            case TimerFires(h) => t.gcQueue == s.gcQueue + [h]
            case TakeCheck => s.gcQueue != [] && t.gcQueue == s.gcQueue[1..] && t.busy == Some(Check(s.gcQueue[0]))
            case _ => t.gcQueue == s.gcQueue
  {
  }

  lemma {:induction false} ClosesQueued(es: seq<Event>, s: State)
    requires Reached(es, s)
    ensures Count(es, TakeClose) <= |Pushed(es)| && s.closeQueue == Pushed(es)[Count(es, TakeClose)..]
  {
    if |es| > 0 {
      var n := |es| - 1;
      var t := RunLast(Step, Init(), es, s);
      ClosesQueued(es[..n], t);
      QueueMoves(Pushed(es[..n]), Count(es[..n], TakeClose), if es[n].CloserPushes? then es[n].host else "");
      CloseQueueStep(t, es[n]);
    }
  }

  lemma CloseQueueStep(s: State, e: Event)
    requires Step(s, e).Some?
    ensures var t := Step(s, e).value;
            match e
            case CloserPushes(h) => t.closeQueue == s.closeQueue + [h]
            case TakeClose =>
              s.closeQueue != [] && t.closeQueue == s.closeQueue[1..] && t.busy == Some(Close(s.closeQueue[0]))
            case _ => t.closeQueue == s.closeQueue
  {
  }

  /** LoginHost's calls: an id is logged in exactly if its send was received. */
  lemma {:induction false} LoginsReceived(es: seq<Event>, s: State, h: Key)
    requires Reached(es, s)
    ensures h in s.loggedIn <==> Login(h) in es
  {
    if |es| > 0 {
      var n := |es| - 1;
      var t := RunLast(Step, Init(), es, s);
      LoginsReceived(es[..n], t, h);
      LoginStepOnly(t, es[n], h);
    }
  }

  lemma LoginStepOnly(s: State, e: Event, h: Key)
    requires Step(s, e).Some?
    ensures h in Step(s, e).value.loggedIn <==> h in s.loggedIn || e == Login(h)
  {
  }

  lemma RequestStep(s: State, e: Event)
    requires Step(s, e).Some?
    ensures var t := Step(s, e).value;
            && t.requests == s.requests + (match e case Ask(h) => [Request(h, h in s.loggedIn)] case _ => [])
            && t.received == s.received + (if e.TakeRequest? then 1 else 0)
            && (e.TakeRequest? ==> s.received < |s.requests| && t.busy == Some(Lookup(s.requests[s.received].host)))
  {
  }

  /** client()'s calls, in the order in which they were made. */
  lemma {:induction false} RequestsAsked(es: seq<Event>, s: State)
    requires Reached(es, s)
    ensures |s.requests| == |Asked(es)| == |AskedAfterLogin(es)| && s.received == Count(es, TakeRequest) <= |s.requests|
    ensures forall i | 0 <= i < |s.requests| :: s.requests[i] == Request(Asked(es)[i], AskedAfterLogin(es)[i])
  {
    if |es| > 0 {
      var n := |es| - 1;
      var t := RunLast(Step, Init(), es, s);
      RequestsAsked(es[..n], t);
      RequestStep(t, es[n]);
      if es[n].Ask? {
        LoginsReceived(es[..n], t, es[n].host);
      }
    }
  }

  lemma BusyStep(s: State, e: Event)
    requires Step(s, e).Some?
    ensures var t := Step(s, e).value;
            match e
            case Login(h) => t.busy == Some(Register(h))
            case TakeNote(h) => t.busy == Some(Note(h))
            case Handle => s.busy.Some? && t.busy.None?
            case TakeCheck => true
            case TakeClose => true
            case TakeRequest => true
            case _ => t.busy == s.busy
  {
  }

  /** The actor receives from each channel in order. */
  lemma {:induction false} ActorHolds(es: seq<Event>, s: State)
    requires Reached(es, s)
    ensures s.busy == InActor(es)
  {
    if |es| > 0 {
      var n := |es| - 1;
      var t := RunLast(Step, Init(), es, s);
      ActorHolds(es[..n], t);
      BusyStep(t, es[n]);
      match es[n] {
        case TakeCheck =>
          ChecksQueued(es[..n], t);
          GcQueueStep(t, es[n]);
        case TakeClose =>
          ClosesQueued(es[..n], t);
          CloseQueueStep(t, es[n]);
        case TakeRequest =>
          RequestsAsked(es[..n], t);
          RequestStep(t, es[n]);
        case _ =>
      }
    }
  }

  // ----- the map -----

  /** What a step does to the entry and the client of `h`. */
  lemma EntryStep(s: State, e: Event, h: Key)
    requires Step(s, e).Some? && (h in s.clients ==> h in s.objects)
    ensures var t := Step(s, e).value;
            && (h in t.clients ==> h in t.objects)
            && (h in t.objects <==> h in s.objects || (e.Handle? && s.busy == Some(Register(h))))
            && (h in t.clients <==>
                if e.Handle? && s.busy == Some(Register(h)) then true
                else if e.Handle? && s.busy == Some(Close(h)) then false
                else if e.Handle? && s.busy == Some(Check(h)) then h in s.clients && s.objects[h].status.Active?
                else h in s.clients)
  {
  }

  lemma StatusStep(s: State, e: Event, h: Key)
    requires Step(s, e).Some? && h in Step(s, e).value.objects && LoginSeen(s, h)
    ensures Step(s, e).value.objects[h].status.Active? <==>
            || (h in s.objects && s.objects[h].status.Active?)
            || (e.Listen? && e.reply < |s.replies| && s.replies[e.reply].host == h)
  {
  }

  lemma ListenNeedsClient(s: State, e: Event)
    requires Step(s, e).Some? && e.Listen?
    ensures e.reply < |s.replies| && s.replies[e.reply].host in s.objects
  {
  }

  /** Each reply is for the host of its request. */
  lemma ReplyForRequest(es: seq<Event>, s: State, i: nat)
    requires Reached(es, s) && i < |s.replies|
    ensures i < |Asked(es)| && s.replies[i].host == Asked(es)[i]
  {
    InvInit();
    InvRun(Init(), es, s);
    RequestsAsked(es, s);
  }

  lemma {:induction false} NotMarkedYet(es: seq<Event>, s: State, h: Key)
    requires Reached(es, s) && h !in s.objects
    ensures !Marked(es, h)
  {
    if |es| > 0 {
      var n := |es| - 1;
      var t := RunLast(Step, Init(), es, s);
      ObjectsStay(t, es[n], h);
      NotMarkedYet(es[..n], t, h);
      if es[n].Listen? {
        ListenNeedsClient(t, es[n]);
        ReplyForRequest(es[..n], t, es[n].reply);
      }
    }
  }

  lemma ObjectsStay(s: State, e: Event, h: Key)
    requires Step(s, e).Some?
    ensures h in s.objects ==> h in Step(s, e).value.objects
  {
  }

  /** A client is active exactly if ListenNewOffer marked it. */
  lemma {:induction false} ActiveIsMarked(es: seq<Event>, s: State, h: Key)
    requires Reached(es, s) && h in s.objects
    ensures s.objects[h].status.Active? <==> Marked(es, h)
  {
    if |es| > 0 {
      var n := |es| - 1;
      var t := RunLast(Step, Init(), es, s);
      InvInit();
      InvRun(Init(), es[..n], t);
      assert HostInv(t, h);
      StatusStep(t, es[n], h);
      if h in t.objects {
        ActiveIsMarked(es[..n], t, h);
      } else {
        NotMarkedYet(es[..n], t, h);
      }
      if es[n].Listen? {
        ListenNeedsClient(t, es[n]);
        ReplyForRequest(es[..n], t, es[n].reply);
      }
    }
  }

  /** The actor's map holds exactly the hosts registered and not closed, or checked while idle, since. */
  lemma {:induction false} MapIsHistory(es: seq<Event>, s: State, h: Key)
    requires Reached(es, s)
    ensures h in s.clients <==> Mapped(es, h)
    ensures h in s.clients ==> h in s.objects
  {
    if |es| > 0 {
      var n := |es| - 1;
      var t := RunLast(Step, Init(), es, s);
      MapIsHistory(es[..n], t, h);
      ActorHolds(es[..n], t);
      EntryStep(t, es[n], h);
      if h in t.objects {
        ActiveIsMarked(es[..n], t, h);
      }
    }
  }

  lemma ReplyStepOnly(s: State, e: Event)
    requires Step(s, e).Some?
    ensures var t := Step(s, e).value;
            if e.Handle? && s.busy.Some? && s.busy.value.Lookup? then
              && |t.replies| == |s.replies| + 1 && s.replies <= t.replies
              && t.replies[|s.replies|].host == s.busy.value.host
              && (t.replies[|s.replies|].found <==> s.busy.value.host in s.clients)
            else t.replies == s.replies
  {
  }

  /** The replies are for the hosts asked, in order, and non-nil exactly for those mapped at that moment. */
  lemma {:induction false} RepliesAreHistory(es: seq<Event>, s: State)
    requires Reached(es, s)
    ensures |s.replies| == |Replied(es)|
    ensures forall i | 0 <= i < |s.replies| :: Replied(es)[i] == (s.replies[i].host, s.replies[i].found)
  {
    if |es| > 0 {
      var n := |es| - 1;
      var t := RunLast(Step, Init(), es, s);
      RepliesAreHistory(es[..n], t);
      ActorHolds(es[..n], t);
      ReplyStepOnly(t, es[n]);
      if es[n].Handle? && t.busy.Some? && t.busy.value.Lookup? {
        MapIsHistory(es[..n], t, t.busy.value.host);
      }
    }
  }

  /** The actor fails exactly when it checks a host that is not mapped. */
  lemma FailureIsHistory(es: seq<Event>, s: State, e: Event)
    requires Reached(es, s) && Step(s, e).Some?
    ensures Step(s, e).value.failed.Some? <==>
            e.Handle? && InActor(es).Some? && InActor(es).value.Check? && !Mapped(es, InActor(es).value.host)
  {
    ActorHolds(es, s);
    if s.busy.Some? {
      MapIsHistory(es, s, s.busy.value.host);
    }
  }

  // ----- notifications -----

  ghost predicate NotesKept(s: State, t: State, e: Event, h: Key) {
    && t.notified[h] == s.notified[h] + (if e == TakeNote(h) then 1 else 0)
    && t.ignored[h] == s.ignored[h] + (if e.Handle? && s.busy == Some(Note(h)) && h !in s.clients then 1 else 0)
  }

  lemma NotesStep(s: State, e: Event, h: Key)
    requires Step(s, e).Some? && (h in s.clients ==> h in s.objects)
    ensures NotesKept(s, Step(s, e).value, e, h)
  {
  }

  /** What a step does to the client of `h`, counter by counter. */
  ghost predicate CountersKept(c: Client, d: Client, e: Event, h: Key, started: bool) {
    && d.spawned == c.spawned + (if started then 1 else 0)
                    - (if e == SenderArrives(h) || e == SenderLate(h) then 1 else 0)
    && d.buffered == c.buffered
                     + (if e == SenderDelivers(h) || (e == SenderArrives(h) && c.buffered < BUFFER) then 1 else 0)
                     - (if e == ListenerTakes(h) then 1 else 0)
    && d.blocked == c.blocked + (if e == SenderArrives(h) && c.buffered >= BUFFER then 1 else 0)
                    - (if e == SenderDelivers(h) || e == SenderTimesOut(h) then 1 else 0)
    && d.taken == c.taken + (if e == ListenerTakes(h) then 1 else 0)
    && d.timedOut == c.timedOut + (if e == SenderTimesOut(h) || e == SenderLate(h) then 1 else 0)
  }

  lemma CountersStep(s: State, e: Event, h: Key)
    requires Step(s, e).Some? && LoginSeen(s, h) && (h in s.clients ==> h in s.objects)
    ensures var t := Step(s, e).value;
            && (h in s.objects ==>
                  && h in t.objects
                  && CountersKept(s.objects[h], t.objects[h], e, h,
                                  e.Handle? && s.busy == Some(Note(h)) && h in s.clients))
            && (h !in s.objects && h in t.objects ==> t.objects[h] == NewClient && Untouched(e, h))
            && (h !in s.objects && h !in t.objects ==> Untouched(e, h))
  {
  }

  /** None of the steps that need a client of `h`. */
  predicate Untouched(e: Event, h: Key) {
    && e != SenderArrives(h) && e != SenderDelivers(h) && e != SenderTimesOut(h) && e != SenderLate(h)
    && e != ListenerTakes(h)
  }

  /** The signal channel and the deliveries of `h`, as the history has them. */
  ghost predicate ClientIsHistory(es: seq<Event>, c: Client, h: Key) {
    && c.buffered == Signals(es, h)
    && c.taken == Count(es, ListenerTakes(h))
    && c.timedOut == Count(es, SenderTimesOut(h)) + Count(es, SenderLate(h))
    && c.spawned + Count(es, SenderArrives(h)) + Count(es, SenderLate(h)) == Entrusted(es, h)
    && c.blocked + WithRoom(es, h) + Count(es, SenderDelivers(h)) + Count(es, SenderTimesOut(h)) ==
       Count(es, SenderArrives(h))
  }

  /** A delivery of `h` starts with the last event. */
  ghost predicate Starts(es: seq<Event>, h: Key)
    requires |es| > 0
  {
    var n := |es| - 1;
    es[n].Handle? && InActor(es[..n]) == Some(Note(h)) && Mapped(es[..n], h)
  }

  lemma CountersAreHistory(es: seq<Event>, c: Client, d: Client, h: Key)
    requires |es| > 0 && ClientIsHistory(es[..|es| - 1], c, h) && CountersKept(c, d, es[|es| - 1], h, Starts(es, h))
    ensures ClientIsHistory(es, d, h)
  {
  }

  /** Every notification received is counted, and those handled while the host is not mapped are ignored. */
  lemma {:induction false} NotesAreHistory(es: seq<Event>, s: State, h: Key)
    requires Reached(es, s)
    ensures s.notified[h] == Count(es, TakeNote(h)) && s.ignored[h] == Ignored(es, h)
  {
    if |es| > 0 {
      var n := |es| - 1;
      var t := RunLast(Step, Init(), es, s);
      NotesAreHistory(es[..n], t, h);
      MapIsHistory(es[..n], t, h);
      ActorHolds(es[..n], t);
      NotesStep(t, es[n], h);
    }
  }

  function ClientOf(s: State, h: Key): Client {
    if h in s.objects then s.objects[h] else NewClient
  }

  /** Each notification handled while the host is mapped starts a delivery. One that arrives with room puts its signal
      into the channel, of an idle client as of an active one; one that arrives without blocks, and later puts it
      there or times out. What has left the channel is what listeners received. */
  lemma {:induction false} SignalsAreHistory(es: seq<Event>, s: State, h: Key)
    requires Reached(es, s)
    ensures ClientIsHistory(es, ClientOf(s, h), h)
  {
    if |es| > 0 {
      var n := |es| - 1;
      var t := RunLast(Step, Init(), es, s);
      SignalsAreHistory(es[..n], t, h);
      ClientMoves(es, t, s, h);
      CountersAreHistory(es, ClientOf(t, h), ClientOf(s, h), h);
    }
  }

  lemma ClientMoves(es: seq<Event>, t: State, s: State, h: Key)
    requires |es| > 0 && Reached(es[..|es| - 1], t) && Step(t, es[|es| - 1]) == Some(s)
    ensures CountersKept(ClientOf(t, h), ClientOf(s, h), es[|es| - 1], h, Starts(es, h))
  {
    var n := |es| - 1;
    InvInit();
    InvRun(Init(), es[..n], t);
    assert HostInv(t, h);
    MapIsHistory(es[..n], t, h);
    ActorHolds(es[..n], t);
    CountersStep(t, es[n], h);
  }

  // ----- what can happen next -----

  /** The actor has checked a host that was not mapped: it dereferenced nil. */
  function Failed(es: seq<Event>): bool {
    if |es| == 0 then false
    else
      var n := |es| - 1;
      || Failed(es[..n])
      || (es[n].Handle? && InActor(es[..n]).Some? && InActor(es[..n]).value.Check?
          && !Mapped(es[..n], InActor(es[..n]).value.host))
  }

  /** Deliveries of `h` that have started and not reached their select, */
  function Starting(es: seq<Event>, h: Key): int {
    Entrusted(es, h) - Count(es, SenderArrives(h)) - Count(es, SenderLate(h))
  }

  /** that wait in it, */
  function Blocked(es: seq<Event>, h: Key): int {
    Count(es, SenderArrives(h)) - WithRoom(es, h) - Count(es, SenderDelivers(h)) - Count(es, SenderTimesOut(h))
  }

  /** and that have timed out and not used closeHostCh. */
  function Closing(es: seq<Event>, h: Key): int {
    Count(es, SenderTimesOut(h)) + Count(es, SenderLate(h)) - Count(es, CloserPushes(h))
  }

  /** What can happen after a history. */
  predicate CanHappen(es: seq<Event>, e: Event) {
    && !Failed(es)
    && match e
       case Login(h) => InActor(es).None? && Login(h) !in es
       case TimerFires(h) =>
         Register(h) in Turns(es) && TimerFires(h) !in es && |Fired(es)| - Count(es, TakeCheck) < BUFFER
       case TakeCheck => InActor(es).None? && Count(es, TakeCheck) < |Fired(es)|
       case TakeClose => InActor(es).None? && Count(es, TakeClose) < |Pushed(es)|
       case TakeRequest => InActor(es).None? && Count(es, TakeRequest) < |Asked(es)|
       case TakeNote(_) => InActor(es).None?
       case Handle => InActor(es).Some?
       case Ask(_) => |Asked(es)| - Count(es, TakeRequest) < BUFFER
       case Listen(i) => i < |Replied(es)| && Replied(es)[i].1
       case SenderArrives(h) => Starting(es, h) > 0
       case SenderDelivers(h) => Blocked(es, h) > 0 && Signals(es, h) < BUFFER
       case SenderTimesOut(h) => Blocked(es, h) > 0
       case SenderLate(h) => Starting(es, h) > 0
       case CloserPushes(h) => Closing(es, h) > 0 && |Pushed(es)| - Count(es, TakeClose) < BUFFER
       case ListenerTakes(h) => Signals(es, h) > 0
  }

  lemma {:induction false} FailedIsHistory(es: seq<Event>, s: State)
    requires Reached(es, s)
    ensures s.failed.Some? <==> Failed(es)
  {
    if |es| > 0 {
      var n := |es| - 1;
      var t := RunLast(Step, Init(), es, s);
      FailedIsHistory(es[..n], t);
      FailureIsHistory(es[..n], t, es[n]);
      NoStepAfterFailure(t, es[n]);
    }
  }

  lemma NoStepAfterFailure(s: State, e: Event)
    requires Step(s, e).Some?
    ensures s.failed.None?
  {
  }

  lemma TimerStep(s: State, e: Event, h: Key)
    requires Step(s, e).Some?
    ensures h in Step(s, e).value.timers <==>
            (h in s.timers && e != TimerFires(h)) || (e.Handle? && s.busy == Some(Register(h)))
    ensures e == TimerFires(h) ==> h in s.timers
  {
  }

  /** A host is registered once. */
  lemma RegisteredOnce(es: seq<Event>, s: State, h: Key)
    requires Reached(es, s) && s.busy == Some(Register(h))
    ensures h !in s.objects
  {
    InvInit();
    InvRun(Init(), es, s);
    assert HostInv(s, h);
  }

  lemma {:induction false} RegistrationsAreHistory(es: seq<Event>, s: State, h: Key)
    requires Reached(es, s)
    ensures h in s.objects <==> Register(h) in Turns(es)
  {
    if |es| > 0 {
      var n := |es| - 1;
      var t := RunLast(Step, Init(), es, s);
      RegistrationsAreHistory(es[..n], t, h);
      MapIsHistory(es[..n], t, h);
      ActorHolds(es[..n], t);
      EntryStep(t, es[n], h);
    }
  }

  /** One idle timer per registered host, until it fires. */
  lemma {:induction false} TimersAreHistory(es: seq<Event>, s: State, h: Key)
    requires Reached(es, s)
    ensures h in s.timers <==> Register(h) in Turns(es) && TimerFires(h) !in es
    ensures TimerFires(h) in es ==> Register(h) in Turns(es)
  {
    if |es| > 0 {
      var n := |es| - 1;
      var t := RunLast(Step, Init(), es, s);
      TimersAreHistory(es[..n], t, h);
      ActorHolds(es[..n], t);
      TimerStep(t, es[n], h);
      if es[n].Handle? && t.busy == Some(Register(h)) {
        RegisteredOnce(es[..n], t, h);
        RegistrationsAreHistory(es[..n], t, h);
      }
    }
  }

  lemma CloserStep(s: State, e: Event, h: Key)
    requires Step(s, e).Some?
    ensures Step(s, e).value.closers[h] == s.closers[h] +
            (if e == SenderTimesOut(h) || e == SenderLate(h) then 1 else 0) - (if e == CloserPushes(h) then 1 else 0)
  {
  }

  lemma {:induction false} ClosersAreHistory(es: seq<Event>, s: State, h: Key)
    requires Reached(es, s)
    ensures s.closers[h] == Closing(es, h)
  {
    if |es| > 0 {
      var t := RunLast(Step, Init(), es, s);
      ClosersAreHistory(es[..|es| - 1], t, h);
      CloserStep(t, es[|es| - 1], h);
    }
  }

  /** A reply that found a client names one. */
  lemma {:induction false} FoundHaveClients(es: seq<Event>, s: State, i: nat)
    requires Reached(es, s) && i < |s.replies| && s.replies[i].found
    ensures s.replies[i].host in s.objects
  {
    var n := |es| - 1;
    var t := RunLast(Step, Init(), es, s);
    ReplyStepOnly(t, es[n]);
    if i < |t.replies| {
      FoundHaveClients(es[..n], t, i);
      ObjectsStay(t, es[n], t.replies[i].host);
    } else {
      MapIsHistory(es[..n], t, t.busy.value.host);
      ObjectsStay(t, es[n], t.busy.value.host);
    }
  }

  lemma ActorCan(es: seq<Event>, s: State, e: Event)
    requires Reached(es, s) && (e.Login? || e.TakeCheck? || e.TakeClose? || e.TakeRequest? || e.TakeNote? || e.Handle?)
    ensures Step(s, e).Some? <==> CanHappen(es, e)
  {
    FailedIsHistory(es, s);
    ActorHolds(es, s);
    match e {
      case Login(h) => LoginsReceived(es, s, h);
      case TakeCheck => ChecksQueued(es, s);
      case TakeClose => ClosesQueued(es, s);
      case TakeRequest => RequestsAsked(es, s);
      case _ =>
    }
  }

  lemma SenderCan(es: seq<Event>, s: State, e: Event)
    requires Reached(es, s)
    requires e.SenderArrives? || e.SenderDelivers? || e.SenderTimesOut? || e.SenderLate? || e.ListenerTakes?
    ensures Step(s, e).Some? <==> CanHappen(es, e)
  {
    FailedIsHistory(es, s);
    SignalsAreHistory(es, s, e.host);
  }

  lemma OthersCan(es: seq<Event>, s: State, e: Event)
    requires Reached(es, s) && (e.TimerFires? || e.Ask? || e.Listen? || e.CloserPushes?)
    ensures Step(s, e).Some? <==> CanHappen(es, e)
  {
    FailedIsHistory(es, s);
    match e {
      case TimerFires(h) =>
        TimersAreHistory(es, s, h);
        ChecksQueued(es, s);
      case Ask(_) => RequestsAsked(es, s);
      case Listen(i) =>
        RepliesAreHistory(es, s);
        if i < |s.replies| && s.replies[i].found {
          FoundHaveClients(es, s, i);
        }
      case CloserPushes(h) =>
        ClosersAreHistory(es, s, h);
        ClosesQueued(es, s);
    }
  }

  /** A step is possible exactly when the history allows it. */
  lemma HappensExactly(es: seq<Event>, s: State, e: Event)
    requires Reached(es, s)
    ensures Step(s, e).Some? <==> CanHappen(es, e)
  {
    if e.SenderArrives? || e.SenderDelivers? || e.SenderTimesOut? || e.SenderLate? || e.ListenerTakes? {
      SenderCan(es, s, e);
    } else if e.TimerFires? || e.Ask? || e.Listen? || e.CloserPushes? {
      OthersCan(es, s, e);
    } else {
      ActorCan(es, s, e);
    }
  }

  ghost function Can(): (seq<Event>, Event) -> bool {
    (es, e) => CanHappen(es, e)
  }

  /** The runs of the registry are exactly the schedules whose events could each happen then. */
  lemma RunsAreHistories(es: seq<Event>)
    ensures Run(Step, Init(), es).Some? <==> Allowed(Can(), es)
  {
    forall fs, s, e | Reached(fs, s) ensures Can()(fs, e) <==> Step(s, e).Some? {
      HappensExactly(fs, s, e);
    }
    RunsAreAllowed(Can(), Step, Init(), es);
  }

  // ----- what follows -----

  /** Every notification the actor received for `h` was ignored, is in its hand, or started a delivery; each of these
      has not reached its select, waits in it, has timed out, or has put its signal into the channel, which holds at
      most 1024; and those no longer in it were received by listeners. */
  lemma NotificationsAccounted(es: seq<Event>, s: State, h: Key)
    requires Reached(es, s)
    ensures Count(es, TakeNote(h)) ==
            Ignored(es, h) + Entrusted(es, h) + (if InActor(es) == Some(Note(h)) then 1 else 0)
    ensures Entrusted(es, h) == Starting(es, h) + Blocked(es, h) + Signals(es, h) + Count(es, ListenerTakes(h)) +
            Count(es, SenderTimesOut(h)) + Count(es, SenderLate(h))
    ensures Starting(es, h) >= 0 && Blocked(es, h) >= 0 && 0 <= Signals(es, h) <= BUFFER && Closing(es, h) >= 0
  {
    HostRegistry.NotificationsAccounted(es, s, h);
    NotesAreHistory(es, s, h);
    SignalsAreHistory(es, s, h);
    ActorHolds(es, s);
    ClosersAreHistory(es, s, h);
  }

  lemma TurnStep(s: State, e: Event, h: Key)
    requires Step(s, e).Some?
    ensures var t := Step(s, e).value;
            && (h in t.closed <==> h in s.closed || (e.Handle? && s.busy == Some(Close(h))))
            && (h in t.checked <==> h in s.checked || (e.Handle? && s.busy == Some(Check(h))))
  {
  }

  /** What the registry remembers of closes and checks is what the actor handled. */
  lemma {:induction false} ClosedIsHistory(es: seq<Event>, s: State, h: Key)
    requires Reached(es, s)
    ensures h in s.closed <==> Close(h) in Turns(es)
    ensures h in s.checked <==> Check(h) in Turns(es)
  {
    if |es| > 0 {
      var n := |es| - 1;
      var t := RunLast(Step, Init(), es, s);
      ClosedIsHistory(es[..n], t, h);
      ActorHolds(es[..n], t);
      TurnStep(t, es[n], h);
    }
  }

  /** An idle check finds no client, which ends the process, exactly if a close of that host was handled before. */
  lemma CheckFailsAfterClose(es: seq<Event>, s: State, h: Key)
    requires Reached(es, s) && !Failed(es) && InActor(es) == Some(Check(h))
    ensures Failed(es + [Handle]) <==> Close(h) in Turns(es)
  {
    ActorHolds(es, s);
    FailedIsHistory(es, s);
    FailsExactlyAfterClose(es, s, Handle);
    FailureIsHistory(es, s, Handle);
    ClosedIsHistory(es, s, h);
    assert (es + [Handle])[..|es|] == es;
  }
}
