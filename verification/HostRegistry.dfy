/**
  The host registry: the HostLifeManager actor, the calls of client(), the idle
  timers, the goroutines that deliver a notification or time out, and
  ListenNewOffer. Host ids are fresh UUIDs, so a host is registered once and its
  client object is named by its id; `clients` is the actor's map, `objects` every
  client object ever made.
 */
module HostRegistry {
  import opened Runs
  import opened Packets

  /** Capacity of offerSig and of the actor's buffered inputs. */
  const BUFFER := 1024

  datatype Status = Idle | Active

  /** A hostClient with the goroutines that handleNewOffer started for it. */
  datatype Client = Client(
    status: Status,
    spawned: nat,     // started, not yet at their select
    blocked: nat,     // in the select, having found offerSig full
    buffered: nat,    // notifications in offerSig
    taken: nat,       // received by ListenNewOffer
    timedOut: nat,
    hasty: nat)       // of those that timed out, the ones that did so while offerSig had room

  /** What the actor has received and not yet handled. */
  datatype Message =
    | Register(host: Key)
    | Check(host: Key)
    | Close(host: Key)
    | Lookup(host: Key)
    | Note(host: Key)

  /** A call of client(): whether LoginHost had returned the id before the call. */
  datatype Request = Request(host: Key, afterLogin: bool)

  /** Its reply: whether a client was found, and whether the host had been removed by then. */
  datatype Reply = Reply(host: Key, found: bool, removed: bool)

  datatype State = State(
    clients: set<Key>,
    objects: map<Key, Client>,
    busy: Option<Message>,
    failed: Option<Key>,         // the host whose idle check found no client: a nil dereference
    loggedIn: set<Key>,          // ids whose send on newHostSig has completed
    timers: set<Key>,            // idle timers that have not put their id on gcHostCh
    gcQueue: seq<Key>,
    closers: multiset<Key>,      // timed-out goroutines about to use closeHostCh
    closeQueue: seq<Key>,
    requests: seq<Request>,      // all calls of client(), in the order they entered the channel
    received: nat,               // how many of them the actor has received
    replies: seq<Reply>,
    notified: multiset<Key>,     // notifications the actor has received
    ignored: multiset<Key>,      // those for which it found no host
    checked: set<Key>,           // hosts whose idle check was handled
    collected: set<Key>,         // hosts removed by an idle check
    closed: set<Key>)            // hosts for which a close was handled

  datatype Event =
    | Login(host: Key)
    | TimerFires(host: Key)
    | TakeCheck | TakeClose | TakeRequest
    | TakeNote(host: Key)
    | Handle
    | Ask(host: Key)
    | Listen(reply: nat)             // ListenNewOffer marks the client it was given
    | SenderArrives(host: Key)       // a delivery goroutine reaches its select
    | SenderDelivers(host: Key)      // a blocked one finds room
    | SenderTimesOut(host: Key)      // a blocked one does not
    | SenderLate(host: Key)          // one whose timer fired before its select polled: Go may choose the time-out
    | CloserPushes(host: Key)
    | ListenerTakes(host: Key)

  function Init(): State {
    State({}, map[], None, None, {}, {}, [], multiset{}, [], [], 0, [], multiset{}, multiset{}, {}, {}, {})
  }

  function Step(s: State, e: Event): Option<State> {
    if s.failed.Some? then None
    else match e
      case Login(h) =>
        if s.busy.None? && h !in s.loggedIn then
          Some(s.(busy := Some(Register(h)), loggedIn := s.loggedIn + {h}))
        else None
      case TimerFires(h) =>
        if h in s.timers && |s.gcQueue| < BUFFER then
          Some(s.(timers := s.timers - {h}, gcQueue := s.gcQueue + [h]))
        else None
      case TakeCheck =>
        if s.busy.None? && |s.gcQueue| > 0 then
          Some(s.(busy := Some(Check(s.gcQueue[0])), gcQueue := s.gcQueue[1..]))
        else None
      case TakeClose =>
        if s.busy.None? && |s.closeQueue| > 0 then
          Some(s.(busy := Some(Close(s.closeQueue[0])), closeQueue := s.closeQueue[1..]))
        else None
      case TakeRequest =>
        if s.busy.None? && s.received < |s.requests| then
          Some(s.(busy := Some(Lookup(s.requests[s.received].host)), received := s.received + 1))
        else None
      case TakeNote(h) =>
        if s.busy.None? then Some(s.(busy := Some(Note(h)), notified := s.notified + multiset{h})) else None
      case Handle => if s.busy.Some? then Some(Handled(s.(busy := None), s.busy.value)) else None
      case Ask(h) =>
        if |s.requests| < s.received + BUFFER then
          Some(s.(requests := s.requests + [Request(h, h in s.loggedIn)]))
        else None
      case Listen(i) =>
        if i < |s.replies| && s.replies[i].found && s.replies[i].host in s.objects then
          var h := s.replies[i].host;
          Some(s.(objects := s.objects[h := s.objects[h].(status := Active)]))
        else None
      case SenderArrives(h) =>
        if h in s.objects && s.objects[h].spawned > 0 then
          var c := s.objects[h].(spawned := s.objects[h].spawned - 1);
          Some(s.(objects := s.objects[h :=
            if c.buffered < BUFFER then c.(buffered := c.buffered + 1) else c.(blocked := c.blocked + 1)]))
        else None
      case SenderDelivers(h) =>
        if h in s.objects && s.objects[h].blocked > 0 && s.objects[h].buffered < BUFFER then
          var c := s.objects[h];
          Some(s.(objects := s.objects[h := c.(blocked := c.blocked - 1, buffered := c.buffered + 1)]))
        else None
      case SenderTimesOut(h) =>
        if h in s.objects && s.objects[h].blocked > 0 then
          var c := s.objects[h];
          Some(s.(objects := s.objects[h := c.(blocked := c.blocked - 1, timedOut := c.timedOut + 1)],
                  closers := s.closers + multiset{h}))
        else None
      case SenderLate(h) =>
        if h in s.objects && s.objects[h].spawned > 0 then
          Some(s.(objects := s.objects[h := GivenUpAtOnce(s.objects[h])], closers := s.closers + multiset{h}))
        else None
      case CloserPushes(h) =>
        if h in s.closers && |s.closeQueue| < BUFFER then
          Some(s.(closers := s.closers - multiset{h}, closeQueue := s.closeQueue + [h]))
        else None
      case ListenerTakes(h) =>
        if h in s.objects && s.objects[h].buffered > 0 then
          var c := s.objects[h];
          Some(s.(objects := s.objects[h := c.(buffered := c.buffered - 1, taken := c.taken + 1)]))
        else None
  }

  /** A delivery takes its time-out on entering the select, whether or not there is room. */
  function GivenUpAtOnce(c: Client): Client
    requires c.spawned > 0
  {
    c.(spawned := c.spawned - 1, timedOut := c.timedOut + 1, hasty := c.hasty + if c.buffered < BUFFER then 1 else 0)
  }

  /** A client just registered. */
  const NewClient := Client(Idle, 0, 0, 0, 0, 0, 0)

  /** The actor's handlers. */
  function Handled(s: State, m: Message): State {
    match m
    case Register(h) =>
      s.(clients := s.clients + {h}, objects := s.objects[h := NewClient], timers := s.timers + {h})
    case Check(h) =>
      var t := s.(checked := s.checked + {h});
      if h !in t.clients || h !in t.objects then t.(failed := Some(h))
      else if t.objects[h].status.Idle? then t.(clients := t.clients - {h}, collected := t.collected + {h})
      else t
    case Close(h) => s.(clients := s.clients - {h}, closed := s.closed + {h})
    case Lookup(h) => s.(replies := s.replies + [Reply(h, h in s.clients, h in s.collected + s.closed)])
    case Note(h) =>
      if h in s.clients && h in s.objects then
        s.(objects := s.objects[h := s.objects[h].(spawned := s.objects[h].spawned + 1)])
      else s.(ignored := s.ignored + multiset{h})
  }

  // ----- the invariant -----

  /** The notifications that reached a client object, wherever they are now. */
  function Entrusted(c: Client): nat {
    c.spawned + c.blocked + c.buffered + c.taken + c.timedOut
  }

  function InHand(s: State, m: Message): nat {
    if s.busy == Some(m) then 1 else 0
  }

  /** Every notification received for `h` is accounted for. */
  ghost predicate Accounted(s: State, h: Key) {
    s.notified[h] == s.ignored[h] + InHand(s, Note(h)) + (if h in s.objects then Entrusted(s.objects[h]) else 0)
  }

  /** offerSig is bounded, and deliveries block, and time out unless hasty, only after it was full. */
  ghost predicate Bounded(c: Client) {
    && c.buffered <= BUFFER && c.hasty <= c.timedOut
    && (c.blocked + c.timedOut > c.hasty ==> BUFFER <= c.buffered + c.taken)
  }

  function Occurrences(s: State, h: Key): nat {
    (if h in s.timers then 1 else 0) + multiset(s.gcQueue)[h] + InHand(s, Check(h)) + (if h in s.checked then 1 else 0)
  }

  /** A registered host has exactly one idle check: still on its timer, queued, in hand or handled. */
  ghost predicate OneCheck(s: State, h: Key) {
    Occurrences(s, h) == if h in s.objects then 1 else 0
  }

  /** A host leaves the map only through its idle check or a close. */
  ghost predicate RemovalsExplained(s: State, h: Key) {
    && (h in s.clients ==> h in s.objects && h !in s.collected && h !in s.closed)
    && (h in s.objects && h !in s.clients ==> h in s.collected || h in s.closed)
    && (h in s.collected ==> h in s.checked)
    && (h in s.collected || h in s.closed ==> h in s.objects)
  }

  /** A close comes from a delivery that timed out. */
  ghost predicate ClosesExplained(s: State, h: Key) {
    (h in s.closers || h in s.closeQueue || s.busy == Some(Close(h)) || h in s.closed) ==>
      h in s.objects && s.objects[h].timedOut > 0
  }

  /** A logged-in host is registered, or its registration is the very message in the actor's hand. */
  ghost predicate LoginSeen(s: State, h: Key) {
    && (h in s.loggedIn <==> s.busy == Some(Register(h)) || h in s.objects)
    && (s.busy == Some(Register(h)) ==> h !in s.objects)
  }

  ghost predicate HostInv(s: State, h: Key) {
    && Accounted(s, h) && OneCheck(s, h) && RemovalsExplained(s, h) && ClosesExplained(s, h) && LoginSeen(s, h)
    && (h in s.objects ==> Bounded(s.objects[h]))
  }

  /** Requests are answered in order, each once; a request made after login is answered with a client
      unless the host was removed first. */
  ghost predicate RepliesMatch(s: State) {
    && s.received <= |s.requests| <= s.received + BUFFER
    && |s.replies| + (if s.busy.Some? && s.busy.value.Lookup? then 1 else 0) == s.received
    && (forall i | 0 <= i < |s.requests| && s.requests[i].afterLogin :: s.requests[i].host in s.loggedIn)
    && (forall i | 0 <= i < |s.replies| ::
          && s.replies[i].host == s.requests[i].host
          && !(s.replies[i].found && s.replies[i].removed)
          && (s.requests[i].afterLogin ==> s.replies[i].found || s.replies[i].removed))
    && (s.busy.Some? && s.busy.value.Lookup? ==>
          s.busy.value.host == s.requests[|s.replies|].host)
  }

  /** The actor has failed only on a host whose close it had handled before the idle check. */
  ghost predicate FailureExplained(s: State) {
    s.failed.Some? ==> s.failed.value in s.closed && s.failed.value in s.checked
  }

  ghost predicate Inv(s: State) {
    (forall h :: HostInv(s, h)) && RepliesMatch(s) && FailureExplained(s)
  }

  lemma InvInit()
    ensures Inv(Init())
  {
  }

  lemma QueueHead(q: seq<Key>)
    requires |q| > 0
    ensures multiset(q) == multiset{q[0]} + multiset(q[1..])
  {
    assert q == [q[0]] + q[1..];
  }

  lemma AccountedHandled(s: State, m: Message, h: Key)
    requires s.busy.None? && LoginSeen(s.(busy := Some(m)), h) && Accounted(s.(busy := Some(m)), h)
    ensures Accounted(Handled(s, m), h)
  {
  }

  lemma AccountedStep(s: State, e: Event, h: Key)
    requires Accounted(s, h) && LoginSeen(s, h) && Step(s, e).Some?
    ensures Accounted(Step(s, e).value, h)
  {
    if e.Handle? {
      var t := s.(busy := None);
      assert t.(busy := s.busy) == s;
      AccountedHandled(t, s.busy.value, h);
    }
  }

  lemma OneCheckHandled(s: State, m: Message, h: Key)
    requires s.busy.None? && LoginSeen(s.(busy := Some(m)), h) && OneCheck(s.(busy := Some(m)), h)
    ensures OneCheck(Handled(s, m), h)
  {
  }

  lemma OneCheckStep(s: State, e: Event, h: Key)
    requires OneCheck(s, h) && LoginSeen(s, h) && Step(s, e).Some?
    ensures OneCheck(Step(s, e).value, h)
  {
    if e.Handle? {
      var t := s.(busy := None);
      assert t.(busy := s.busy) == s;
      OneCheckHandled(t, s.busy.value, h);
    } else if e.TakeCheck? {
      QueueHead(s.gcQueue);
    }
  }

  lemma RemovalsStep(s: State, e: Event, h: Key)
    requires OneCheck(s, h) && RemovalsExplained(s, h) && ClosesExplained(s, h) && LoginSeen(s, h) && Step(s, e).Some?
    ensures RemovalsExplained(Step(s, e).value, h)
  {
  }

  lemma ClosesHandled(s: State, m: Message, h: Key)
    requires s.busy.None? && LoginSeen(s.(busy := Some(m)), h) && ClosesExplained(s.(busy := Some(m)), h)
    ensures ClosesExplained(Handled(s, m), h)
  {
  }

  lemma ClosesTaken(s: State, h: Key)
    requires ClosesExplained(s, h) && Step(s, TakeClose).Some?
    ensures ClosesExplained(Step(s, TakeClose).value, h)
  {
    QueueHead(s.closeQueue);
  }

  /** The steps by which a timed-out delivery leads to a close. */
  predicate LeadsToClose(e: Event) {
    e.SenderTimesOut? || e.SenderLate? || e.CloserPushes? || e.TakeClose? || e.Handle?
  }

  lemma ClosesFramed(s: State, e: Event, h: Key)
    requires ClosesExplained(s, h) && Step(s, e).Some? && !LeadsToClose(e)
    ensures ClosesExplained(Step(s, e).value, h)
  {
  }

  lemma ClosesStep(s: State, e: Event, h: Key)
    requires ClosesExplained(s, h) && LoginSeen(s, h) && Step(s, e).Some?
    ensures ClosesExplained(Step(s, e).value, h)
  {
    if e.Handle? {
      var t := s.(busy := None);
      assert t.(busy := s.busy) == s;
      ClosesHandled(t, s.busy.value, h);
    } else if e.TakeClose? {
      ClosesTaken(s, h);
    } else if !LeadsToClose(e) {
      ClosesFramed(s, e, h);
    }
  }

  lemma LoginStep(s: State, e: Event, h: Key)
    requires LoginSeen(s, h) && Step(s, e).Some?
    ensures LoginSeen(Step(s, e).value, h)
  {
  }

  lemma BoundedStep(s: State, e: Event, h: Key)
    requires h in s.objects ==> Bounded(s.objects[h])
    requires Step(s, e).Some?
    ensures h in Step(s, e).value.objects ==> Bounded(Step(s, e).value.objects[h])
  {
  }

  lemma HostStep(s: State, e: Event, h: Key)
    requires HostInv(s, h) && Step(s, e).Some?
    ensures HostInv(Step(s, e).value, h)
  {
    AccountedStep(s, e, h);
    OneCheckStep(s, e, h);
    RemovalsStep(s, e, h);
    ClosesStep(s, e, h);
    LoginStep(s, e, h);
    BoundedStep(s, e, h);
  }

  lemma FailureStep(s: State, e: Event)
    requires Inv(s) && Step(s, e).Some?
    ensures FailureExplained(Step(s, e).value)
  {
    if e.Handle? && s.busy.value.Check? {
      assert HostInv(s, s.busy.value.host);
    }
  }

  lemma ReplyStep(s: State, h: Key)
    requires RepliesMatch(s) && s.busy == Some(Lookup(h)) && s.failed.None?
    requires LoginSeen(s, h) && RemovalsExplained(s, h)
    ensures RepliesMatch(Step(s, Handle).value)
  {
  }

  lemma RepliesStep(s: State, e: Event)
    requires Inv(s) && Step(s, e).Some?
    ensures RepliesMatch(Step(s, e).value)
  {
    if e.Handle? && s.busy.value.Lookup? {
      assert HostInv(s, s.busy.value.host);
      ReplyStep(s, s.busy.value.host);
    } else {
      RepliesFramed(s, e);
    }
  }

  lemma RequestArrives(s: State, h: Key)
    requires RepliesMatch(s) && Step(s, Ask(h)).Some?
    ensures RepliesMatch(Step(s, Ask(h)).value)
  {
  }

  lemma RequestReceived(s: State)
    requires RepliesMatch(s) && Step(s, TakeRequest).Some?
    ensures RepliesMatch(Step(s, TakeRequest).value)
  {
  }

  predicate InLookup(s: State) {
    s.busy.Some? && s.busy.value.Lookup?
  }

  /** The other events do not touch the requests. */
  lemma RequestsKept(s: State, e: Event)
    requires Step(s, e).Some? && !e.Ask? && !e.TakeRequest? && !(e.Handle? && InLookup(s))
    ensures var t := Step(s, e).value;
            && t.requests == s.requests && t.received == s.received && t.replies == s.replies
            && s.loggedIn <= t.loggedIn
            && (InLookup(t) <==> InLookup(s)) && (InLookup(s) ==> t.busy == s.busy)
  {
  }

  lemma RepliesFramed(s: State, e: Event)
    requires RepliesMatch(s) && Step(s, e).Some? && !(e.Handle? && InLookup(s))
    ensures RepliesMatch(Step(s, e).value)
  {
    if e.Ask? {
      RequestArrives(s, e.host);
    } else if e.TakeRequest? {
      RequestReceived(s);
    } else {
      RequestsKept(s, e);
    }
  }

  lemma InvStep(s: State, e: Event)
    requires Inv(s) && Step(s, e).Some?
    ensures Inv(Step(s, e).value)
  {
    forall h ensures HostInv(Step(s, e).value, h) {
      HostStep(s, e, h);
    }
    RepliesStep(s, e);
    FailureStep(s, e);
  }

  predicate Reached(es: seq<Event>, s: State) {
    Run(Step, Init(), es) == Some(s)
  }

  lemma InvRun(s: State, es: seq<Event>, t: State)
    requires Inv(s) && Run(Step, s, es) == Some(t)
    ensures Inv(t)
  {
    var inv := (u: State) => Inv(u);
    forall u: State, e: Event | inv(u) && Step(u, e).Some? ensures inv(Step(u, e).value) {
      InvStep(u, e);
    }
    RunKeeps(Step, inv, s, es);
  }

  // ----- theorems -----

  /** Per host, every notification the actor received was ignored, is in its hand, waits in a delivery
      goroutine, is buffered (at most 1024), was taken by ListenNewOffer, or timed out. */
  lemma NotificationsAccounted(es: seq<Event>, s: State, h: Key)
    requires Reached(es, s)
    ensures s.notified[h] == s.ignored[h] + InHand(s, Note(h)) + (if h in s.objects then Entrusted(s.objects[h]) else 0)
    ensures h in s.objects ==> s.objects[h].buffered <= BUFFER
  {
    InvInit();
    InvRun(Init(), es, s);
    assert HostInv(s, h);
  }

  /** The actor fails at an idle check, and exactly when a close of that host was handled before it. */
  lemma FailsExactlyAfterClose(es: seq<Event>, s: State, e: Event)
    requires Reached(es, s) && Step(s, e).Some?
    ensures Step(s, e).value.failed.Some? <==>
            e.Handle? && s.busy.value.Check? && s.busy.value.host in s.closed
  {
    InvInit();
    InvRun(Init(), es, s);
    if e.Handle? && s.busy.value.Check? {
      CheckFindsHost(s, s.busy.value.host);
    }
  }

  lemma CheckFindsHost(s: State, h: Key)
    requires HostInv(s, h) && s.busy == Some(Check(h))
    ensures h in s.objects && (h in s.clients <==> h !in s.closed)
  {
  }

  /** Without an earlier close the idle check finds its host and removes it exactly when it is idle; it
      touches no other host. */
  lemma IdleCheckDecides(es: seq<Event>, s: State, h: Key)
    requires Reached(es, s) && s.failed.None? && s.busy == Some(Check(h)) && h !in s.closed
    ensures h in s.clients && h in s.objects && Step(s, Handle).Some?
    ensures var t := Step(s, Handle).value;
            && t.failed.None?
            && (h in t.clients <==> s.objects[h].status.Active?)
            && forall g | g != h :: g in t.clients <==> g in s.clients
  {
    InvInit();
    InvRun(Init(), es, s);
    assert HostInv(s, h);
    CheckFindsHost(s, h);
  }

  /** The idle check of a host happens at most once, and its timer is not lost. */
  lemma CheckedOnce(es: seq<Event>, s: State, h: Key)
    requires Reached(es, s)
    ensures Occurrences(s, h) == if h in s.objects then 1 else 0
  {
    InvInit();
    InvRun(Init(), es, s);
    assert HostInv(s, h);
  }

  /** The actor fails only on a host of which a delivery has timed out. */
  lemma FailureNeedsTimeout(es: seq<Event>, s: State)
    requires Reached(es, s) && s.failed.Some?
    ensures s.failed.value in s.objects && s.objects[s.failed.value].timedOut > 0 && s.notified[s.failed.value] > 0
  {
    InvInit();
    InvRun(Init(), es, s);
    assert HostInv(s, s.failed.value);
  }

  /** Unless a delivery of that host took its time-out at once although there was room, that takes more than
      1024 notifications for the host. */
  lemma FailureNeedsFullBuffer(es: seq<Event>, s: State)
    requires Reached(es, s) && s.failed.Some?
    ensures s.failed.value in s.objects
    ensures s.objects[s.failed.value].hasty == 0 ==> s.notified[s.failed.value] > BUFFER
  {
    InvInit();
    InvRun(Init(), es, s);
    assert HostInv(s, s.failed.value);
  }

  /** Such a time-out is one of SenderLate while there is room. */
  predicate Hasty(s: State, e: Event) {
    e.SenderLate? && e.host in s.objects && s.objects[e.host].buffered < BUFFER
  }

  /** No delivery of the run times out while there is room. */
  predicate Patient(s: State, es: seq<Event>)
    decreases |es|
  {
    |es| == 0 || Step(s, es[0]).None? || (!Hasty(s, es[0]) && Patient(Step(s, es[0]).value, es[1..]))
  }

  lemma PatientStep(s: State, e: Event)
    requires (forall h | h in s.objects :: s.objects[h].hasty == 0) && Step(s, e).Some? && !Hasty(s, e)
    ensures forall h | h in Step(s, e).value.objects :: Step(s, e).value.objects[h].hasty == 0
  {
  }

  lemma {:induction false} PatientRun(s: State, es: seq<Event>, t: State)
    requires (forall h | h in s.objects :: s.objects[h].hasty == 0) && Run(Step, s, es) == Some(t) && Patient(s, es)
    ensures forall h | h in t.objects :: t.objects[h].hasty == 0
    decreases |es|
  {
    if |es| > 0 {
      PatientStep(s, es[0]);
      PatientRun(Step(s, es[0]).value, es[1..], t);
    }
  }

  /** In runs without such time-outs, the actor can only fail after more than 1024 notifications for one host. */
  lemma PatientFailureNeedsFullBuffer(es: seq<Event>, s: State)
    requires Reached(es, s) && s.failed.Some? && Patient(Init(), es)
    ensures s.notified[s.failed.value] > BUFFER
  {
    PatientRun(Init(), es, s);
    FailureNeedsFullBuffer(es, s);
  }

  // ----- the failure does happen -----

  /** One idle host whose client holds the `n` notifications sent so far. */
  function Stocked(h: Key, n: nat): State {
    Init().(clients := {h}, objects := map[h := NewClient.(buffered := n)], loggedIn := {h}, timers := {h},
            notified := multiset{}[h := n])
  }

  lemma OneMore(h: Key, n: nat)
    requires n < BUFFER
    ensures var received := Stocked(h, n).(busy := Some(Note(h)), notified := multiset{}[h := n + 1]);
            var spawned := received.(busy := None, objects := map[h := NewClient.(spawned := 1, buffered := n)]);
            && Step(Stocked(h, n), TakeNote(h)) == Some(received)
            && Step(received, Handle) == Some(spawned)
            && Step(spawned, SenderArrives(h)) == Some(Stocked(h, n + 1))
  {
    var before, after := NewClient.(buffered := n), NewClient.(buffered := n + 1);
    var between := before.(spawned := 1);
    assert map[h := before][h := between] == map[h := between];
    assert map[h := between][h := after] == map[h := after];
    assert multiset{}[h := n] + multiset{h} == multiset{}[h := n + 1];
  }

  lemma {:induction false} StockUp(h: Key, n: nat) returns (es: seq<Event>)
    requires n <= BUFFER
    ensures Reached(es, Stocked(h, n))
  {
    var s := Init();
    if n == 0 {
      es := [];
      es, s := Extend(Step, Init(), es, s, Login(h));
      es, s := Extend(Step, Init(), es, s, Handle);
      assert s == Stocked(h, 0);
    } else {
      es := StockUp(h, n - 1);
      OneMore(h, n - 1);
      es, s := Extend(Step, Init(), es, Stocked(h, n - 1), TakeNote(h));
      es, s := Extend(Step, Init(), es, s, Handle);
      es, s := Extend(Step, Init(), es, s, SenderArrives(h));
    }
  }

  /** The 1025th notification finds the buffer full. */
  lemma OneTooMany(h: Key) returns (es: seq<Event>, s: State)
    ensures Reached(es, s) && s.busy.None? && s.failed.None? && h in s.timers && s.gcQueue == [] && s.closeQueue == []
    ensures h in s.objects && s.objects[h] == NewClient.(blocked := 1, buffered := BUFFER)
  {
    es := StockUp(h, BUFFER);
    es, s := Extend(Step, Init(), es, Stocked(h, BUFFER), TakeNote(h));
    es, s := Extend(Step, Init(), es, s, Handle);
    es, s := Extend(Step, Init(), es, s, SenderArrives(h));
  }

  /** It times out, and its close is handled. */
  lemma CloseBeforeCheck(h: Key) returns (es: seq<Event>, s: State)
    ensures Reached(es, s) && s.busy.None? && s.failed.None? && h in s.timers && s.gcQueue == [] && h !in s.clients
  {
    es, s := OneTooMany(h);
    es, s := Extend(Step, Init(), es, s, SenderTimesOut(h));
    es, s := Extend(Step, Init(), es, s, CloserPushes(h));
    es, s := Extend(Step, Init(), es, s, TakeClose);
    es, s := Extend(Step, Init(), es, s, Handle);
  }

  /** With a hasty time-out, one notification is enough. */
  lemma OneNotificationFails(h: Key) returns (es: seq<Event>, s: State)
    ensures Reached(es, s) && s.failed == Some(h) && s.notified[h] == 1
  {
    es, s := HastyClose(h);
    es, s := Extend(Step, Init(), es, s, TimerFires(h));
    es, s := Extend(Step, Init(), es, s, TakeCheck);
    es, s := Extend(Step, Init(), es, s, Handle);
  }

  lemma HastyClose(h: Key) returns (es: seq<Event>, s: State)
    ensures Reached(es, s) && s.busy.None? && s.failed.None? && h in s.timers && s.gcQueue == [] && h !in s.clients
    ensures s.notified[h] == 1
  {
    es, s := HastyDelivery(h);
    es, s := Extend(Step, Init(), es, s, CloserPushes(h));
    es, s := Extend(Step, Init(), es, s, TakeClose);
    es, s := Extend(Step, Init(), es, s, Handle);
  }

  lemma HastyDelivery(h: Key) returns (es: seq<Event>, s: State)
    ensures Reached(es, s) && s.busy.None? && s.failed.None? && h in s.timers && s.gcQueue == [] && s.closeQueue == []
    ensures h in s.closers && s.notified[h] == 1
  {
    es := StockUp(h, 0);
    OneMore(h, 0);
    es, s := Extend(Step, Init(), es, Stocked(h, 0), TakeNote(h));
    es, s := Extend(Step, Init(), es, s, Handle);
    es, s := Extend(Step, Init(), es, s, SenderLate(h));
  }

  /** The actor can fail: nothing orders a host's close after its idle check. */
  lemma ActorCanFail(h: Key) returns (es: seq<Event>, s: State)
    ensures Reached(es, s) && s.failed == Some(h)
  {
    es, s := CloseBeforeCheck(h);
    es, s := Extend(Step, Init(), es, s, TimerFires(h));
    es, s := Extend(Step, Init(), es, s, TakeCheck);
    es, s := Extend(Step, Init(), es, s, Handle);
  }

  ghost predicate ActiveAndKept(s: State, h: Key) {
    Inv(s) && h in s.objects && s.objects[h].status.Active? && h !in s.collected
  }

  lemma ActiveStep(s: State, e: Event, h: Key)
    requires ActiveAndKept(s, h) && Step(s, e).Some?
    ensures ActiveAndKept(Step(s, e).value, h)
  {
    InvStep(s, e);
    assert HostInv(s, h);
  }

  /** Status never goes back to idle, so no idle check ever removes an active host. */
  lemma ActiveNeverCollected(es: seq<Event>, s: State, fs: seq<Event>, t: State, h: Key)
    requires Reached(es, s) && h in s.objects && s.objects[h].status.Active? && h !in s.collected
    requires Run(Step, s, fs) == Some(t)
    ensures h in t.objects && t.objects[h].status.Active? && h !in t.collected
    ensures h !in t.clients ==> h in t.closed
  {
    InvInit();
    InvRun(Init(), es, s);
    var inv := (u: State) => ActiveAndKept(u, h);
    forall u: State, e: Event | inv(u) && Step(u, e).Some? ensures inv(Step(u, e).value) {
      ActiveStep(u, e, h);
    }
    RunKeeps(Step, inv, s, fs);
    assert HostInv(t, h);
  }

  /** The i-th call of client() gets at most one reply, the i-th, for the host it asked for. If LoginHost
      had returned that host before the call, the reply is a client unless the host was removed first;
      and a reply whose host was removed first is nil. */
  lemma LoginBeforeLookup(es: seq<Event>, s: State, i: nat)
    requires Reached(es, s) && i < |s.replies|
    ensures |s.replies| <= s.received <= |s.requests|
    ensures s.replies[i].host == s.requests[i].host
    ensures s.requests[i].afterLogin ==> (s.replies[i].found <==> !s.replies[i].removed)
  {
    InvInit();
    InvRun(Init(), es, s);
  }

  /** Each request received is answered by the very next handling, from the registry as it is then. */
  lemma LookupAnswersRegistry(es: seq<Event>, s: State)
    requires Reached(es, s) && s.failed.None? && s.busy.Some? && s.busy.value.Lookup?
    ensures Step(s, Handle).Some? && |s.replies| < |s.requests|
    ensures var t := Step(s, Handle).value;
            && |t.replies| == t.received == |s.replies| + 1
            && t.replies[|s.replies|].host == s.requests[|s.replies|].host
            && (t.replies[|s.replies|].found <==> s.requests[|s.replies|].host in s.clients)
  {
    InvInit();
    InvRun(Init(), es, s);
  }
}
