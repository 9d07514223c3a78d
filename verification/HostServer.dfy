/**
  host.go as written: client objects, the actor's map and the message it handles, its
  buffered channels, and the goroutines that captured a host id or a client. Each
  method up to Execute is one region that runs without interleaving; client() and
  ListenNewOffer are whole methods, in which any other goroutine may run between two
  regions.
 */
module HostServers {
  import opened Runs
  import opened Packets
  import opened Handlers
  import opened HostRegistry

  class HostClient {
    ghost const host: Key
    var status: Status
    var offerSig: nat         // signals in the buffered channel
    var spawned: nat          // delivery goroutines that captured this client, before their select
    var blocked: nat          // and in it

    constructor (ghost host: Key)
      ensures this.host == host && status == Idle && offerSig == spawned == blocked == 0
    {
      this.host, status, offerSig, spawned, blocked := host, Idle, 0, 0, 0;
    }
  }

  ghost predicate Matches(c: HostClient, v: Client)
    reads c
  {
    c.status == v.status && c.offerSig == v.buffered && c.spawned == v.spawned && c.blocked == v.blocked
  }

  /** What is in hostClientRequestChan: the requests sent and not yet received. */
  ghost predicate RequestsMatch(requestCh: seq<Key>, asked: nat, requests: seq<Request>, received: nat) {
    && asked == |requests| && received + |requestCh| == asked
    && (forall i | 0 <= i < |requestCh| :: requestCh[i] == requests[received + i].host)
  }

  ghost predicate ReturnedMatch(returned: seq<HostClient?>, replies: seq<Reply>, made: map<Key, HostClient>) {
    && |returned| == |replies|
    && (forall i | 0 <= i < |returned| ::
          if replies[i].found then replies[i].host in made && returned[i] == made[replies[i].host]
          else returned[i] == null)
  }

  /** Each id names one client for ever. */
  ghost predicate NamesMatch(clients: map<Key, HostClient>, made: map<Key, HostClient>, issued: set<Key>,
                             current: Option<Message>)
  {
    && (forall h | h in clients :: h in made && clients[h] == made[h])
    && (forall h | h in made :: made[h].host == h)
    && made.Keys <= issued
    && (current.Some? && current.value.Register? ==> current.value.host in issued && current.value.host !in made)
  }

  lemma ReturnedStays(returned: seq<HostClient?>, replies: seq<Reply>, made: map<Key, HostClient>, h: Key,
                      c: HostClient)
    requires ReturnedMatch(returned, replies, made) && h !in made
    ensures ReturnedMatch(returned, replies, made[h := c])
  {
  }

  class HostServer {
    var clients: map<Key, HostClient>
    var current: Option<Message>          // what the actor has received and not yet handled
    var panicked: bool                    // the actor dereferenced nil
    var issued: set<Key>                  // host ids that LoginHost has sent: UUIDs, so a new one is none of them
    var idleTimers: set<Key>
    var gcHostCh: seq<Key>
    var closeHostCh: seq<Key>
    var closers: multiset<Key>            // timed-out deliveries that still have to use closeHostCh
    var requestCh: seq<Key>               // hostClientRequestChan: the host of each request
    var asked: nat                        // requests sent so far; the i-th has the i-th returnChan
    var returned: seq<HostClient?>        // what was put on each returnChan
    var made: map<Key, HostClient>        // every client ever made: goroutines and handlers keep what has left the map
    ghost var state: State
    ghost var log: seq<By<Event>>         // every step so far, and who took it
    ghost var repr: set<object>

    /** The client objects are the model's clients. */
    ghost predicate ClientsMatch()
      reads this, repr
    {
      forall h | h in made :: h in state.objects && made[h] in repr && Matches(made[h], state.objects[h])
    }

    ghost predicate ChannelsMatch(s: State)
      reads this
    {
      && s.busy == current && s.failed.Some? == panicked && s.loggedIn == issued && s.timers == idleTimers
      && s.gcQueue == gcHostCh && s.closeQueue == closeHostCh && s.closers == closers
      && RequestsMatch(requestCh, asked, s.requests, s.received)
      && ReturnedMatch(returned, s.replies, made)
    }

    ghost predicate Valid()
      reads this, repr
    {
      && this !in repr
      && NamesMatch(clients, made, issued, current) && clients.Keys == state.clients && made.Keys == state.objects.Keys
      && ChannelsMatch(state) && ClientsMatch()
    }

    /** The log is the whole history. */
    ghost predicate Logged()
      reads this
    {
      Recorded(Step, Init(), log, state) && HostRegistry.Inv(state)
    }

    constructor ()
      ensures Valid() && Logged() && fresh(repr) && state == Init() && log == []
    {
      clients, made := map[], map[];
      current, panicked, issued, idleTimers := None, false, {}, {};
      gcHostCh, closeHostCh, closers := [], [], multiset{};
      requestCh, asked, returned := [], 0, [];
      state, log, repr := Init(), [], {};
      new;
      InvInit();
      NothingRecorded(Step, Init());
    }

    // ----- the actor's handlers -----

    method RegisterHost(h: Key)
      requires Valid() && current == Some(Register(h)) && !panicked
      modifies this
      ensures Valid() && fresh(repr - old(repr)) && log == old(log)
      ensures Step(old(state), Handle) == Some(state)
    {
      ghost var s := state;
      var c := new HostClient(h);
      AddClient(h, c);
      RegisterStep(s, h);
    }

    method AddClient(h: Key, c: HostClient)
      requires Valid() && current == Some(Register(h)) && !panicked
      requires c !in repr && c.host == h && Matches(c, NewClient)
      modifies this
      ensures Valid() && repr == old(repr) + {c} && log == old(log)
      ensures state == Registered(old(state), h)
    {
      EnterClient(h, c);
      StartTimer(h);
    }

    /** The goroutine that waits for the idle timer; the handler is done. */
    method StartTimer(h: Key)
      requires this !in repr && clients.Keys == state.clients && made.Keys == state.objects.Keys
      requires NamesMatch(clients, made, issued, None) && ChannelsMatch(state) && ClientsMatch()
      modifies this`idleTimers, this`current, this`state
      ensures Valid() && state == old(state).(busy := None, timers := old(state).timers + {h})
    {
      idleTimers, current := idleTimers + {h}, None;
      state := state.(busy := None, timers := idleTimers);
    }

    /** hs.clients[hostID] = &hostClient{…} */
    method EnterClient(h: Key, c: HostClient)
      requires Valid() && h !in made && h in issued
      requires c !in repr && c.host == h && Matches(c, NewClient)
      modifies this`clients, this`made, this`repr, this`state
      ensures NamesMatch(clients, made, issued, None)
      ensures clients.Keys == state.clients && made.Keys == state.objects.Keys
      ensures ReturnedMatch(returned, state.replies, made) && ClientsMatch() && repr == old(repr) + {c}
      ensures state == old(state).(clients := old(state).clients + {h},
                                   objects := old(state).objects[h := NewClient])
    {
      ReturnedStays(returned, state.replies, made, h, c);
      clients, made, repr := clients[h := c], made[h := c], repr + {c};
      state := state.(clients := state.clients + {h}, objects := state.objects[h := NewClient]);
    }

    /** Dereferences the entry without checking it: where it is nil, the process ends. */
    method ChkHostIdle(h: Key)
      requires Valid() && current == Some(Check(h)) && !panicked
      modifies this
      ensures Valid() && repr == old(repr) && log == old(log)
      ensures Step(old(state), Handle) == Some(state)
      ensures panicked <==> h !in old(clients)
    {
      CheckStep(state, h);
      if h !in clients {
        panicked, current := true, None;
        state := state.(busy := None, checked := state.checked + {h}, failed := Some(h));
      } else {
        CheckClient(h);
      }
    }

    method CheckClient(h: Key)
      requires Valid() && current == Some(Check(h)) && !panicked && h in clients
      modifies this`clients, this`current, this`state
      ensures Valid() && h in old(state).objects
      ensures var t := old(state).(busy := None, checked := old(state).checked + {h});
              state == if old(state).objects[h].status.Active? then t
                       else t.(clients := t.clients - {h}, collected := t.collected + {h})
    {
      if clients[h].status == Idle {
        clients := clients - {h};
        state := state.(clients := clients.Keys, collected := state.collected + {h});
      }
      current := None;
      state := state.(busy := None, checked := state.checked + {h});
    }

    method DeleteHost(h: Key)
      requires Valid() && current == Some(Close(h)) && !panicked
      modifies this
      ensures Valid() && repr == old(repr) && log == old(log)
      ensures Step(old(state), Handle) == Some(state)
    {
      HandleStep(state, Close(h));
      clients := clients - {h};
      current := None;
      state := Handled(state.(busy := None), Close(h));
    }

    method HandleHostClientRequest(h: Key)
      requires Valid() && current == Some(Lookup(h)) && !panicked
      modifies this
      ensures Valid() && repr == old(repr) && log == old(log)
      ensures Step(old(state), Handle) == Some(state)
      ensures returned == old(returned) + [if h in clients then clients[h] else null]
    {
      HandleStep(state, Lookup(h));
      returned := returned + [if h in clients then clients[h] else null];
      current := None;
      state := Handled(state.(busy := None), Lookup(h));
    }

    /** Starts a delivery goroutine that captures the client, or ignores the notification. */
    method HandleNewOffer(h: Key)
      requires Valid() && current == Some(Note(h)) && !panicked
      modifies this, repr
      ensures Valid() && repr == old(repr) && log == old(log)
      ensures Step(old(state), Handle) == Some(state)
    {
      NoteStep(state, h);
      current := None;
      state := state.(busy := None);
      if h in clients {
        var c := clients[h];
        c.spawned := c.spawned + 1;
        Update(h, state.objects[h].(spawned := c.spawned));
      } else {
        state := state.(ignored := state.ignored + multiset{h});
      }
    }

    /** One turn of HostLifeManager's loop after its select. */
    method HandleMessage()
      requires Valid() && current.Some? && !panicked
      modifies this, repr
      ensures Valid() && fresh(repr - old(repr)) && log == old(log)
      ensures Step(old(state), Handle) == Some(state)
    {
      match current.value {
        case Register(h) => RegisterHost(h);
        case Check(h) => ChkHostIdle(h);
        case Close(h) => DeleteHost(h);
        case Lookup(h) => HandleHostClientRequest(h);
        case Note(h) => HandleNewOffer(h);
      }
    }

    // ----- what the actor's select receives -----

    /** LoginHost's send on the unbuffered newHostSig. */
    method ReceiveHost(h: Key)
      requires Valid() && current.None? && !panicked && h !in issued
      modifies this
      ensures Valid() && repr == old(repr) && log == old(log)
      ensures Step(old(state), Login(h)) == Some(state)
    {
      current, issued := Some(Register(h)), issued + {h};
      state := state.(busy := Some(Register(h)), loggedIn := state.loggedIn + {h});
    }

    method ReceiveCheck()
      requires Valid() && current.None? && !panicked && gcHostCh != []
      modifies this
      ensures Valid() && repr == old(repr) && log == old(log)
      ensures Step(old(state), TakeCheck) == Some(state)
    {
      current, gcHostCh := Some(Check(gcHostCh[0])), gcHostCh[1..];
      state := state.(busy := current, gcQueue := state.gcQueue[1..]);
    }

    method ReceiveClose()
      requires Valid() && current.None? && !panicked && closeHostCh != []
      modifies this
      ensures Valid() && repr == old(repr) && log == old(log)
      ensures Step(old(state), TakeClose) == Some(state)
    {
      current, closeHostCh := Some(Close(closeHostCh[0])), closeHostCh[1..];
      state := state.(busy := current, closeQueue := state.closeQueue[1..]);
    }

    method ReceiveRequest()
      requires Valid() && current.None? && !panicked && requestCh != []
      modifies this
      ensures Valid() && repr == old(repr) && log == old(log)
      ensures Step(old(state), TakeRequest) == Some(state)
    {
      current, requestCh := Some(Lookup(requestCh[0])), requestCh[1..];
      state := state.(busy := current, received := state.received + 1);
    }

    /** SendOffer's send on the unbuffered notifyNewOfferCh. */
    method ReceiveNote(h: Key)
      requires Valid() && current.None? && !panicked
      modifies this
      ensures Valid() && repr == old(repr) && log == old(log)
      ensures Step(old(state), TakeNote(h)) == Some(state)
    {
      current := Some(Note(h));
      state := state.(busy := current, notified := state.notified + multiset{h});
    }

    // ----- the goroutines that captured a host id -----

    method IdleTimerFires(h: Key)
      requires Valid() && !panicked && h in idleTimers && |gcHostCh| < BUFFER
      modifies this
      ensures Valid() && repr == old(repr) && log == old(log)
      ensures Step(old(state), TimerFires(h)) == Some(state)
    {
      idleTimers, gcHostCh := idleTimers - {h}, gcHostCh + [h];
      state := state.(timers := state.timers - {h}, gcQueue := state.gcQueue + [h]);
    }

    method PushClose(h: Key)
      requires Valid() && !panicked && h in closers && |closeHostCh| < BUFFER
      modifies this
      ensures Valid() && repr == old(repr) && log == old(log)
      ensures Step(old(state), CloserPushes(h)) == Some(state)
    {
      PushStep(state, h);
      closers, closeHostCh := closers - multiset{h}, closeHostCh + [h];
      state := state.(closers := closers, closeQueue := closeHostCh);
    }

    // ----- the goroutines and handlers that captured a client -----

    /** The client of `h` is now `v`. */
    ghost method Update(h: Key, v: Client)
      requires this !in repr && h in made && made[h] in repr && Matches(made[h], v)
      requires NamesMatch(clients, made, issued, current)
      requires clients.Keys == state.clients && made.Keys == state.objects.Keys
      requires ChannelsMatch(state.(closers := closers))
      requires forall g | g in made && g != h ::
                 g in state.objects && made[g] in repr && Matches(made[g], state.objects[g])
      modifies this`state
      ensures Valid() && state == old(state).(objects := old(state).objects[h := v], closers := closers)
    {
      state := state.(objects := state.objects[h := v], closers := closers);
    }

    /** A delivery goroutine at its select: it sends at once if the buffer has room, else it blocks. */
    method ArriveAtSelect(h: Key)
      requires Valid() && !panicked && h in made && made[h].spawned > 0
      modifies this, repr
      ensures Valid() && repr == old(repr) && log == old(log)
      ensures Step(old(state), SenderArrives(h)) == Some(state)
    {
      var c := made[h];
      c.spawned := c.spawned - 1;
      if c.offerSig < BUFFER {
        c.offerSig := c.offerSig + 1;
      } else {
        c.blocked := c.blocked + 1;
      }
      Update(h, state.objects[h].(spawned := c.spawned, buffered := c.offerSig, blocked := c.blocked));
    }

    method DeliverBlocked(h: Key)
      requires Valid() && !panicked && h in made && made[h].blocked > 0 && made[h].offerSig < BUFFER
      modifies this, repr
      ensures Valid() && repr == old(repr) && log == old(log)
      ensures Step(old(state), SenderDelivers(h)) == Some(state)
    {
      var c := made[h];
      c.blocked, c.offerSig := c.blocked - 1, c.offerSig + 1;
      Update(h, state.objects[h].(blocked := c.blocked, buffered := c.offerSig));
    }

    method TimeOutBlocked(h: Key)
      requires Valid() && !panicked && h in made && made[h].blocked > 0
      modifies this, repr
      ensures Valid() && repr == old(repr) && log == old(log)
      ensures Step(old(state), SenderTimesOut(h)) == Some(state)
    {
      TimeOutStep(state, h);
      var c := made[h];
      c.blocked := c.blocked - 1;
      closers := closers + multiset{h};
      Update(h, state.objects[h].(blocked := c.blocked, timedOut := state.objects[h].timedOut + 1));
    }

    /** A delivery whose timer has fired by the time it polls takes the time-out, whether or not there is room. */
    method GiveUpAtOnce(h: Key)
      requires Valid() && !panicked && h in made && made[h].spawned > 0
      modifies this, repr
      ensures Valid() && repr == old(repr) && log == old(log)
      ensures Step(old(state), SenderLate(h)) == Some(state)
    {
      LateStep(state, h);
      var c := made[h];
      c.spawned := c.spawned - 1;
      closers := closers + multiset{h};
      Update(h, GivenUpAtOnce(state.objects[h]));
    }

    /** ListenNewOffer writes the status of the client it was given, mapped or not. */
    method MarkActive(i: nat)
      requires Valid() && !panicked && i < |returned| && returned[i] != null
      modifies this, repr
      ensures Valid() && repr == old(repr) && log == old(log)
      ensures Step(old(state), Listen(i)) == Some(state)
    {
      var c := returned[i];
      c.status := Active;
      Update(state.replies[i].host, state.objects[state.replies[i].host].(status := Active));
    }

    /** It receives a signal. */
    method TakeSignal(h: Key)
      requires Valid() && !panicked && h in made && made[h].offerSig > 0
      modifies this, repr
      ensures Valid() && repr == old(repr) && log == old(log)
      ensures Step(old(state), ListenerTakes(h)) == Some(state)
    {
      var c := made[h];
      c.offerSig := c.offerSig - 1;
      Update(h, state.objects[h].(buffered := c.offerSig, taken := state.objects[h].taken + 1));
    }

    /** client()'s send on the buffered request channel. */
    method SendRequest(h: Key)
      requires Valid() && !panicked && |requestCh| < BUFFER
      modifies this
      ensures Valid() && repr == old(repr) && log == old(log) && asked == old(asked) + 1
      ensures Step(old(state), Ask(h)) == Some(state)
    {
      requestCh, asked := requestCh + [h], asked + 1;
      state := state.(requests := state.requests + [Request(h, h in state.loggedIn)]);
    }

    // ----- any step, any schedule -----

    /** Records the step that led from `s` to here. */
    ghost method Record(who: nat, e: Event, s: State)
      requires Recorded(Step, Init(), log, s) && HostRegistry.Inv(s) && Step(s, e) == Some(state)
      modifies this`log
      ensures Logged() && log == old(log) + [By(who, e)]
    {
      RecordedStep(Step, Init(), log, s, By(who, e), state);
      InvStep(s, e);
      log := log + [By(who, e)];
    }

    method ExecuteActor(e: Event) returns (ok: bool)
      requires Valid() && IsActor(e)
      modifies this, repr
      ensures Valid() && fresh(repr - old(repr)) && log == old(log) && (!ok ==> state == old(state))
      ensures Step(old(state), e) == if ok then Some(state) else None
    {
      ok := !panicked && (if e.Handle? then current.Some? else current.None?);
      if !ok {
        return;
      }
      match e {
        case Login(h) => if h !in issued { ReceiveHost(h); } else { ok := false; }
        case TakeCheck => if gcHostCh != [] { ReceiveCheck(); } else { ok := false; }
        case TakeClose => if closeHostCh != [] { ReceiveClose(); } else { ok := false; }
        case TakeRequest => if requestCh != [] { ReceiveRequest(); } else { ok := false; }
        case TakeNote(h) => ReceiveNote(h);
        case Handle => HandleMessage();
      }
    }

    method ExecuteSender(e: Event) returns (ok: bool)
      requires Valid() && IsSender(e)
      modifies this, repr
      ensures Valid() && repr == old(repr) && log == old(log) && (!ok ==> state == old(state))
      ensures Step(old(state), e) == if ok then Some(state) else None
    {
      ok := !panicked && e.host in made;
      if !ok {
        return;
      }
      match e {
        case SenderArrives(h) => if made[h].spawned > 0 { ArriveAtSelect(h); } else { ok := false; }
        case SenderDelivers(h) =>
          if made[h].blocked > 0 && made[h].offerSig < BUFFER { DeliverBlocked(h); } else { ok := false; }
        case SenderTimesOut(h) => if made[h].blocked > 0 { TimeOutBlocked(h); } else { ok := false; }
        case SenderLate(h) => if made[h].spawned > 0 { GiveUpAtOnce(h); } else { ok := false; }
      }
    }

    method ExecuteOther(e: Event) returns (ok: bool)
      requires Valid() && !IsActor(e) && !IsSender(e)
      modifies this, repr
      ensures Valid() && repr == old(repr) && log == old(log) && (!ok ==> state == old(state))
      ensures Step(old(state), e) == if ok then Some(state) else None
    {
      ok := !panicked;
      if !ok {
        return;
      }
      match e {
        case TimerFires(h) => if h in idleTimers && |gcHostCh| < BUFFER { IdleTimerFires(h); } else { ok := false; }
        case Ask(h) => if |requestCh| < BUFFER { SendRequest(h); } else { ok := false; }
        case Listen(i) => if i < |returned| && returned[i] != null { MarkActive(i); } else { ok := false; }
        case CloserPushes(h) => if h in closers && |closeHostCh| < BUFFER { PushClose(h); } else { ok := false; }
        case ListenerTakes(h) => if h in made && made[h].offerSig > 0 { TakeSignal(h); } else { ok := false; }
      }
    }

    /** One scheduled step of any goroutine, if it can run now. */
    method Execute(x: By<Event>) returns (ok: bool)
      requires Valid() && Logged()
      modifies this, repr
      ensures Valid() && Logged() && fresh(repr - old(repr))
      ensures Step(old(state), x.e) == if ok then Some(state) else None
      ensures if ok then log == old(log) + [x] else state == old(state) && log == old(log)
    {
      ghost var s := state;
      if IsActor(x.e) {
        ok := ExecuteActor(x.e);
      } else if IsSender(x.e) {
        ok := ExecuteSender(x.e);
      } else {
        ok := ExecuteOther(x.e);
      }
      if ok {
        Record(x.who, x.e, s);
      }
    }

    /** Any schedule run on the objects does what the run of the step function does. */
    method ExecuteAll(es: seq<By<Event>>) returns (ok: bool, ghost done: nat)
      requires Valid() && Logged()
      modifies this, repr
      ensures Valid() && Logged() && fresh(repr - old(repr))
      ensures (ok <==> Run(Step, old(state), Events(es)).Some?) && (ok ==> done == |es|)
      ensures done <= |es| && log == old(log) + es[..done] && Run(Step, old(state), Events(es[..done])) == Some(state)
    {
      ghost var start := state;
      assert es[0..] == es && es[..0] == [] && log + [] == log;
      for i := 0 to |es|
        invariant Valid() && Logged() && fresh(repr - old(repr)) && log == old(log) + es[..i]
        invariant Run(Step, start, Events(es[..i])) == Some(state)
        invariant Run(Step, start, Events(es)) == Run(Step, state, Events(es[i..]))
      {
        ScheduleAt(Step, start, es, i, state, old(log));
        done := i;
        ok := Execute(es[i]);
        if !ok { return; }
      }
      ok, done := true, |es|;
      assert es[..done] == es;
    }

    /** The other goroutines take any steps. */
    method Interfere(me: nat, ghost c: Call<Event>) returns (ghost es: seq<Event>)
      requires Valid() && Logged() && c.me == me && SoFar(c, log)
      modifies this, repr
      ensures Valid() && Logged() && fresh(repr - old(repr)) && SoFar(c, log)
      ensures Run(Step, old(state), es) == Some(state)
    {
      var schedule: seq<By<Event>> := *;
      es := [];
      if forall i | 0 <= i < |schedule| :: schedule[i].who != me {
        var _, done := ExecuteAll(schedule);
        CallWaits(c, old(log), schedule[..done]);
        es := Events(schedule[..done]);
      }
    }

    // ----- client() -----

    /** Sends a request, once the channel has room, and waits on its returnChan. It has not sent only if the channel
        is full, and None means that the actor has not replied yet. Else the reply is for `h`; and if LoginHost had
        returned `h` before the call, the reply is nil exactly if the host had been removed when the actor handled
        the request. Of all the steps recorded meanwhile, the call's own is at most the request. */
    method RequestClient(me: nat, h: Key) returns (r: Option<HostClient?>, i: nat, sent: bool)
      requires Valid() && Logged()
      modifies this, repr
      ensures Valid() && Logged() && fresh(repr - old(repr))
      ensures Wrote(old(log), if sent then [Ask(h)] else [], log, me)
      ensures !sent ==> r.None? && (panicked || |state.requests| >= state.received + BUFFER)
      ensures sent ==> i < |state.requests| && state.requests[i].host == h && (r.Some? <==> i < |state.replies|)
      ensures r.Some? ==> i < |returned| && returned[i] == r.value && Answered(old(state), state, h, i, r.value)
    {
      ghost var s := state;
      CallStarts(me, log);
      ghost var c := Call(me, log, []);
      ghost var before := Interfere(me, c);
      r, i, sent := None, asked, !panicked && |requestCh| < BUFFER;
      if sent {
        SendAsOwn(me, h, c, s, before);
        ghost var t := state;
        ghost var es := Interfere(me, Then(c, Ask(h)));
        RequestsKeptThroughout(t, es, state);
        if i < |returned| {
          r := Some(returned[i]);
          ReplyReceived(s, t, h, i);
        }
      }
    }

    /** The request enters the channel. */
    method SendAsOwn(me: nat, h: Key, ghost c: Call<Event>, ghost s: State, ghost before: seq<Event>)
      requires Valid() && Logged() && !panicked && |requestCh| < BUFFER && c.me == me && SoFar(c, log)
      requires Run(Step, s, before) == Some(state)
      modifies this
      ensures Valid() && Logged() && repr == old(repr) && SoFar(Then(c, Ask(h)), log)
      ensures |state.requests| == old(asked) + 1 && state.requests[old(asked)].host == h
      ensures h in s.loggedIn ==> state.requests[old(asked)].afterLogin
    {
      ghost var t := state;
      CallActs(c, log, Ask(h));
      SendRequest(h);
      RequestSent(s, before, t, h, state);
      Record(me, Ask(h), t);
    }

    /** What a call of client() made in state `s` finds on its returnChan. */
    ghost predicate Answered(s: State, t: State, h: Key, i: nat, r: HostClient?)
      reads this
    {
      && i < |t.replies| && t.replies[i].host == h
      && (r != null <==> t.replies[i].found) && (r != null ==> h in made && made[h] == r)
      && (h in s.loggedIn ==> (r == null <==> t.replies[i].removed))
    }

    lemma ReplyReceived(s: State, asked: State, h: Key, i: nat)
      requires Valid() && Logged() && i < |returned| && i < |asked.requests| && asked.requests <= state.requests
      requires asked.requests[i].host == h && (h in s.loggedIn ==> asked.requests[i].afterLogin)
      ensures Answered(s, state, h, i, returned[i])
    {
    }

    // ----- ListenNewOffer -----

    /** Forwards the signals of the host's client to the stream, after marking the client active: NotFound if there is
        none. None means that client() still waits, because its channel is full or the actor has not replied, or that
        the actor has failed. The loop takes the turns given: it ends only if the stream fails, and it waits only if
        there is no signal. Of all the steps recorded meanwhile, exactly those listed are the call's own; the client
        stays active whatever else happens. */
    method ListenNewOffer(me: nat, h: Key, fails: seq<bool>)
      returns (found: Option<bool>, signals: nat, ending: Ending, i: nat, asked: bool)
      requires Valid() && Logged()
      modifies this, repr
      ensures Valid() && Logged()
      ensures Wrote(old(log), if found == Some(true) then ListenCall(h, i, signals) else if asked then [Ask(h)] else [],
                    log, me)
      ensures found.None? ==>
                panicked || if asked then i >= |state.replies| else |state.requests| >= state.received + BUFFER
      ensures found == Some(false) ==>
                asked && i < |state.replies| && state.replies[i].host == h && !state.replies[i].found
      ensures found == Some(true) ==> IsActive(state, h) && Listened(fails, signals, Silent(state, h), ending)
    {
      signals, ending := 0, StillWaiting;
      var r;
      r, i, asked := RequestClient(me, h);
      if r.None? || panicked {
        return None, 0, StillWaiting, i, asked;
      }
      if r.value == null {
        return Some(false), 0, StillWaiting, i, asked;
      }
      ghost var c := Call(me, old(log), [Ask(h)]);
      BecomeActive(me, h, i, c);
      signals, ending := ForwardSignals(me, h, fails, Then(c, Listen(i)));
      ListenCallDone(me, old(log), h, i, signals);
      found := Some(true);
    }

    method BecomeActive(me: nat, h: Key, i: nat, ghost c: Call<Event>)
      requires Valid() && Logged() && !panicked && c.me == me && SoFar(c, log)
      requires i < |returned| && returned[i] != null && state.replies[i].host == h && h in made
      modifies this, repr
      ensures Valid() && Logged() && fresh(repr - old(repr)) && IsActive(state, h) && SoFar(Then(c, Listen(i)), log)
    {
      ghost var s := state;
      CallActs(c, log, Listen(i));
      MarkActive(i);
      Record(me, Listen(i), s);
    }

    /** The loop: a signal each turn, for the turns given, until the stream fails or there is no signal. */
    method ForwardSignals(me: nat, h: Key, fails: seq<bool>, ghost c: Call<Event>)
      returns (signals: nat, ending: Ending)
      requires Valid() && Logged() && IsActive(state, h) && c.me == me && SoFar(c, log)
      modifies this, repr
      ensures Valid() && Logged() && IsActive(state, h) && SoFar(Signalled(c, h, signals), log)
      ensures Listened(fails, signals, Silent(state, h), ending)
    {
      signals, ending := 0, Unseen;
      SignalledNone(c, h);
      while signals < |fails| && ending.Unseen?
        invariant Valid() && Logged() && fresh(repr - old(repr)) && IsActive(state, h)
        invariant SoFar(Signalled(c, h, signals), log) && signals <= |fails|
        invariant if ending.Unseen? then forall j | 0 <= j < signals :: !fails[j]
                  else Listened(fails, signals, Silent(state, h), ending)
        decreases ending.Unseen?, |fails| - signals
      {
        var more := ForwardOne(me, h, c, signals);
        if !more {
          ending := StillWaiting;
        } else {
          ending := if fails[signals] then StreamFailed else Unseen;
          signals := signals + 1;
        }
      }
    }

    method ForwardOne(me: nat, h: Key, ghost c: Call<Event>, signals: nat) returns (more: bool)
      requires Valid() && Logged() && IsActive(state, h) && c.me == me && SoFar(Signalled(c, h, signals), log)
      modifies this, repr
      ensures Valid() && Logged() && fresh(repr - old(repr)) && IsActive(state, h)
      ensures SoFar(Signalled(c, h, if more then signals + 1 else signals), log) && (!more ==> Silent(state, h))
    {
      ghost var s, d := state, Signalled(c, h, signals);
      ghost var es := Interfere(me, d);
      StaysActive(s, es, state, h);
      more := ReceiveSignal(me, h, d);
      SignalledOneMore(c, h, signals);
    }

    /** The select, when it runs. */
    method ReceiveSignal(me: nat, h: Key, ghost c: Call<Event>) returns (more: bool)
      requires Valid() && Logged() && IsActive(state, h) && c.me == me && SoFar(c, log)
      modifies this, repr
      ensures Valid() && Logged() && fresh(repr - old(repr)) && IsActive(state, h)
      ensures SoFar(if more then Then(c, ListenerTakes(h)) else c, log) && (!more ==> Silent(state, h))
    {
      ghost var s := state;
      CallActs(c, log, ListenerTakes(h));
      more := Execute(By(me, ListenerTakes(h)));
      if more {
        ActiveStays(s, ListenerTakes(h), h);
      } else {
        NothingToTake(state, h);
      }
    }
  }

  /** There is no signal for a listener of `h`, or the actor's failure has ended the process. */
  predicate Silent(s: State, h: Key) {
    s.failed.Some? || h !in s.objects || s.objects[h].buffered == 0
  }

  lemma NothingToTake(s: State, h: Key)
    requires Step(s, ListenerTakes(h)).None?
    ensures Silent(s, h)
  {
  }

  /** The loop forwarded `n` signals and ended as the stream did; it waits only if there was no signal. */
  predicate Listened(fails: seq<bool>, n: nat, silent: bool, ending: Ending) {
    && n <= |fails|
    && match ending
       case Unseen => n == |fails| && forall j | 0 <= j < n :: !fails[j]
       case StillWaiting => n < |fails| && silent && forall j | 0 <= j < n :: !fails[j]
       case StreamFailed => n > 0 && fails[n - 1] && forall j | 0 <= j < n - 1 :: !fails[j]
       case GaveUp => false
  }

  predicate IsActive(s: State, h: Key) {
    h in s.objects && s.objects[h].status.Active?
  }

  function Signals(h: Key, n: nat): seq<Event> {
    seq(n, _ => ListenerTakes(h))
  }

  /** The steps of one ListenNewOffer call that forwards `n` signals. */
  function ListenCall(h: Key, i: nat, n: nat): seq<Event> {
    [Ask(h), Listen(i)] + Signals(h, n)
  }

  function Signalled(c: Call<Event>, h: Key, n: nat): Call<Event> {
    c.(own := c.own + Signals(h, n))
  }

  lemma SignalledNone(c: Call<Event>, h: Key)
    ensures Signalled(c, h, 0) == c
  {
  }

  lemma SignalledOneMore(c: Call<Event>, h: Key, n: nat)
    ensures Then(Signalled(c, h, n), ListenerTakes(h)) == Signalled(c, h, n + 1)
  {
  }

  lemma ListenCallDone(me: nat, start: seq<By<Event>>, h: Key, i: nat, n: nat)
    ensures Signalled(Then(Call(me, start, [Ask(h)]), Listen(i)), h, n) == Call(me, start, ListenCall(h, i, n))
  {
    assert [Ask(h)] + [Listen(i)] == [Ask(h), Listen(i)];
  }

  lemma {:induction false} StaysActive(s: State, es: seq<Event>, t: State, h: Key)
    requires HostRegistry.Inv(s) && IsActive(s, h) && Run(Step, s, es) == Some(t)
    ensures IsActive(t, h)
    decreases |es|
  {
    if |es| > 0 {
      InvStep(s, es[0]);
      ActiveStays(s, es[0], h);
      StaysActive(Step(s, es[0]).value, es[1..], t, h);
    }
  }

  lemma ActiveStays(s: State, e: Event, h: Key)
    requires HostRegistry.Inv(s) && IsActive(s, h) && Step(s, e).Some?
    ensures IsActive(Step(s, e).value, h)
  {
    assert HostInv(s, h);
  }

  /** The steps of the actor goroutine. */
  predicate IsActor(e: Event) {
    e.Login? || e.TakeCheck? || e.TakeClose? || e.TakeRequest? || e.TakeNote? || e.Handle?
  }

  /** The steps of the delivery goroutines at their select. */
  predicate IsSender(e: Event) {
    e.SenderArrives? || e.SenderDelivers? || e.SenderTimesOut? || e.SenderLate?
  }

  /** Requests are only added, and a login is not undone. */
  lemma {:induction false} RequestsKeptThroughout(s: State, es: seq<Event>, t: State)
    requires Run(Step, s, es) == Some(t)
    ensures s.requests <= t.requests && s.loggedIn <= t.loggedIn
    decreases |es|
  {
    if |es| > 0 {
      RequestsOnlyAdded(s, es[0]);
      RequestsKeptThroughout(Step(s, es[0]).value, es[1..], t);
    }
  }

  lemma RequestsOnlyAdded(s: State, e: Event)
    requires Step(s, e).Some?
    ensures s.requests <= Step(s, e).value.requests && s.loggedIn <= Step(s, e).value.loggedIn
  {
  }

  lemma RequestSent(s: State, before: seq<Event>, t: State, h: Key, u: State)
    requires Run(Step, s, before) == Some(t) && Step(t, Ask(h)) == Some(u)
    ensures |u.requests| == |t.requests| + 1 && u.requests[|t.requests|].host == h
    ensures h in s.loggedIn ==> u.requests[|t.requests|].afterLogin
  {
    RequestsKeptThroughout(s, before, t);
  }

  function Registered(s: State, h: Key): State {
    s.(busy := None, clients := s.clients + {h}, timers := s.timers + {h},
       objects := s.objects[h := NewClient])
  }

  lemma RegisterStep(s: State, h: Key)
    requires s.failed.None? && s.busy == Some(Register(h))
    ensures Step(s, Handle) == Some(Registered(s, h))
  {
  }

  lemma CheckStep(s: State, h: Key)
    requires s.failed.None? && s.busy == Some(Check(h)) && s.clients <= s.objects.Keys
    ensures var t := s.(busy := None, checked := s.checked + {h});
            Step(s, Handle) ==
            Some(if h !in s.clients then t.(failed := Some(h))
                 else if s.objects[h].status.Idle? then t.(clients := s.clients - {h}, collected := s.collected + {h})
                 else t)
  {
  }

  lemma NoteStep(s: State, h: Key)
    requires s.failed.None? && s.busy == Some(Note(h)) && s.clients <= s.objects.Keys
    ensures Step(s, Handle) ==
            Some(if h in s.clients then
                   s.(busy := None, objects := s.objects[h := s.objects[h].(spawned := s.objects[h].spawned + 1)])
                 else s.(busy := None, ignored := s.ignored + multiset{h}))
  {
  }

  lemma TimeOutStep(s: State, h: Key)
    requires s.failed.None? && h in s.objects && s.objects[h].blocked > 0
    ensures var c := s.objects[h];
            Step(s, SenderTimesOut(h)) ==
            Some(s.(objects := s.objects[h := c.(blocked := c.blocked - 1, timedOut := c.timedOut + 1)],
                    closers := s.closers + multiset{h}))
  {
  }

  lemma LateStep(s: State, h: Key)
    requires s.failed.None? && h in s.objects && s.objects[h].spawned > 0
    ensures Step(s, SenderLate(h)) ==
            Some(s.(objects := s.objects[h := GivenUpAtOnce(s.objects[h])], closers := s.closers + multiset{h}))
  {
  }

  lemma PushStep(s: State, h: Key)
    requires s.failed.None? && h in s.closers && |s.closeQueue| < BUFFER
    ensures Step(s, CloserPushes(h)) == Some(s.(closers := s.closers - multiset{h}, closeQueue := s.closeQueue + [h]))
  {
  }

  lemma HandleStep(s: State, m: Message)
    requires s.failed.None? && s.busy == Some(m)
    ensures Step(s, Handle) == Some(Handled(s.(busy := None), m))
  {
  }
}
