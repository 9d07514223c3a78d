/**
  The creating router as the Go code has it: a map whose values are channel
  objects, a router goroutine with local variables, handlers that keep their own
  copy of a channel, and clean-up goroutines that captured a key. Each method is
  one region that runs without interleaving. Channel identity is object identity,
  so a reference taken under the lock may outlive its map entry.
 */
module MailboxTables {
  import opened Runs
  import opened Packets
  import opened CreatingRouter

  /** A buffered channel. */
  class Channel<T> {
    const capacity: nat
    var buffer: seq<T>
    ghost const index: nat

    constructor (capacity: nat, ghost index: nat)
      ensures buffer == [] && this.capacity == capacity && this.index == index
    {
      this.capacity, this.index, buffer := capacity, index, [];
    }

    /** ch <- v, once there is room */
    method Send(v: T)
      requires |buffer| < capacity
      modifies this
      ensures buffer == old(buffer) + [v]
    {
      buffer := buffer + [v];
    }

    /** v := <-ch, once there is a value */
    method Receive() returns (v: T)
      requires buffer != []
      modifies this
      ensures v == old(buffer)[0] && buffer == old(buffer)[1..]
    {
      v, buffer := buffer[0], buffer[1..];
    }
  }

  /** The local variables of the router goroutine. */
  datatype RouterLocals<T> =
    | AtSelect
    | Got(p: Packet<T>)
    | Found(p: Packet<T>, ch: Channel<T>)

  /** The local variables of a handler that has done its look-up. */
  datatype HandlerLocals<T> = HandlerLocals(key: Key, ch: Channel<T>)

  lemma DropFirst<T>(xs: seq<T>, n: nat)
    requires n < |xs|
    ensures xs[n..][0] == xs[n] && xs[n..][1..] == xs[n + 1..]
  {
  }

  ghost function IndicesOf<T>(live: map<Key, Channel<T>>): map<Key, nat> {
    map k | k in live :: live[k].index
  }

  lemma IndicesInsert<T>(live: map<Key, Channel<T>>, key: Key, ch: Channel<T>)
    ensures IndicesOf(live[key := ch]) == IndicesOf(live)[key := ch.index]
  {
  }

  lemma IndicesRemove<T>(live: map<Key, Channel<T>>, key: Key)
    ensures IndicesOf(live - {key}) == IndicesOf(live) - {key}
  {
  }

  ghost function RefsOf<T>(handlers: seq<HandlerLocals<T>>): seq<Reference> {
    seq(|handlers|, h requires 0 <= h < |handlers| => Reference(handlers[h].key, handlers[h].ch.index))
  }

  ghost function HandOf<T>(router: RouterLocals<T>): Hand<T> {
    match router
    case AtSelect => Idle
    case Got(p) => Received(p)
    case Found(p, ch) => Holding(p, ch.index)
  }

  class MailboxTable<T> {
    const capacity: nat
    const oneShot: bool                 // handlers return with their first value
    var live: map<Key, Channel<T>>
    var router: RouterLocals<T>
    var handlers: seq<HandlerLocals<T>>
    var left: set<nat>                  // handlers that have returned
    var timers: map<nat, Key>           // clean-up goroutines still asleep, with the key each captured
    var count: nat
    ghost var made: seq<Channel<T>>     // every channel ever made,
    ghost var boxes: seq<Mailbox<T>>    // and what happened on it
    ghost var consumed: seq<Packet<T>>

    ghost predicate Known(ch: Channel<T>)
      reads this
    {
      ch.index < |made| && made[ch.index] == ch
    }

    /** Channels are only ever added, and the added ones are new. */
    twostate predicate Grown()
      reads this
    {
      old(made) <= made && forall i | old(|made|) <= i < |made| :: fresh(made[i])
    }

    /** Each channel holds what was sent on it and not yet received. */
    ghost predicate Valid()
      reads this, made
    {
      && count == |made| == |boxes|
      && (forall i | 0 <= i < |made| ::
            && made[i].index == i && made[i].capacity == capacity
            && |boxes[i].takers| <= |boxes[i].sent| && made[i].buffer == boxes[i].sent[|boxes[i].takers|..])
      && (forall k | k in live :: Known(live[k]))
      && (router.Found? ==> Known(router.ch))
      && (forall h | 0 <= h < |handlers| :: Known(handlers[h].ch))
      && (forall b | b in timers :: b < |boxes| && timers[b] == boxes[b].key)
    }

    ghost function View(): State<T>
      reads this
    {
      State(capacity, oneShot, consumed, boxes, IndicesOf(live), timers.Keys, RefsOf(handlers), left, HandOf(router))
    }

    constructor (capacity: nat, oneShot: bool)
      ensures Valid() && made == [] && View() == Init<T>(capacity, oneShot)
    {
      this.capacity, this.oneShot := capacity, oneShot;
      live, router, handlers, left, timers, count := map[], AtSelect, [], {}, map[], 0;
      made, boxes, consumed := [], [], [];
    }

    /** case p := <-input */
    method Receive(p: Packet<T>)
      requires Valid() && router.AtSelect?
      modifies this
      ensures Valid() && made == old(made)
      ensures Step(old(View()), CreatingRouter.Receive(p)) == Some(View())
    {
      router := Got(p);
      consumed := consumed + [p];
    }

    /** m[key] = make(chan T, capacity) */
    method MakeChannel(key: Key, ghost timed: bool)
      requires Valid()
      modifies this
      ensures Valid() && Grown() && key in live && count == old(count) + 1
      ensures boxes[old(count)].key == key
      ensures router == old(router) && timers == old(timers)
      ensures View() == old(View()).(
        boxes := old(View()).boxes + [Mailbox(key, timed, [], [])],
        live := old(View()).live[key := old(count)])
    {
      var ch := new Channel<T>(capacity, count);
      IndicesInsert(live, key, ch);
      made, boxes := made + [ch], boxes + [Mailbox(key, timed, [], [])];
      live := live[key := ch];
      count := count + 1;
    }

    /** The locked get-or-create, with a clean-up goroutine when `timed`. */
    method Ensure(key: Key, timed: bool)
      requires Valid()
      modifies this
      ensures Valid() && Grown() && key in live
      ensures View() == Ensured(old(View()), key, timed)
      ensures router == old(router)
    {
      if key !in live {
        var mine := count;
        MakeChannel(key, timed);
        if timed {
          StartTimer(mine, key);
        }
      }
    }

    /** go func() { time.Sleep(…); delete(m, key) }() */
    method StartTimer(b: nat, key: Key)
      requires Valid() && b < |boxes| && boxes[b].key == key
      modifies this`timers
      ensures Valid()
      ensures View() == old(View()).(timers := old(View()).timers + {b})
    {
      timers := timers[b := key];
      assert timers.Keys == old(timers).Keys + {b};
    }

    /** The router's locked section. */
    method ResolveMailbox()
      requires Valid() && router.Got?
      modifies this
      ensures Valid() && Grown()
      ensures Step(old(View()), Resolve) == Some(View())
    {
      var p := router.p;
      Ensure(p.key, true);
      Hold(p);
    }

    /** The router leaves the section with the entry in its hand. */
    method Hold(p: Packet<T>)
      requires Valid() && p.key in live
      modifies this`router
      ensures Valid()
      ensures View() == old(View()).(hand := Holding(p, old(View()).live[p.key]))
    {
      router := Found(p, live[p.key]);
    }

    /** ch <- p, after the lock was released */
    method SendHeld()
      requires Valid() && router.Found? && |router.ch.buffer| < capacity
      modifies this, made
      ensures Valid() && made == old(made)
      ensures Step(old(View()), Send) == Some(View())
    {
      router.ch.Send(router.p.body);
      boxes := Appended(boxes, router.ch.index, router.p.body);
      router := AtSelect;
    }

    /** A handler's locked look-up. */
    method Acquire(key: Key) returns (h: nat)
      requires Valid() && key in live
      modifies this
      ensures Valid() && made == old(made)
      ensures h == |old(handlers)| && handlers == old(handlers) + [HandlerLocals(key, old(live)[key])]
      ensures Step(old(View()), CreatingRouter.Acquire(key)) == Some(View())
    {
      ghost var before := View();
      h := |handlers|;
      handlers := handlers + [HandlerLocals(key, live[key])];
      assert RefsOf(handlers) == before.refs + [Reference(key, before.live[key])];
    }

    /** WaitForOffer's locked section: get-or-create without a clean-up, keeping the channel. */
    method EnsureAndAcquire(key: Key) returns (h: nat)
      requires Valid()
      modifies this
      ensures Valid() && Grown()
      ensures h == |old(View()).refs|
      ensures Step(Ensured(old(View()), key, false), CreatingRouter.Acquire(key)) == Some(View())
    {
      Ensure(key, false);
      h := Acquire(key);
    }

    /** A handler receives from the channel it looked up, still mapped or not. */
    method Take(h: nat) returns (v: T)
      requires Valid() && h < |handlers| && h !in left && handlers[h].ch.buffer != []
      modifies this, made
      ensures Valid() && made == old(made)
      ensures Step(old(View()), CreatingRouter.Take(h)) == Some(View())
      ensures var m := old(boxes[handlers[h].ch.index]); v == m.sent[|m.takers|]
    {
      ghost var b := handlers[h].ch.index;
      DropFirst(boxes[b].sent, |boxes[b].takers|);
      v := handlers[h].ch.Receive();
      boxes := TakenBy(boxes, b, h);
      left := if oneShot then left + {h} else left;
    }

    /** A handler returns: its context is done, or it got what it came for. */
    method Leave(h: nat)
      requires Valid() && h < |handlers|
      modifies this
      ensures Valid() && made == old(made)
      ensures Step(old(View()), CreatingRouter.Leave(h)) == Some(View())
    {
      left := left + {h};
    }

    /** delete(m, key) under the lock */
    method Delete(key: Key)
      requires Valid()
      modifies this
      ensures Valid() && made == old(made)
      ensures Step(old(View()), CreatingRouter.Delete(key)) == Some(View())
    {
      IndicesRemove(live, key);
      live := live - {key};
    }

    /** A clean-up goroutine wakes up: it knows its key, not its channel. */
    method FireTimer(b: nat)
      requires Valid() && b in timers
      modifies this
      ensures Valid() && made == old(made)
      ensures Step(old(View()), Fire(b)) == Some(View())
    {
      var key := timers[b];
      IndicesRemove(live, key);
      timers := timers - {b};
      live := live - {key};
    }

    /** One scheduled step, if it can run now. */
    method Execute(e: Event<T>) returns (ok: bool)
      requires Valid()
      modifies this, made
      ensures Valid() && Grown()
      ensures ok <==> Step(old(View()), e).Some?
      ensures View() == if ok then Step(old(View()), e).value else old(View())
    {
      ok := true;
      match e {
        case Receive(p) =>
          if router.AtSelect? { Receive(p); } else { ok := false; }
        case Resolve =>
          if router.Got? { ResolveMailbox(); } else { ok := false; }
        case Send =>
          if router.Found? && |router.ch.buffer| < capacity { SendHeld(); } else { ok := false; }
        case Ensure(key, timed) =>
          Ensure(key, timed);
        case Acquire(key) =>
          if key in live { var _ := Acquire(key); } else { ok := false; }
        case Take(h) =>
          if h < |handlers| && h !in left && handlers[h].ch.buffer != [] { var _ := Take(h); } else { ok := false; }
        case Leave(h) =>
          if h < |handlers| { Leave(h); } else { ok := false; }
        case Delete(key) =>
          Delete(key);
        case Fire(b) =>
          if b in timers { FireTimer(b); } else { ok := false; }
      }
    }

    /** Any schedule run on the objects does what the run of the step function does. */
    method ExecuteAll(es: seq<Event<T>>) returns (ok: bool, ghost done: nat)
      requires Valid()
      modifies this, made
      ensures Valid() && Grown()
      ensures ok <==> Run(Step, old(View()), es).Some?
      ensures done <= |es| && Run(Step, old(View()), es[..done]) == Some(View())
      ensures ok ==> done == |es|
    {
      ghost var start := View();
      for i := 0 to |es|
        invariant Valid() && Grown()
        invariant Run(Step, start, es[..i]) == Some(View())
        invariant Run(Step, start, es) == Run(Step, View(), es[i..])
      {
        RunAt(Step, start, es, i, View());
        done := i;
        ok := Execute(es[i]);
        if !ok { return; }
      }
      ok, done := true, |es|;
      assert es[..done] == es;
    }
  }
}
