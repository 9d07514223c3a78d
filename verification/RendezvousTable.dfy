/**
  The non-creating router as the Go code has it: a map of unbuffered channels, a
  router goroutine with local variables, and handlers that keep their own copy of a
  channel. Each method is one region that runs without interleaving. Channel identity
  is object identity: a send meets a receive on the same channel object.
 */
module RendezvousTables {
  import opened Runs
  import opened Packets
  import opened NonCreatingRouter

  /** An unbuffered channel stores nothing. */
  class Rendezvous {
    ghost const key: Key

    constructor (ghost key: Key)
      ensures this.key == key
    {
      this.key := key;
    }
  }

  datatype RouterLocals<T> =
    | AtSelect
    | Got(p: Packet<T>)
    | Found(p: Packet<T>, ch: Rendezvous)

  datatype HandlerLocals = HandlerLocals(key: Key, ch: Rendezvous)

  ghost function KeysOf(handlers: seq<HandlerLocals>): seq<Key> {
    seq(|handlers|, h requires 0 <= h < |handlers| => handlers[h].key)
  }

  ghost function HandOf<T>(router: RouterLocals<T>): Hand<T> {
    match router
    case AtSelect => Idle
    case Got(p) => Received(p)
    case Found(p, _) => Holding(p)
  }

  /** One of the two maps, its router and the handlers that use it. */
  class RendezvousTable<T> {
    const oneShot: bool                 // handlers return with their first value
    var live: map<Key, Rendezvous>
    var router: RouterLocals<T>
    var handlers: seq<HandlerLocals>
    var left: set<nat>                  // handlers that have returned
    var minted: set<Key>                // UUIDs handed out so far: a new one is none of them
    ghost var made: map<Key, Rendezvous>
    ghost var slots: map<Key, Slot<T>>  // what was handed over on each channel
    ghost var consumed: seq<Packet<T>>
    ghost var dropped: seq<Packet<T>>

    ghost predicate Valid()
      reads this
    {
      && minted == made.Keys == slots.Keys && (forall k | k in made :: made[k].key == k)
      && (forall k | k in live :: k in made && live[k] == made[k])
      && (router.Found? ==> router.p.key in made && router.ch == made[router.p.key])
      && (forall h | 0 <= h < |handlers| :: handlers[h].key in made && handlers[h].ch == made[handlers[h].key])
    }

    ghost function View(): State<T>
      reads this
    {
      State(oneShot, consumed, dropped, slots, live.Keys, KeysOf(handlers), left, HandOf(router))
    }

    constructor (oneShot: bool)
      ensures Valid() && View() == Init<T>(oneShot)
    {
      this.oneShot := oneShot;
      live, router, handlers, left := map[], AtSelect, [], {};
      minted, made, slots := {}, map[], map[];
      consumed, dropped := [], [];
    }

    method Receive(p: Packet<T>)
      requires Valid() && router.AtSelect?
      modifies this
      ensures Valid()
      ensures Step(old(View()), NonCreatingRouter.Receive(p)) == Some(View())
    {
      router := Got(p);
      consumed := consumed + [p];
    }

    /** The router's locked look-up; without an entry it logs and continues. */
    method Lookup()
      requires Valid() && router.Got?
      modifies this
      ensures Valid()
      ensures Step(old(View()), Resolve) == Some(View())
    {
      var p := router.p;
      if p.key in live {
        router := Found(p, live[p.key]);
      } else {
        dropped := dropped + [p];
        router := AtSelect;
      }
    }

    /** ch <- v meets v := <-ch: the router and a handler hold the same channel. */
    method HandOver(h: nat) returns (v: T)
      requires Valid() && router.Found? && h < |handlers| && h !in left && handlers[h].ch == router.ch
      modifies this
      ensures Valid()
      ensures Step(old(View()), NonCreatingRouter.HandOver(h)) == Some(View())
      ensures v == old(router.p.body)
    {
      var key := router.p.key;
      assert handlers[h].key == key;
      v := router.p.body;
      slots := slots[key := Handed(slots[key], v, h)];
      left := if oneShot then left + {h} else left;
      router := AtSelect;
    }

    /** m[key] = make(chan T) for a new UUID */
    method Mint(key: Key)
      requires Valid() && key !in minted
      modifies this
      ensures Valid()
      ensures Step(old(View()), NonCreatingRouter.Mint(key)) == Some(View())
    {
      var ch := new Rendezvous(key);
      live := live[key := ch];
      minted := minted + {key};
      made := made[key := ch];
      slots := slots[key := Slot(Stream(dropped, key), [], [])];
      assert live.Keys == old(live).Keys + {key};
    }

    /** A handler's locked look-up; absent keys are an error to its caller. */
    method Acquire(key: Key) returns (ok: bool)
      requires Valid()
      modifies this
      ensures Valid()
      ensures ok <==> key in old(live)
      ensures if ok then Step(old(View()), NonCreatingRouter.Acquire(key)) == Some(View()) else View() == old(View())
    {
      ok := key in live;
      if ok {
        handlers := handlers + [HandlerLocals(key, live[key])];
        assert KeysOf(handlers) == KeysOf(old(handlers)) + [key];
      }
    }

    /** A handler returns: its context is done, or it got what it came for. */
    method Leave(h: nat)
      requires Valid() && h < |handlers|
      modifies this
      ensures Valid()
      ensures Step(old(View()), NonCreatingRouter.Leave(h)) == Some(View())
    {
      left := left + {h};
    }

    method Delete(key: Key)
      requires Valid()
      modifies this
      ensures Valid()
      ensures Step(old(View()), NonCreatingRouter.Delete(key)) == Some(View())
    {
      live := live - {key};
    }

    /** One scheduled step, if it can run now. */
    method Execute(e: Event<T>) returns (ok: bool)
      requires Valid()
      modifies this
      ensures Valid()
      ensures ok <==> Step(old(View()), e).Some?
      ensures View() == if ok then Step(old(View()), e).value else old(View())
    {
      ok := true;
      match e {
        case Receive(p) =>
          if router.AtSelect? { Receive(p); } else { ok := false; }
        case Resolve =>
          if router.Got? { Lookup(); } else { ok := false; }
        case HandOver(h) =>
          if router.Found? && h < |handlers| && h !in left && handlers[h].ch == router.ch {
            var _ := HandOver(h);
          } else {
            ok := false;
          }
        case Mint(key) =>
          if key in minted { ok := false; } else { Mint(key); }
        case Acquire(key) =>
          ok := Acquire(key);
        case Leave(h) =>
          if h < |handlers| { Leave(h); } else { ok := false; }
        case Delete(key) =>
          Delete(key);
      }
    }

    /** Any schedule run on the objects does what the run of the step function does. */
    method ExecuteAll(es: seq<Event<T>>) returns (ok: bool, ghost done: nat)
      requires Valid()
      modifies this
      ensures Valid()
      ensures ok <==> Run(Step, old(View()), es).Some?
      ensures done <= |es| && Run(Step, old(View()), es[..done]) == Some(View())
      ensures ok ==> done == |es|
    {
      ghost var start := View();
      for i := 0 to |es|
        invariant Valid()
        invariant Run(Step, start, es[..i]) == Some(View())
        invariant Run(Step, start, es) == Run(Step, View(), es[i..])
      {
        RunAt(Step, start, es, i, View());
        done := i;
        ok := Execute(es[i]);
        if !ok { return; }
      }
      ok, done := true, |es|;
      assert es[..done] == es;
    }
  }
}
