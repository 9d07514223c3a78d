/**
  A router that drops what has no entry, as the history of a run. The functions here
  read the events only; the lemmas say that the state is exactly what they say, and that
  a step is possible exactly when the history allows it.
 */
module NonCreatingHistory {
  import opened Runs
  import opened Packets
  import opened NonCreatingRouter

  /** The map has `k`: it was minted, and not deleted since. */
  ghost predicate Mapped<T>(es: seq<Event<T>>, k: Key) {
    if |es| == 0 then false
    else
      var n := |es| - 1;
      if es[n] == Mint(k) then true else if es[n] == Delete(k) then false else Mapped(es[..n], k)
  }

  /** Where the router goroutine is: it keeps a packet past its look-up only if the key was mapped then. */
  ghost function Held<T>(es: seq<Event<T>>): Hand<T> {
    if |es| == 0 then Idle
    else
      var n := |es| - 1;
      match es[n]
      case Receive(p) => Received(p)
      case Resolve =>
        (match Held(es[..n]) case Received(p) => if Mapped(es[..n], p.key) then Holding(p) else Idle case h => h)
      case HandOver(_) => Idle
      case _ => Held(es[..n])
  }

  /** The packets it dropped, in order. */
  ghost function Dropped<T>(es: seq<Event<T>>): seq<Packet<T>> {
    if |es| == 0 then []
    else
      var n := |es| - 1;
      Dropped(es[..n]) +
      if es[n].Resolve? && Held(es[..n]).Received? && !Mapped(es[..n], Held(es[..n]).p.key) then [Held(es[..n]).p]
      else []
  }

  /** What had been dropped for `k` when it was minted. */
  ghost function EarlyFor<T>(es: seq<Event<T>>, k: Key): seq<T> {
    if |es| == 0 then []
    else
      var n := |es| - 1;
      if es[n] == Mint(k) then Stream(Dropped(es[..n]), k) else EarlyFor(es[..n], k)
  }

  /** The handlers' look-ups that found a channel, in order. */
  ghost function Lookups<T>(es: seq<Event<T>>): seq<Key> {
    if |es| == 0 then []
    else
      var n := |es| - 1;
      Lookups(es[..n]) + match es[n] case Acquire(key) => if Mapped(es[..n], key) then [key] else [] case _ => []
  }

  /** What was handed over for `k`, in order: what the router held, */
  ghost function HandedFor<T>(es: seq<Event<T>>, k: Key): seq<T> {
    if |es| == 0 then []
    else
      var n := |es| - 1;
      HandedFor(es[..n], k) +
      if es[n].HandOver? && Held(es[..n]).Holding? && Held(es[..n]).p.key == k then [Held(es[..n]).p.body] else []
  }

  /** and to which handlers. */
  ghost function TakersFor<T>(es: seq<Event<T>>, k: Key): seq<nat> {
    if |es| == 0 then []
    else
      var n := |es| - 1;
      TakersFor(es[..n], k) +
      match es[n]
      case HandOver(r) => if r < |Lookups(es[..n])| && Lookups(es[..n])[r] == k then [r] else []
      case _ => []
  }

  ghost predicate Returned<T>(oneShot: bool, es: seq<Event<T>>, r: nat) {
    Leave(r) in es || (oneShot && HandOver(r) in es)
  }

  // ----- the state is that history -----

  ghost predicate Reached<T>(oneShot: bool, es: seq<Event<T>>, s: State<T>) {
    Run(Step, Init(oneShot), es) == Some(s)
  }

  ghost predicate KeyIs<T>(es: seq<Event<T>>, s: State<T>, k: Key) {
    && (k in s.live <==> Mapped(es, k))
    && (if k in s.slots then
          && Mint(k) in es
          && s.slots[k] == Slot(EarlyFor(es, k), HandedFor(es, k), TakersFor(es, k))
        else Mint(k) !in es && EarlyFor(es, k) == [] && HandedFor(es, k) == [] && TakersFor(es, k) == [])
  }

  ghost predicate MapIs<T>(es: seq<Event<T>>, s: State<T>) {
    forall k :: KeyIs(es, s, k)
  }

  ghost predicate RouterIs<T>(oneShot: bool, es: seq<Event<T>>, s: State<T>) {
    && s.oneShot == oneShot && s.hand == Held(es) && s.dropped == Dropped(es) && s.refs == Lookups(es)
    && (forall r: nat :: r in s.left <==> Returned(oneShot, es, r))
  }

  lemma RouterStep<T>(oneShot: bool, es: seq<Event<T>>, s: State<T>, t: State<T>)
    requires |es| > 0 && Step(s, es[|es| - 1]) == Some(t)
    requires RouterIs(oneShot, es[..|es| - 1], s) && MapIs(es[..|es| - 1], s)
    ensures RouterIs(oneShot, es, t)
  {
    var n := |es| - 1;
    assert es == es[..n] + [es[n]];
    match es[n] {
      case Resolve => assert KeyIs(es[..n], s, s.hand.p.key);
      case Acquire(key) => assert KeyIs(es[..n], s, key);
      case _ =>
    }
  }

  /** A step maps, unmaps or hands over for its own key only. */
  lemma KeyOnly<T>(s: State<T>, e: Event<T>, k: Key)
    requires Step(s, e).Some?
    ensures var t := Step(s, e).value;
            && (k in t.live <==> e == Mint(k) || (k in s.live && e != Delete(k)))
            && (k in t.slots <==> k in s.slots || e == Mint(k)) && (e == Mint(k) ==> k !in s.slots)
            && (k in t.slots ==>
                  t.slots[k] == if e == Mint(k) then Slot(Stream(s.dropped, k), [], [])
                                else if e.HandOver? && s.hand.p.key == k then Handed(s.slots[k], s.hand.p.body, e.ref)
                                else s.slots[k])
            && (e.HandOver? ==> s.hand.Holding? && s.hand.p.key in s.slots)
  {
  }

  lemma KeyStep<T>(oneShot: bool, es: seq<Event<T>>, s: State<T>, t: State<T>, k: Key)
    requires |es| > 0 && Step(s, es[|es| - 1]) == Some(t)
    requires RouterIs(oneShot, es[..|es| - 1], s) && KeyIs(es[..|es| - 1], s, k)
    ensures KeyIs(es, t, k)
  {
    var n := |es| - 1;
    assert es == es[..n] + [es[n]];
    KeyOnly(s, es[n], k);
  }

  /** The map, the channels, the look-ups and the router are what the events made them. */
  lemma {:induction false} StateIsHistory<T>(oneShot: bool, es: seq<Event<T>>, s: State<T>)
    requires Reached(oneShot, es, s)
    ensures s.consumed == Input(es) && RouterIs(oneShot, es, s) && MapIs(es, s)
  {
    ConsumedIsInput(Init(oneShot), es, s);
    if |es| > 0 {
      var n := |es| - 1;
      var t := RunLast(Step, Init(oneShot), es, s);
      StateIsHistory(oneShot, es[..n], t);
      RouterStep(oneShot, es, t, s);
      forall k ensures KeyIs(es, s, k) {
        assert KeyIs(es[..n], t, k);
        KeyStep(oneShot, es, t, s, k);
      }
    }
  }

  // ----- what can happen next -----

  /** What can happen after a history. */
  ghost predicate CanHappen<T>(oneShot: bool, es: seq<Event<T>>, e: Event<T>) {
    match e
    case Receive(_) => Held(es).Idle?
    case Resolve => Held(es).Received?
    case HandOver(r) =>
      && Held(es).Holding? && r < |Lookups(es)| && Lookups(es)[r] == Held(es).p.key && !Returned(oneShot, es, r)
    case Mint(key) => Mint(key) !in es
    case Acquire(key) => Mapped(es, key)
    case Leave(r) => r < |Lookups(es)|
    case Delete(_) => true
  }

  /** A step is possible exactly when the history allows it. */
  lemma HappensExactly<T(!new)>(oneShot: bool, es: seq<Event<T>>, s: State<T>, e: Event<T>)
    requires Reached(oneShot, es, s)
    ensures Step(s, e).Some? <==> CanHappen(oneShot, es, e)
  {
    StateIsHistory(oneShot, es, s);
    InvRun(oneShot, es);
    match e {
      case Mint(key) => assert KeyIs(es, s, key);
      case Acquire(key) => assert KeyIs(es, s, key);
      case _ =>
    }
  }

  ghost function Can<T>(oneShot: bool): (seq<Event<T>>, Event<T>) -> bool {
    (es, e) => CanHappen(oneShot, es, e)
  }

  /** The runs of such a router are exactly the schedules whose events could each happen then. */
  lemma RunsAreHistories<T(!new)>(oneShot: bool, es: seq<Event<T>>)
    ensures Run(Step, Init<T>(oneShot), es).Some? <==> Allowed(Can(oneShot), es)
  {
    forall fs: seq<Event<T>>, s, e | Reached(oneShot, fs, s) ensures Can<T>(oneShot)(fs, e) <==> Step(s, e).Some? {
      HappensExactly(oneShot, fs, s, e);
    }
    RunsAreAllowed(Can(oneShot), Step, Init(oneShot), es);
  }
}
