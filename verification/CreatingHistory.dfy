/**
  A router that makes missing mailboxes, as the history of a run. The functions here
  read the events only; the lemmas say that the state is exactly what they say, and that
  a step is possible exactly when the history allows it.
 */
module CreatingHistory {
  import opened Runs
  import opened Packets
  import opened CreatingRouter

  /** Where the router goroutine is: what it received, and the channel it found or made for it. */
  ghost function Held<T>(es: seq<Event<T>>): Hand<T>
    decreases |es|
  {
    if |es| == 0 then Idle
    else
      var n := |es| - 1;
      match es[n]
      case Receive(p) => Received(p)
      case Resolve =>
        (match Held(es[..n])
         case Received(p) => Holding(p, match Entry(es[..n], p.key) case Some(b) => b case None => |Made(es[..n])|)
         case h => h)
      case Send => Idle
      case _ => Held(es[..n])
  }

  /** The key that an event, the router's or a handler's get-or-create, makes a mailbox for if there is none, and
      whether it starts a clean-up. */
  function Wants<T>(hand: Hand<T>, e: Event<T>): Option<(Key, bool)> {
    if e.Ensure? then Some((e.key, e.timed))
    else if e.Resolve? && hand.Received? then Some((hand.p.key, true))
    else None
  }

  ghost function Wanted<T>(es: seq<Event<T>>): Option<(Key, bool)>
    requires |es| > 0
    decreases |es|, 0
  {
    Wants(Held(es[..|es| - 1]), es[|es| - 1])
  }

  /** The mailboxes made, in order: for which key, and whether with a clean-up. */
  ghost function Made<T>(es: seq<Event<T>>): seq<(Key, bool)>
    decreases |es|, 1
  {
    if |es| == 0 then []
    else
      var n := |es| - 1;
      match Wanted(es)
      case Some(w) => if Entry(es[..n], w.0).None? then Made(es[..n]) + [w] else Made(es[..n])
      case None => Made(es[..n])
  }

  /** The mailbox that the map has for `k`: made when there was none, unmapped by key. */
  ghost function Entry<T>(es: seq<Event<T>>, k: Key): Option<nat>
    decreases |es|, 1
  {
    if |es| == 0 then None
    else
      var n := |es| - 1;
      var before := Entry(es[..n], k);
      if es[n] == Delete(k) then None
      else if es[n].Fire? then
        if es[n].box < |Made(es[..n])| && Made(es[..n])[es[n].box].0 == k then None else before
      else match Wanted(es)
        case Some(w) => if w.0 == k && before.None? then Some(|Made(es[..n])|) else before
        case None => before
  }

  /** The handlers' look-ups that found a channel, in order, each with that channel. */
  ghost function Lookups<T>(es: seq<Event<T>>): seq<Reference> {
    if |es| == 0 then []
    else
      var n := |es| - 1;
      Lookups(es[..n]) +
      match es[n]
      case Acquire(key) => (match Entry(es[..n], key) case Some(b) => [Reference(key, b)] case None => [])
      case _ => []
  }

  /** What the router sent on channel `b`: the packets it held for it, in order. */
  ghost function SentOn<T>(es: seq<Event<T>>, b: nat): seq<T> {
    if |es| == 0 then []
    else
      var n := |es| - 1;
      SentOn(es[..n], b) +
      if es[n].Send? && Held(es[..n]).Holding? && Held(es[..n]).box == b then [Held(es[..n]).p.body] else []
  }

  /** The handlers that received from it, in order: those whose look-up found it. */
  ghost function TakersOf<T>(es: seq<Event<T>>, b: nat): seq<nat> {
    if |es| == 0 then []
    else
      var n := |es| - 1;
      TakersOf(es[..n], b) +
      match es[n]
      case Take(r) => if r < |Lookups(es[..n])| && Lookups(es[..n])[r].box == b then [r] else []
      case _ => []
  }

  ghost predicate Returned<T>(oneShot: bool, es: seq<Event<T>>, r: nat) {
    Leave(r) in es || (oneShot && Take(r) in es)
  }

  // ----- the state is that history -----

  ghost predicate Reached<T>(capacity: nat, oneShot: bool, es: seq<Event<T>>, s: State<T>) {
    Run(Step, Init(capacity, oneShot), es) == Some(s)
  }

  ghost predicate EntryIs<T>(es: seq<Event<T>>, live: map<Key, nat>, k: Key) {
    Entry(es, k) == if k in live then Some(live[k]) else None
  }

  ghost predicate MapIs<T>(es: seq<Event<T>>, s: State<T>) {
    && s.hand == Held(es) && |s.boxes| == |Made(es)|
    && (forall b | 0 <= b < |s.boxes| :: (s.boxes[b].key, s.boxes[b].timed) == Made(es)[b])
    && (forall k :: EntryIs(es, s.live, k))
  }

  /** The mailbox that the last event makes, if it makes one. */
  ghost function NewBox<T>(es: seq<Event<T>>): seq<(Key, bool)>
    requires |es| > 0
  {
    match Wanted(es) case Some(w) => if Entry(es[..|es| - 1], w.0).None? then [w] else [] case None => []
  }

  /** The channel that the router's locked section leaves with. */
  lemma ResolveHolds<T>(s: State<T>)
    requires s.hand.Received?
    ensures Step(s, Resolve).Some?
    ensures var key := s.hand.p.key;
            Step(s, Resolve).value.hand == Holding(s.hand.p, if key in s.live then s.live[key] else |s.boxes|)
  {
  }

  lemma HandStep<T>(es: seq<Event<T>>, s: State<T>, t: State<T>)
    requires |es| > 0 && MapIs(es[..|es| - 1], s) && Step(s, es[|es| - 1]) == Some(t)
    ensures t.hand == Held(es)
  {
    if es[|es| - 1].Resolve? {
      assert EntryIs(es[..|es| - 1], s.live, s.hand.p.key);
      ResolveHolds(s);
    } else {
      OthersKeepHand(s, es[|es| - 1]);
    }
  }

  lemma OthersKeepHand<T>(s: State<T>, e: Event<T>)
    requires !e.Resolve? && Step(s, e).Some?
    ensures Step(s, e).value.hand == match e case Receive(p) => Received(p) case Send => Idle case _ => s.hand
  {
  }

  lemma BoxesStep<T>(es: seq<Event<T>>, s: State<T>, t: State<T>)
    requires |es| > 0 && MapIs(es[..|es| - 1], s) && Step(s, es[|es| - 1]) == Some(t)
    ensures |t.boxes| == |s.boxes| + |NewBox(es)|
    ensures forall b | 0 <= b < |s.boxes| :: t.boxes[b].key == s.boxes[b].key && t.boxes[b].timed == s.boxes[b].timed
    ensures NewBox(es) != [] ==> (t.boxes[|s.boxes|].key, t.boxes[|s.boxes|].timed) == NewBox(es)[0]
  {
    if Wanted(es).Some? {
      assert EntryIs(es[..|es| - 1], s.live, Wanted(es).value.0);
    }
  }

  lemma EntryStep<T>(es: seq<Event<T>>, s: State<T>, t: State<T>, k: Key)
    requires |es| > 0 && MapIs(es[..|es| - 1], s) && Step(s, es[|es| - 1]) == Some(t)
    ensures EntryIs(es, t.live, k)
  {
    assert EntryIs(es[..|es| - 1], s.live, k);
    if Wanted(es).Some? && Wanted(es).value.0 == k {
      EntryMade(es, s, t);
    }
  }

  lemma EntryMade<T>(es: seq<Event<T>>, s: State<T>, t: State<T>)
    requires |es| > 0 && MapIs(es[..|es| - 1], s) && Step(s, es[|es| - 1]) == Some(t) && Wanted(es).Some?
    ensures EntryIs(es, t.live, Wanted(es).value.0)
  {
    var key := Wanted(es).value.0;
    assert EntryIs(es[..|es| - 1], s.live, key);
    MakesWanted(s, es[|es| - 1], Wanted(es));
    assert t.live == if key in s.live then s.live else s.live[key := |s.boxes|];
  }

  lemma MakesWanted<T>(s: State<T>, e: Event<T>, w: Option<(Key, bool)>)
    requires Step(s, e).Some? && w == Wants(s.hand, e) && w.Some?
    ensures Step(s, e).value.live == Ensured(s, w.value.0, w.value.1).live
    ensures Step(s, e).value.boxes == Ensured(s, w.value.0, w.value.1).boxes
  {
  }

  lemma MapStep<T>(es: seq<Event<T>>, s: State<T>, t: State<T>)
    requires |es| > 0 && MapIs(es[..|es| - 1], s) && Step(s, es[|es| - 1]) == Some(t)
    ensures MapIs(es, t)
  {
    HandStep(es, s, t);
    BoxesStep(es, s, t);
    assert Made(es) == Made(es[..|es| - 1]) + NewBox(es);
    forall k ensures EntryIs(es, t.live, k) {
      EntryStep(es, s, t, k);
    }
  }

  ghost predicate TimersAre<T>(es: seq<Event<T>>, s: State<T>) {
    && (forall b: nat :: b in s.timers <==> b < |Made(es)| && Made(es)[b].1 && Fire(b) !in es)
    && (forall b: nat | Fire(b) in es :: b < |Made(es)|)
  }

  /** A step adds a clean-up with the mailbox it makes, and removes the one that runs. */
  lemma TimersOnly<T>(es: seq<Event<T>>, s: State<T>, t: State<T>, b: nat)
    requires |es| > 0 && MapIs(es[..|es| - 1], s) && Step(s, es[|es| - 1]) == Some(t)
    ensures b in t.timers <==>
            || (b in s.timers && es[|es| - 1] != Fire(b))
            || (b == |s.boxes| && NewBox(es) != [] && NewBox(es)[0].1)
    ensures es[|es| - 1] == Fire(b) ==> b in s.timers
  {
    if Wanted(es).Some? {
      assert EntryIs(es[..|es| - 1], s.live, Wanted(es).value.0);
    }
  }

  lemma FiredBefore<T>(es: seq<Event<T>>, b: nat)
    requires |es| > 0
    ensures Fire(b) in es <==> Fire(b) in es[..|es| - 1] || es[|es| - 1] == Fire(b)
  {
    assert es == es[..|es| - 1] + [es[|es| - 1]];
  }

  lemma TimersStep<T>(es: seq<Event<T>>, s: State<T>, t: State<T>)
    requires |es| > 0 && MapIs(es[..|es| - 1], s) && TimersAre(es[..|es| - 1], s) && Step(s, es[|es| - 1]) == Some(t)
    ensures TimersAre(es, t)
  {
    var n := |es| - 1;
    assert Made(es) == Made(es[..n]) + NewBox(es);
    forall b: nat
      ensures b in t.timers <==> b < |Made(es)| && Made(es)[b].1 && Fire(b) !in es
      ensures Fire(b) in es ==> b < |Made(es)|
    {
      TimersOnly(es, s, t, b);
      FiredBefore(es, b);
    }
  }

  ghost predicate HandlersAre<T>(oneShot: bool, es: seq<Event<T>>, s: State<T>) {
    && s.oneShot == oneShot && s.refs == Lookups(es)
    && (forall r: nat :: r in s.left <==> Returned(oneShot, es, r))
  }

  /** A step adds the look-up it makes, and a handler that returns. */
  lemma HandlersOnly<T>(s: State<T>, e: Event<T>, r: nat)
    requires Step(s, e).Some?
    ensures var t := Step(s, e).value;
            && t.oneShot == s.oneShot
            && (e.Acquire? ==> e.key in s.live)
            && t.refs == s.refs + (if e.Acquire? then [Reference(e.key, s.live[e.key])] else [])
            && (r in t.left <==> r in s.left || e == Leave(r) || (s.oneShot && e == Take(r)))
  {
  }

  lemma HandlersStep<T>(oneShot: bool, es: seq<Event<T>>, s: State<T>, t: State<T>)
    requires |es| > 0 && Step(s, es[|es| - 1]) == Some(t)
    requires MapIs(es[..|es| - 1], s) && HandlersAre(oneShot, es[..|es| - 1], s)
    ensures HandlersAre(oneShot, es, t)
  {
    var n := |es| - 1;
    assert es == es[..n] + [es[n]];
    HandlersOnly(s, es[n], 0);
    if es[n].Acquire? {
      assert EntryIs(es[..n], s.live, es[n].key);
    }
    forall r: nat ensures r in t.left <==> Returned(oneShot, es, r) {
      HandlersOnly(s, es[n], r);
    }
  }

  ghost predicate BoxIs<T>(es: seq<Event<T>>, boxes: seq<Mailbox<T>>, b: nat) {
    if b < |boxes| then boxes[b].sent == SentOn(es, b) && boxes[b].takers == TakersOf(es, b)
    else SentOn(es, b) == [] && TakersOf(es, b) == []
  }

  /** What the last event sends on channel `b`, and who receives from it. */
  ghost function Sends<T>(s: State<T>, e: Event<T>, b: nat): seq<T> {
    if e.Send? && s.hand.Holding? && s.hand.box == b then [s.hand.p.body] else []
  }

  ghost function Takes<T>(s: State<T>, e: Event<T>, b: nat): seq<nat> {
    if e.Take? && e.ref < |s.refs| && s.refs[e.ref].box == b then [e.ref] else []
  }

  lemma MailOnly<T>(s: State<T>, e: Event<T>, b: nat)
    requires Step(s, e).Some?
    ensures var t := Step(s, e).value;
            if b < |s.boxes| then
              && b < |t.boxes| && t.boxes[b].sent == s.boxes[b].sent + Sends(s, e, b)
              && t.boxes[b].takers == s.boxes[b].takers + Takes(s, e, b)
            else
              && Sends(s, e, b) == [] && Takes(s, e, b) == []
              && (b < |t.boxes| ==> t.boxes[b].sent == [] && t.boxes[b].takers == [])
  {
  }

  lemma MailStep<T>(es: seq<Event<T>>, s: State<T>, t: State<T>, b: nat)
    requires |es| > 0 && Step(s, es[|es| - 1]) == Some(t)
    requires s.hand == Held(es[..|es| - 1]) && s.refs == Lookups(es[..|es| - 1])
    requires BoxIs(es[..|es| - 1], s.boxes, b)
    ensures BoxIs(es, t.boxes, b)
  {
    MailOnly(s, es[|es| - 1], b);
  }

  ghost predicate MailIs<T>(es: seq<Event<T>>, s: State<T>) {
    forall b: nat :: BoxIs(es, s.boxes, b)
  }

  /** The maps, the channels, the look-ups and the router are what the events made them. */
  lemma {:induction false} StateIsHistory<T>(capacity: nat, oneShot: bool, es: seq<Event<T>>, s: State<T>)
    requires Reached(capacity, oneShot, es, s)
    ensures s.capacity == capacity && s.consumed == Input(es)
    ensures MapIs(es, s) && TimersAre(es, s) && HandlersAre(oneShot, es, s) && MailIs(es, s)
  {
    ConsumedIsInput(Init(capacity, oneShot), es, s);
    if |es| > 0 {
      var n := |es| - 1;
      var t := RunLast(Step, Init(capacity, oneShot), es, s);
      StateIsHistory(capacity, oneShot, es[..n], t);
      MapStep(es, t, s);
      TimersStep(es, t, s);
      HandlersStep(oneShot, es, t, s);
      forall b: nat ensures BoxIs(es, s.boxes, b) {
        assert BoxIs(es[..n], t.boxes, b);
        MailStep(es, t, s, b);
      }
    }
  }

  // ----- what can happen next -----

  /** What can happen after a history. */
  ghost predicate CanHappen<T>(capacity: nat, oneShot: bool, es: seq<Event<T>>, e: Event<T>) {
    match e
    case Receive(_) => Held(es).Idle?
    case Resolve => Held(es).Received?
    case Send =>
      Held(es).Holding? && |SentOn(es, Held(es).box)| < |TakersOf(es, Held(es).box)| + capacity
    case Ensure(_, _) => true
    case Acquire(key) => Entry(es, key).Some?
    case Take(r) =>
      && r < |Lookups(es)| && !Returned(oneShot, es, r)
      && |TakersOf(es, Lookups(es)[r].box)| < |SentOn(es, Lookups(es)[r].box)|
    case Leave(r) => r < |Lookups(es)|
    case Delete(_) => true
    case Fire(b) => b < |Made(es)| && Made(es)[b].1 && Fire(b) !in es
  }

  /** A step is possible exactly when the history allows it. */
  lemma HappensExactly<T(!new)>(capacity: nat, oneShot: bool, es: seq<Event<T>>, s: State<T>, e: Event<T>)
    requires Reached(capacity, oneShot, es, s)
    ensures Step(s, e).Some? <==> CanHappen(capacity, oneShot, es, e)
  {
    StateIsHistory(capacity, oneShot, es, s);
    InvRun(capacity, oneShot, es);
    match e {
      case Send => if s.hand.Holding? { assert BoxIs(es, s.boxes, s.hand.box); }
      case Acquire(key) => assert EntryIs(es, s.live, key);
      case Take(r) => if r < |s.refs| { assert BoxIs(es, s.boxes, s.refs[r].box); }
      case _ =>
    }
  }

  ghost function Can<T>(capacity: nat, oneShot: bool): (seq<Event<T>>, Event<T>) -> bool {
    (es, e) => CanHappen(capacity, oneShot, es, e)
  }

  /** The runs of such a router are exactly the schedules whose events could each happen then. */
  lemma RunsAreHistories<T(!new)>(capacity: nat, oneShot: bool, es: seq<Event<T>>)
    ensures Run(Step, Init<T>(capacity, oneShot), es).Some? <==> Allowed(Can(capacity, oneShot), es)
  {
    forall fs: seq<Event<T>>, s, e | Reached(capacity, oneShot, fs, s)
      ensures Can<T>(capacity, oneShot)(fs, e) <==> Step(s, e).Some?
    {
      HappensExactly(capacity, oneShot, fs, s, e);
    }
    RunsAreAllowed(Can(capacity, oneShot), Step, Init(capacity, oneShot), es);
  }
}
