/**
  The router shape that makes a missing mailbox: `offerRouter` over
  `hostID2waitingCh`, and the answerer's `iceCandidateRouter` over its
  `AnsID2iceToAnsChan`. The lock protects the map only: a reference found under
  the lock is used after the lock is released, while timers and deferred
  clean-ups delete entries by key.
 */
module CreatingRouter {
  import opened Runs
  import opened Packets

  /** A channel made for `key`: everything ever sent on it and, for each value
      received so far, the handler that received it. */
  datatype Mailbox<T> = Mailbox(key: Key, timed: bool, sent: seq<T>, takers: seq<nat>)

  /** A handler's local copy of a map entry. */
  datatype Reference = Reference(key: Key, box: nat)

  /** Where the router goroutine is in its loop. */
  datatype Hand<T> =
    | Idle
    | Received(p: Packet<T>)
    | Holding(p: Packet<T>, box: nat)

  datatype State<T> = State(
    capacity: nat,               // of each mailbox: 1 for offers, 1024 for candidates
    oneShot: bool,               // a handler returns with its first value, as WaitForOffer does
    consumed: seq<Packet<T>>,    // everything the router has received
    boxes: seq<Mailbox<T>>,      // every mailbox ever made, in creation order
    live: map<Key, nat>,         // the guarded map
    timers: set<nat>,            // mailboxes whose creator's clean-up has not fired yet
    refs: seq<Reference>,        // look-ups made by handlers
    left: set<nat>,              // the handlers among them that have returned
    hand: Hand<T>)

  datatype Event<T> =
    | Receive(p: Packet<T>)           // the router receives from its input
    | Resolve                         // the router's locked section
    | Send                            // ch <- packet
    | Ensure(key: Key, timed: bool)   // a handler's locked get-or-create
    | Acquire(key: Key)               // a handler's locked look-up
    | Take(ref: nat)                  // a handler receives from the channel it looked up
    | Leave(ref: nat)                 // a handler returns
    | Delete(key: Key)                // a handler's deferred clean-up
    | Fire(box: nat)                  // the timer started when `box` was made

  function Init<T>(capacity: nat, oneShot: bool): State<T> {
    State(capacity, oneShot, [], [], map[], {}, [], {}, Idle)
  }

  predicate HasRoom<T>(m: Mailbox<T>, capacity: nat) {
    |m.sent| < |m.takers| + capacity
  }

  /** Get-or-create under the lock. */
  function Ensured<T>(s: State<T>, key: Key, timed: bool): State<T> {
    if key in s.live then s
    else s.(boxes := s.boxes + [Mailbox(key, timed, [], [])],
            live := s.live[key := |s.boxes|],
            timers := if timed then s.timers + {|s.boxes|} else s.timers)
  }

  function Left<T>(s: State<T>, handler: nat): State<T> {
    s.(left := s.left + {handler})
  }

  function Step<T>(s: State<T>, e: Event<T>): Option<State<T>> {
    match e
    case Receive(p) =>
      if s.hand.Idle? then Some(s.(consumed := s.consumed + [p], hand := Received(p))) else None
    case Resolve =>
      if s.hand.Received? then
        var t := Ensured(s, s.hand.p.key, true);
        Some(t.(hand := Holding(s.hand.p, t.live[s.hand.p.key])))
      else None
    case Send =>
      if s.hand.Holding? && s.hand.box < |s.boxes| && HasRoom(s.boxes[s.hand.box], s.capacity) then
        Some(s.(boxes := Appended(s.boxes, s.hand.box, s.hand.p.body), hand := Idle))
      else None
    case Ensure(key, timed) => Some(Ensured(s, key, timed))
    case Acquire(key) =>
      if key in s.live then Some(s.(refs := s.refs + [Reference(key, s.live[key])])) else None
    case Take(r) =>
      if r < |s.refs| && r !in s.left && s.refs[r].box < |s.boxes|
         && |s.boxes[s.refs[r].box].takers| < |s.boxes[s.refs[r].box].sent|
      then
        Some((if s.oneShot then Left(s, r) else s).(boxes := TakenBy(s.boxes, s.refs[r].box, r)))
      else None
    case Leave(r) => if r < |s.refs| then Some(Left(s, r)) else None
    case Delete(key) => Some(s.(live := s.live - {key}))
    case Fire(b) =>
      if b in s.timers && b < |s.boxes| then
        Some(s.(timers := s.timers - {b}, live := s.live - {s.boxes[b].key}))
      else None
  }

  function Appended<T>(boxes: seq<Mailbox<T>>, b: nat, v: T): seq<Mailbox<T>>
    requires b < |boxes|
  {
    boxes[b := boxes[b].(sent := boxes[b].sent + [v])]
  }

  function TakenBy<T>(boxes: seq<Mailbox<T>>, b: nat, handler: nat): seq<Mailbox<T>>
    requires b < |boxes|
  {
    boxes[b := boxes[b].(takers := boxes[b].takers + [handler])]
  }

  /** The send-histories of all channels made for `k`, concatenated in creation order. */
  function History<T>(boxes: seq<Mailbox<T>>, k: Key): seq<T> {
    if |boxes| == 0 then []
    else
      var last := boxes[|boxes| - 1];
      History(boxes[..|boxes| - 1], k) + (if last.key == k then last.sent else [])
  }

  function InHand<T>(h: Hand<T>, k: Key): seq<T> {
    if h.Idle? || h.p.key != k then [] else [h.p.body]
  }

  // ----- the invariant -----

  /** The map's entry for a key is the youngest mailbox of that key. */
  ghost predicate LiveIsYoungest<T>(s: State<T>) {
    forall k | k in s.live ::
      && s.live[k] < |s.boxes|
      && s.boxes[s.live[k]].key == k
      && forall b | s.live[k] < b < |s.boxes| :: s.boxes[b].key != k
  }

  /** The reference in the router's hand may be stale, but nothing younger for its key has been written. */
  ghost predicate HandIsLastWritten<T>(s: State<T>) {
    s.hand.Holding? ==>
      && s.hand.box < |s.boxes|
      && s.boxes[s.hand.box].key == s.hand.p.key
      && forall b | s.hand.box < b < |s.boxes| && s.boxes[b].key == s.hand.p.key :: s.boxes[b].sent == []
  }

  ghost predicate InOrder<T>(s: State<T>) {
    forall k :: History(s.boxes, k) + InHand(s.hand, k) == Stream(s.consumed, k)
  }

  ghost predicate WithinCapacity<T>(s: State<T>) {
    forall b | 0 <= b < |s.boxes| ::
      |s.boxes[b].takers| <= |s.boxes[b].sent| <= |s.boxes[b].takers| + s.capacity
  }

  ghost predicate RefsMatch<T>(s: State<T>) {
    && (forall r | 0 <= r < |s.refs| :: s.refs[r].box < |s.boxes| && s.boxes[s.refs[r].box].key == s.refs[r].key)
    && (forall r | r in s.left :: r < |s.refs|)
    && (forall b, i | 0 <= b < |s.boxes| && 0 <= i < |s.boxes[b].takers| ::
          s.boxes[b].takers[i] < |s.refs| && s.refs[s.boxes[b].takers[i]].box == b)
  }

  /** A one-shot handler receives once: it has returned, and its name occurs once. */
  ghost predicate TakersLeft<T>(s: State<T>) {
    s.oneShot ==> forall b | 0 <= b < |s.boxes| ::
      && NoDup(s.boxes[b].takers)
      && forall i | 0 <= i < |s.boxes[b].takers| :: s.boxes[b].takers[i] in s.left
  }

  /** An entry made with a clean-up still has exactly that clean-up pending. */
  ghost predicate TimersPending<T>(s: State<T>) {
    && (forall b | b in s.timers :: b < |s.boxes| && s.boxes[b].timed)
    && (forall k | k in s.live :: s.live[k] < |s.boxes| && (s.boxes[s.live[k]].timed ==> s.live[k] in s.timers))
  }

  /** All mailboxes were made with a clean-up. */
  ghost predicate AllTimed<T>(boxes: seq<Mailbox<T>>) {
    forall b | 0 <= b < |boxes| :: boxes[b].timed
  }

  ghost predicate Inv<T>(s: State<T>) {
    && LiveIsYoungest(s) && HandIsLastWritten(s) && InOrder(s)
    && WithinCapacity(s) && RefsMatch(s) && TakersLeft(s) && TimersPending(s)
  }

  // ----- histories -----

  lemma HistoryNewBox<T>(boxes: seq<Mailbox<T>>, m: Mailbox<T>, k: Key)
    requires m.sent == []
    ensures History(boxes + [m], k) == History(boxes, k)
  {
    assert (boxes + [m])[..|boxes|] == boxes;
  }

  /** Receiving does not change what was sent. */
  lemma {:induction false} HistoryTakenBy<T>(boxes: seq<Mailbox<T>>, b: nat, handler: nat, k: Key)
    requires b < |boxes|
    ensures History(TakenBy(boxes, b, handler), k) == History(boxes, k)
  {
    var n := |boxes| - 1;
    var boxes' := TakenBy(boxes, b, handler);
    if b == n {
      assert boxes'[..n] == boxes[..n];
    } else {
      assert boxes'[..n] == TakenBy(boxes[..n], b, handler);
      HistoryTakenBy(boxes[..n], b, handler, k);
    }
  }

  /** With nothing written in younger mailboxes of the key, a send extends the key's history at its end. */
  lemma {:induction false} HistorySend<T>(boxes: seq<Mailbox<T>>, b: nat, v: T, k: Key)
    requires b < |boxes|
    requires forall c | b < c < |boxes| && boxes[c].key == boxes[b].key :: boxes[c].sent == []
    ensures History(Appended(boxes, b, v), k) == History(boxes, k) + (if boxes[b].key == k then [v] else [])
  {
    var n := |boxes| - 1;
    var boxes' := Appended(boxes, b, v);
    if b == n {
      assert boxes'[..n] == boxes[..n];
    } else {
      assert boxes'[..n] == Appended(boxes[..n], b, v);
      HistorySend(boxes[..n], b, v, k);
    }
  }

  /** Whatever lies in a mailbox of `k` is in the history of `k`. */
  lemma {:induction false} HistoryMember<T>(boxes: seq<Mailbox<T>>, b: nat, i: nat)
    requires b < |boxes| && i < |boxes[b].sent|
    ensures boxes[b].sent[i] in History(boxes, boxes[b].key)
  {
    var n := |boxes| - 1;
    if b < n {
      HistoryMember(boxes[..n], b, i);
    }
  }

  // ----- every step keeps the invariant -----

  lemma InvInit<T>(capacity: nat, oneShot: bool)
    ensures Inv(Init<T>(capacity, oneShot))
  {
  }

  lemma EnsuredKeepsOrder<T>(s: State<T>, key: Key, timed: bool)
    requires InOrder(s) && HandIsLastWritten(s)
    ensures InOrder(Ensured(s, key, timed)) && HandIsLastWritten(Ensured(s, key, timed))
  {
    var s' := Ensured(s, key, timed);
    forall k ensures History(s'.boxes, k) + InHand(s'.hand, k) == Stream(s'.consumed, k) {
      assert History(s.boxes, k) + InHand(s.hand, k) == Stream(s.consumed, k);
      HistoryNewBox(s.boxes, Mailbox(key, timed, [], []), k);
    }
  }

  lemma EnsuredKeepsMap<T>(s: State<T>, key: Key, timed: bool)
    requires LiveIsYoungest(s) && TimersPending(s)
    ensures LiveIsYoungest(Ensured(s, key, timed)) && TimersPending(Ensured(s, key, timed))
  {
  }

  lemma InvEnsured<T>(s: State<T>, key: Key, timed: bool)
    requires Inv(s)
    ensures Inv(Ensured(s, key, timed))
  {
    EnsuredKeepsOrder(s, key, timed);
    EnsuredKeepsMap(s, key, timed);
  }

  /** Where all mailboxes have clean-ups, the entry just ensured has one pending. */
  lemma EnsuredHasTimer<T>(s: State<T>, key: Key)
    requires TimersPending(s) && AllTimed(s.boxes)
    ensures var t := Ensured(s, key, true); AllTimed(t.boxes) && key in t.live && t.live[key] in t.timers
  {
  }

  lemma InvReceive<T>(s: State<T>, p: Packet<T>)
    requires Inv(s) && s.hand.Idle?
    ensures Inv(Step(s, Receive(p)).value)
  {
    forall k ensures Stream(s.consumed + [p], k) == Stream(s.consumed, k) + InHand(Received(p), k) {
      StreamAppend(s.consumed, p, k);
    }
  }

  lemma InvSend<T>(s: State<T>)
    requires Inv(s) && Step(s, Send).Some?
    ensures Inv(Step(s, Send).value)
  {
    var s' := Step(s, Send).value;
    forall k ensures History(s'.boxes, k) + InHand(s'.hand, k) == Stream(s'.consumed, k) {
      HistorySend(s.boxes, s.hand.box, s.hand.p.body, k);
    }
  }

  lemma InvTake<T>(s: State<T>, r: nat)
    requires Inv(s) && Step(s, Take(r)).Some?
    ensures Inv(Step(s, Take(r)).value)
  {
    var s' := Step(s, Take(r)).value;
    assert TakersLeft(s');
    assert InOrder(s') by {
      forall k ensures History(s'.boxes, k) == History(s.boxes, k) {
        HistoryTakenBy(s.boxes, s.refs[r].box, r, k);
      }
    }
  }

  /** Leaving the locked section with the entry found there. */
  lemma InvHold<T>(s: State<T>)
    requires Inv(s) && s.hand.Received? && s.hand.p.key in s.live
    ensures Inv(s.(hand := Holding(s.hand.p, s.live[s.hand.p.key])))
  {
    var s' := s.(hand := Holding(s.hand.p, s.live[s.hand.p.key]));
    forall k ensures InHand(s'.hand, k) == InHand(s.hand, k) { }
    assert InOrder(s');
  }

  lemma InvResolve<T>(s: State<T>)
    requires Inv(s) && s.hand.Received?
    ensures Inv(Step(s, Resolve).value)
  {
    InvEnsured(s, s.hand.p.key, true);
    InvHold(Ensured(s, s.hand.p.key, true));
  }

  lemma InvLeave<T>(s: State<T>, r: nat)
    requires Inv(s) && r < |s.refs|
    ensures Inv(Left(s, r))
  {
  }

  lemma InvDelete<T>(s: State<T>, key: Key)
    requires Inv(s)
    ensures Inv(Step(s, Delete(key)).value)
  {
  }

  lemma InvFire<T>(s: State<T>, b: nat)
    requires Inv(s) && Step(s, Fire(b)).Some?
    ensures Inv(Step(s, Fire(b)).value)
  {
  }

  lemma InvAcquire<T>(s: State<T>, key: Key)
    requires Inv(s) && key in s.live
    ensures Inv(Step(s, Acquire(key)).value)
  {
  }

  lemma InvStep<T>(s: State<T>, e: Event<T>)
    requires Inv(s) && Step(s, e).Some?
    ensures Inv(Step(s, e).value)
  {
    match e {
      case Receive(p) => InvReceive(s, p);
      case Resolve => InvResolve(s);
      case Send => InvSend(s);
      case Ensure(key, timed) => InvEnsured(s, key, timed);
      case Acquire(key) => InvAcquire(s, key);
      case Take(r) => InvTake(s, r);
      case Leave(r) => InvLeave(s, r);
      case Delete(key) => InvDelete(s, key);
      case Fire(b) => InvFire(s, b);
    }
  }

  lemma InvRun<T(!new)>(capacity: nat, oneShot: bool, es: seq<Event<T>>)
    requires Run(Step, Init<T>(capacity, oneShot), es).Some?
    ensures Inv(Run(Step, Init<T>(capacity, oneShot), es).value)
  {
    InvInit<T>(capacity, oneShot);
    var inv := (s: State<T>) => Inv(s);
    forall s: State<T>, e: Event<T> | inv(s) && Step(s, e).Some? ensures inv(Step(s, e).value) {
      InvStep(s, e);
    }
    RunKeeps(Step, inv, Init<T>(capacity, oneShot), es);
  }

  /** Channels and look-ups are only added, and channel histories only grow. */
  ghost predicate Extends<T>(s: State<T>, t: State<T>) {
    && s.consumed <= t.consumed && s.refs <= t.refs && |s.boxes| <= |t.boxes|
    && forall b | 0 <= b < |s.boxes| ::
         && t.boxes[b].key == s.boxes[b].key
         && s.boxes[b].sent <= t.boxes[b].sent
         && s.boxes[b].takers <= t.boxes[b].takers
  }

  lemma StepExtends<T>(s: State<T>, e: Event<T>)
    requires Step(s, e).Some?
    ensures Extends(s, Step(s, e).value)
  {
  }

  // ----- theorems about all runs -----

  /** Everything the router was given, in order. */
  function Input<T>(es: seq<Event<T>>): seq<Packet<T>> {
    if |es| == 0 then []
    else
      var n := |es| - 1;
      Input(es[..n]) + (if es[n].Receive? then [es[n].p] else [])
  }

  lemma {:induction false} ConsumedIsInput<T>(s: State<T>, es: seq<Event<T>>, t: State<T>)
    requires Run(Step, s, es) == Some(t)
    ensures t.consumed == s.consumed + Input(es)
  {
    if |es| > 0 {
      var u := RunLast(Step, s, es, t);
      ConsumedIsInput(s, es[..|es| - 1], u);
    }
  }

  /** Order survives re-creation: whatever timers, deferred deletes and waiters do between look-up and
      send, the histories of all channels ever made for a key, oldest first, are the router's input for
      that key, short of at most the packet in the router's hand. */
  lemma OrderAcrossIncarnations<T(!new)>(capacity: nat, oneShot: bool, es: seq<Event<T>>, s: State<T>, k: Key)
    requires Run(Step, Init<T>(capacity, oneShot), es) == Some(s)
    ensures History(s.boxes, k) + InHand(s.hand, k) == Stream(Input(es), k)
  {
    InvRun(capacity, oneShot, es);
    ConsumedIsInput(Init(capacity, oneShot), es, s);
    assert s.consumed == Input(es);
  }

  /** A value reaches only a handler that asked for the key it was sent to, through whichever channel
      that handler still holds. */
  lemma StaleReferencesAreIsolated<T(!new)>(s: State<T>, b: nat, i: nat)
    requires Inv(s)
    requires b < |s.boxes| && i < |s.boxes[b].takers|
    ensures i < |s.boxes[b].sent|
    ensures s.boxes[b].takers[i] < |s.refs|
    ensures s.refs[s.boxes[b].takers[i]] == Reference(s.boxes[b].key, b)
    ensures Packet(s.boxes[b].key, s.boxes[b].sent[i]) in s.consumed
  {
    var k := s.boxes[b].key;
    HistoryMember(s.boxes, b, i);
    assert History(s.boxes, k) + InHand(s.hand, k) == Stream(s.consumed, k);
    StreamMembers(s.consumed, k, s.boxes[b].sent[i]);
  }

  /** Entries made with a clean-up never outlive it: they are no more than the clean-ups still pending,
      although older clean-ups and deferred deletes may have removed them and others made them again. */
  lemma EntriesNeedTimers<T>(s: State<T>)
    requires Inv(s)
    requires AllTimed(s.boxes)
    ensures |s.live| <= |s.timers|
    ensures s.timers == {} ==> s.live == map[]
  {
    var used := set k | k in s.live :: s.live[k];
    InjectiveImage(s.live, used);
    SubsetSize(used, s.timers);
  }

  /** A map with distinct values has as many keys as values. */
  lemma {:induction false} InjectiveImage(m: map<Key, nat>, image: set<nat>)
    requires image == set k | k in m :: m[k]
    requires forall k, l | k in m && l in m && m[k] == m[l] :: k == l
    ensures |m| == |image|
    decreases |m|
  {
    if |m| > 0 {
      var k :| k in m;
      var rest := m - {k};
      forall l | l in m && l != k ensures m[l] != m[k] && l in rest && rest[l] == m[l] { }
      assert image - {m[k]} == set l | l in rest :: rest[l];
      InjectiveImage(rest, image - {m[k]});
    } else {
      assert image == {};
    }
  }

  lemma {:induction false} SubsetSize(a: set<nat>, b: set<nat>)
    requires a <= b
    ensures |a| <= |b|
    decreases |a|
  {
    if a != {} {
      var x :| x in a;
      SubsetSize(a - {x}, b - {x});
    }
  }

  /** Nothing is duplicated: if no packet for `k` repeats, no two positions in any of its channels agree. */
  lemma {:induction false} DistinctPositions<T>(boxes: seq<Mailbox<T>>, b: nat, i: nat, c: nat, j: nat)
    requires b < |boxes| && i < |boxes[b].sent| && c < |boxes| && j < |boxes[c].sent|
    requires boxes[b].key == boxes[c].key && NoDup(History(boxes, boxes[b].key))
    requires boxes[b].sent[i] == boxes[c].sent[j]
    ensures b == c && i == j
  {
    var n := |boxes| - 1;
    var older := History(boxes[..n], boxes[b].key);
    var all := History(boxes, boxes[b].key);
    assert forall x | 0 <= x < |older| :: all[x] == older[x];
    forall y | boxes[n].key == boxes[b].key && 0 <= y < |boxes[n].sent| ensures boxes[n].sent[y] !in older {
      assert all[|older| + y] == boxes[n].sent[y];
    }
    if b < n && c < n {
      DistinctPositions(boxes[..n], b, i, c, j);
    } else if b < n {
      HistoryMember(boxes[..n], b, i);
      assert false;
    } else if c < n {
      HistoryMember(boxes[..n], c, j);
      assert false;
    } else {
      assert all[|older| + i] == boxes[b].sent[i] && all[|older| + j] == boxes[b].sent[j];
    }
  }

  // ----- conservation -----

  /** Where a sent packet can be: with a handler, in the mapped channel, or in one no longer mapped. */
  datatype Place = Delivered | Mapped | Orphaned

  ghost function CopiesIn<T>(m: Mailbox<T>, mapped: bool, v: T, place: Place): nat {
    if |m.takers| > |m.sent| then 0
    else match place
      case Delivered => multiset(m.sent[..|m.takers|])[v]
      case Mapped => if mapped then multiset(m.sent[|m.takers|..])[v] else 0
      case Orphaned => if mapped then 0 else multiset(m.sent[|m.takers|..])[v]
  }

  /** How many copies of `v` addressed to `k` are at `place`. */
  ghost function Copies<T>(boxes: seq<Mailbox<T>>, live: map<Key, nat>, k: Key, v: T, place: Place): nat {
    if |boxes| == 0 then 0
    else
      var n := |boxes| - 1;
      Copies(boxes[..n], live, k, v, place) +
      (if boxes[n].key == k then CopiesIn(boxes[n], k in live && live[k] == n, v, place) else 0)
  }

  lemma MailboxCensus<T>(m: Mailbox<T>, mapped: bool, v: T)
    requires |m.takers| <= |m.sent|
    ensures multiset(m.sent)[v] == CopiesIn(m, mapped, v, Delivered) + CopiesIn(m, mapped, v, Mapped) +
            CopiesIn(m, mapped, v, Orphaned)
  {
    assert m.sent == m.sent[..|m.takers|] + m.sent[|m.takers|..];
  }

  lemma {:induction false} HistoryCensus<T>(boxes: seq<Mailbox<T>>, live: map<Key, nat>, k: Key, v: T)
    requires forall b | 0 <= b < |boxes| :: |boxes[b].takers| <= |boxes[b].sent|
    ensures multiset(History(boxes, k))[v] ==
            Copies(boxes, live, k, v, Delivered) + Copies(boxes, live, k, v, Mapped) +
            Copies(boxes, live, k, v, Orphaned)
  {
    if |boxes| > 0 {
      var n := |boxes| - 1;
      var m := boxes[n];
      HistoryCensus(boxes[..n], live, k, v);
      MailboxCensus(m, k in live && live[k] == n, v);
    }
  }

  /** Every packet the router received is in exactly one place, and no mailbox holds more than its capacity. */
  lemma Conservation<T>(s: State<T>, k: Key, v: T)
    requires Inv(s)
    ensures multiset(Stream(s.consumed, k))[v] ==
            Copies(s.boxes, s.live, k, v, Delivered) + Copies(s.boxes, s.live, k, v, Mapped) +
            Copies(s.boxes, s.live, k, v, Orphaned) + multiset(InHand(s.hand, k))[v]
    ensures forall b | 0 <= b < |s.boxes| :: 0 <= |s.boxes[b].sent| - |s.boxes[b].takers| <= s.capacity
  {
    HistoryCensus(s.boxes, s.live, k, v);
    assert History(s.boxes, k) + InHand(s.hand, k) == Stream(s.consumed, k);
  }

  // ----- what the router does for a waiter, and what a timer may do to it -----

  /** The entry that a clean-up removes although another clean-up, or none, was started for it. */
  ghost predicate HitsYounger<T>(s: State<T>, b: nat, k: Key)
    requires b < |s.boxes|
  {
    k == s.boxes[b].key && k in s.live && s.live[k] != b
  }

  /** A clean-up knows its key, not its mailbox. It removes an entry that is not its own if and only if its
      key is mapped to another mailbox, which is then a younger one; that one's own clean-up, if it has
      one, stays pending. No other key is touched. */
  lemma FireHitsYounger<T>(s: State<T>, b: nat, k: Key)
    requires Inv(s) && b in s.timers
    ensures b < |s.boxes| && Step(s, Fire(b)).Some?
    ensures var t := Step(s, Fire(b)).value;
            && (k in s.live && k !in t.live && s.live[k] != b <==> HitsYounger(s, b, k))
            && (HitsYounger(s, b, k) ==> b < s.live[k] && (s.boxes[s.live[k]].timed <==> s.live[k] in t.timers))
            && (k != s.boxes[b].key ==> (k in t.live <==> k in s.live) && (k in t.live ==> t.live[k] == s.live[k]))
  {
  }

  /** It does happen: an older clean-up outlives the mailbox it was started for. */
  lemma OldTimerUnmapsYounger<T>(capacity: nat, oneShot: bool, key: Key) returns (es: seq<Event<T>>, s: State<T>)
    ensures Run(Step, Init<T>(capacity, oneShot), es) == Some(s)
    ensures 0 in s.timers && |s.boxes| == 2 && HitsYounger(s, 0, key)
  {
    es, s := [], Init<T>(capacity, oneShot);
    es, s := Extend(Step, Init(capacity, oneShot), es, s, Ensure(key, true));
    es, s := Extend(Step, Init(capacity, oneShot), es, s, Delete(key));
    es, s := Extend(Step, Init(capacity, oneShot), es, s, Ensure(key, true));
  }

  // ----- what one handler gets -----

  /** The values that handler `h` has received through the channel it looked up. */
  ghost function ReceivedBy<T>(s: State<T>, h: nat): seq<T>
    requires h < |s.refs| && s.refs[h].box < |s.boxes|
    requires |s.boxes[s.refs[h].box].takers| <= |s.boxes[s.refs[h].box].sent|
  {
    Served(s.boxes[s.refs[h].box].sent, s.boxes[s.refs[h].box].takers, h)
  }

  /** The position of a new handler: nobody has received in its name. */
  lemma ReceivedNothing<T>(s: State<T>, key: Key)
    requires Inv(s) && Step(s, Acquire(key)).Some?
    ensures var t := Step(s, Acquire(key)).value; Inv(t) && ReceivedBy(t, |s.refs|) == []
  {
    InvAcquire(s, key);
    ServedNothing(s.boxes[s.live[key]].sent, s.boxes[s.live[key]].takers, |s.refs|);
  }

  /** Only its own receives give it anything, and each gives it the oldest value not yet received. */
  lemma ReceivedStep<T>(s: State<T>, e: Event<T>, h: nat)
    requires Inv(s) && h < |s.refs| && Step(s, e).Some?
    ensures var t, b := Step(s, e).value, s.refs[h].box;
            && Inv(t) && h < |t.refs| && t.refs[h] == s.refs[h]
            && (e == Take(h) ==> |s.boxes[b].takers| < |s.boxes[b].sent|)
            && ReceivedBy(t, h) ==
               ReceivedBy(s, h) + (if e == Take(h) then [s.boxes[b].sent[|s.boxes[b].takers|]] else [])
  {
    InvStep(s, e);
    StepExtends(s, e);
    var t, b := Step(s, e).value, s.refs[h].box;
    ServedStays(s.boxes[b].sent, t.boxes[b].sent, s.boxes[b].takers, h);
    if e.Take? && s.refs[e.ref].box == b {
      ServedTake(s.boxes[b].sent, s.boxes[b].takers, e.ref, h);
    }
  }

  /** A one-shot handler receives at most one value, and none after it has returned. */
  lemma ReceivedOnce<T>(s: State<T>, h: nat)
    requires Inv(s) && s.oneShot && h < |s.refs|
    ensures |ReceivedBy(s, h)| <= 1
    ensures h !in s.left ==> ReceivedBy(s, h) == []
  {
    var b := s.refs[h].box;
    ServedOnce(s.boxes[b].sent, s.boxes[b].takers, h);
    if h !in s.left {
      ServedNothing(s.boxes[b].sent, s.boxes[b].takers, h);
    }
  }

  /** The handler has the same channel, has received the same values, and has not returned in between. */
  ghost predicate SameHandler<T>(s: State<T>, t: State<T>, h: nat)
    requires Inv(s) && Inv(t) && h < |s.refs|
  {
    h < |t.refs| && t.refs[h] == s.refs[h] && ReceivedBy(t, h) == ReceivedBy(s, h) && (h in t.left <==> h in s.left)
  }

  /** While others run, a handler keeps its channel, and what it has received does not change. */
  lemma {:induction false} ReceivedKept<T>(s: State<T>, es: seq<Event<T>>, t: State<T>, h: nat)
    requires Inv(s) && h < |s.refs| && Run(Step, s, es) == Some(t)
    requires forall i | 0 <= i < |es| :: es[i] != Take(h) && es[i] != Leave(h)
    ensures Inv(t) && SameHandler(s, t, h)
    decreases |es|
  {
    if |es| > 0 {
      ReceivedStep(s, es[0], h);
      StepKeepsHandler(s, es[0], h);
      ReceivedKept(Step(s, es[0]).value, es[1..], t, h);
    }
  }

  lemma StepKeepsHandler<T>(s: State<T>, e: Event<T>, h: nat)
    requires Step(s, e).Some? && e != Leave(h) && e != Take(h)
    ensures h in Step(s, e).value.left <==> h in s.left
  {
  }

  predicate MakesUntimed<T>(e: Event<T>) {
    e.Ensure? && !e.timed
  }

  lemma TimedStep<T>(s: State<T>, e: Event<T>)
    requires AllTimed(s.boxes) && Step(s, e).Some? && !MakesUntimed(e)
    ensures AllTimed(Step(s, e).value.boxes)
  {
  }

  /** What a run keeps: it only adds, and makes no mailbox without a clean-up if none of its steps does. */
  lemma {:induction false} RunExtends<T>(s: State<T>, es: seq<Event<T>>, t: State<T>)
    requires Inv(s) && Run(Step, s, es) == Some(t)
    ensures Inv(t) && Extends(s, t)
    ensures AllTimed(s.boxes) && (forall i | 0 <= i < |es| :: !MakesUntimed(es[i])) ==> AllTimed(t.boxes)
    decreases |es|
  {
    if |es| > 0 {
      var u := Step(s, es[0]).value;
      InvStep(s, es[0]);
      StepExtends(s, es[0]);
      if AllTimed(s.boxes) && !MakesUntimed(es[0]) {
        TimedStep(s, es[0]);
      }
      RunExtends(u, es[1..], t);
      ExtendsTransitive(s, u, t);
    }
  }

  lemma ExtendsTransitive<T>(s: State<T>, u: State<T>, t: State<T>)
    requires Extends(s, u) && Extends(u, t)
    ensures Extends(s, t)
  {
  }

  /** Whatever it got was sent to the key it asked for. */
  lemma ReceivedForKey<T>(s: State<T>, h: nat, v: T)
    requires Inv(s) && h < |s.refs| && v in ReceivedBy(s, h)
    ensures Packet(s.refs[h].key, v) in s.consumed
  {
    var b := s.refs[h].box;
    ServedMember(s.boxes[b].sent, s.boxes[b].takers, h, v);
    var i :| 0 <= i < |s.boxes[b].takers| && s.boxes[b].takers[i] == h && s.boxes[b].sent[i] == v;
    HistoryMember(s.boxes, b, i);
    assert History(s.boxes, s.boxes[b].key) + InHand(s.hand, s.boxes[b].key) == Stream(s.consumed, s.boxes[b].key);
    StreamMembers(s.consumed, s.boxes[b].key, v);
  }

  // ----- when the router can get on -----

  /** The router waits to send on a full channel that no map entry names and no handler waits at any more. */
  ghost predicate Wedged<T>(s: State<T>) {
    && s.hand.Holding? && s.hand.box < |s.boxes| && !HasRoom(s.boxes[s.hand.box], s.capacity)
    && (forall k | k in s.live :: s.live[k] != s.hand.box)
    && (forall r | 0 <= r < |s.refs| && s.refs[r].box == s.hand.box :: r in s.left)
  }

  /** Nobody will ever receive from that channel: the router consumes nothing any more, for any key. */
  lemma WedgedForEver<T(!new)>(s: State<T>, es: seq<Event<T>>, t: State<T>)
    requires Wedged(s) && Run(Step, s, es) == Some(t)
    ensures Wedged(t) && t.hand == s.hand && t.consumed == s.consumed
  {
    var inv := (u: State<T>) => Wedged(u) && u.hand == s.hand && u.consumed == s.consumed;
    forall u: State<T>, e: Event<T> | inv(u) && Step(u, e).Some? ensures inv(Step(u, e).value) {
      WedgedStep(u, e);
    }
    RunKeeps(Step, inv, s, es);
  }

  lemma WedgedStep<T>(s: State<T>, e: Event<T>)
    requires Wedged(s) && Step(s, e).Some?
    ensures var t := Step(s, e).value; Wedged(t) && t.hand == s.hand && t.consumed == s.consumed
  {
  }

  /** Nothing is sent on any channel any more, either. */
  lemma WedgedSendsNothing<T(!new)>(s: State<T>, es: seq<Event<T>>, t: State<T>, k: Key)
    requires Inv(s) && Wedged(s) && Run(Step, s, es) == Some(t)
    ensures History(t.boxes, k) == History(s.boxes, k)
  {
    WedgedForEver(s, es, t);
    RunExtends(s, es, t);
    SameInputSameHistory(s, t, k);
  }

  lemma SameInputSameHistory<T>(s: State<T>, t: State<T>, k: Key)
    requires InOrder(s) && InOrder(t) && t.hand == s.hand && t.consumed == s.consumed
    ensures History(t.boxes, k) == History(s.boxes, k)
  {
    var before, after, held := History(s.boxes, k), History(t.boxes, k), InHand(s.hand, k);
    assert before + held == Stream(s.consumed, k) == after + held;
    assert before == (before + held)[..|before|] && after == (after + held)[..|after|];
  }

  predicate Frees<T>(s: State<T>, es: seq<Event<T>>) {
    Run(Step, s, es).Some? && Run(Step, s, es).value.hand.Idle?
  }

  /** The router can finish its send, now or ever, if and only if the channel it holds has room, is still
      mapped, or has a handler that looked it up and has not returned. */
  lemma SendCanFinish<T(!new)>(s: State<T>)
    requires Inv(s) && s.hand.Holding? && s.capacity > 0
    ensures (exists es :: Frees(s, es)) <==>
            (|s.boxes[s.hand.box].sent| < |s.boxes[s.hand.box].takers| + s.capacity
             || (s.hand.p.key in s.live && s.live[s.hand.p.key] == s.hand.box)
             || exists r :: 0 <= r < |s.refs| && s.refs[r].box == s.hand.box && r !in s.left)
  {
    if Wedged(s) {
      forall es | Frees(s, es) ensures false {
        WedgedForEver(s, es, Run(Step, s, es).value);
      }
    } else {
      var _ := BackToSelect(s);
    }
  }

  /** The steps by which a router gets back to its select: its own, and what handlers do at its mailbox. */
  predicate LeadsToSelect<T>(e: Event<T>) {
    e.Resolve? || e.Send? || e.Acquire? || e.Take?
  }

  lemma BackToSelect<T>(s: State<T>) returns (es: seq<Event<T>>)
    requires Inv(s) && s.capacity > 0 && !Wedged(s)
    ensures Frees(s, es) && forall i | 0 <= i < |es| :: LeadsToSelect(es[i])
  {
    match s.hand {
      case Idle => es := [];
      case Holding(_, _) => es := FreedFromHolding(s);
      case Received(_) =>
        InvResolve(s);
        var rest := FreedFromHolding(Step(s, Resolve).value);
        es := [Resolve] + rest;
        assert es[1..] == rest;
    }
  }

  lemma FreedFromHolding<T>(s: State<T>) returns (es: seq<Event<T>>)
    requires Inv(s) && s.capacity > 0 && s.hand.Holding? && !Wedged(s)
    ensures Frees(s, es) && forall i | 0 <= i < |es| :: LeadsToSelect(es[i])
  {
    if HasRoom(s.boxes[s.hand.box], s.capacity) {
      es := FreedBySend(s);
    } else if r :| 0 <= r < |s.refs| && s.refs[r].box == s.hand.box && r !in s.left {
      es := FreedByTake(s, r);
    } else {
      var k :| k in s.live && s.live[k] == s.hand.box;
      InvAcquire(s, k);
      var rest := FreedByTake(Step(s, Acquire(k)).value, |s.refs|);
      es := [Acquire(k)] + rest;
      assert es[1..] == rest;
    }
  }

  lemma FreedBySend<T>(s: State<T>) returns (es: seq<Event<T>>)
    requires s.hand.Holding? && s.hand.box < |s.boxes| && HasRoom(s.boxes[s.hand.box], s.capacity)
    ensures Frees(s, es) && forall i | 0 <= i < |es| :: LeadsToSelect(es[i])
  {
    es := [Send];
    assert Run(Step, Step(s, Send).value, es[1..]).Some?;
  }

  lemma FreedByTake<T>(s: State<T>, r: nat) returns (es: seq<Event<T>>)
    requires s.hand.Holding? && s.hand.box < |s.boxes| && s.capacity > 0
    requires r < |s.refs| && s.refs[r].box == s.hand.box && r !in s.left
    requires |s.boxes[s.hand.box].sent| == |s.boxes[s.hand.box].takers| + s.capacity
    ensures Frees(s, es) && forall i | 0 <= i < |es| :: LeadsToSelect(es[i])
  {
    var t := Step(s, Take(r)).value;
    var rest := FreedBySend(t);
    es := [Take(r)] + rest;
    assert es[1..] == rest;
  }

  /** It does come to that: the router fills a mailbox, finds it again for one packet more, and the clean-up
      unmaps it in between. From then on nothing is consumed for any key. */
  lemma RouterCanWedge<T>(capacity: nat, oneShot: bool, key: Key, v: T) returns (es: seq<Event<T>>, s: State<T>)
    requires capacity > 0
    ensures Run(Step, Init<T>(capacity, oneShot), es) == Some(s) && Wedged(s)
  {
    var init, full := Init<T>(capacity, oneShot), Filled(capacity, oneShot, key, v, capacity);
    es := FillUp(capacity, oneShot, key, v, capacity);
    WedgeFull(capacity, oneShot, key, v);
    es, s := Extend(Step, init, es, full, Receive(Packet(key, v)));
    es, s := Extend(Step, init, es, s, Resolve);
    es, s := Extend(Step, init, es, s, Fire(0));
  }

  /** One mailbox, made by the router, that holds `n` values nobody has received. */
  function Filled<T>(capacity: nat, oneShot: bool, key: Key, v: T, n: nat): State<T> {
    if n == 0 then Init(capacity, oneShot)
    else
      State(capacity, oneShot, seq(n, _ => Packet(key, v)), [Mailbox(key, true, seq(n, _ => v), [])],
            map[key := 0], {0}, [], {}, Idle)
  }

  /** The state between the router's look-up and its send of one value more. */
  function Filling<T>(capacity: nat, oneShot: bool, key: Key, v: T, n: nat): State<T> {
    State(capacity, oneShot, seq(n + 1, _ => Packet(key, v)), [Mailbox(key, true, seq(n, _ => v), [])],
          map[key := 0], {0}, [], {}, Holding(Packet(key, v), 0))
  }

  lemma FillOne<T>(capacity: nat, oneShot: bool, key: Key, v: T, n: nat)
    requires n <= capacity
    ensures |Filled(capacity, oneShot, key, v, n).consumed| == n
    ensures Step(Filled(capacity, oneShot, key, v, n), Receive(Packet(key, v))).Some?
    ensures Step(Step(Filled(capacity, oneShot, key, v, n), Receive(Packet(key, v))).value, Resolve) ==
            Some(Filling(capacity, oneShot, key, v, n))
    ensures n < capacity ==>
              Step(Filling(capacity, oneShot, key, v, n), Send) == Some(Filled(capacity, oneShot, key, v, n + 1))
  {
    var p := Packet(key, v);
    assert seq(n, _ => p) + [p] == seq(n + 1, _ => p);
    assert seq(n, _ => v) + [v] == seq(n + 1, _ => v);
    var u := Filling(capacity, oneShot, key, v, n);
    assert u.boxes[0].sent + [v] == seq(n + 1, _ => v);
    assert n < capacity ==> Appended(u.boxes, 0, v) == Filled(capacity, oneShot, key, v, n + 1).boxes;
    if n == 0 {
      var t := Step(Step(Filled(capacity, oneShot, key, v, 0), Receive(p)).value, Resolve).value;
      assert t.boxes == [Mailbox(key, true, seq(0, _ => v), [])];
      assert t == Filling(capacity, oneShot, key, v, 0);
    }
  }

  lemma {:induction false} FillUp<T>(capacity: nat, oneShot: bool, key: Key, v: T, n: nat) returns (es: seq<Event<T>>)
    requires n <= capacity
    ensures Run(Step, Init<T>(capacity, oneShot), es) == Some(Filled(capacity, oneShot, key, v, n))
  {
    if n == 0 {
      es := [];
    } else {
      var init := Init<T>(capacity, oneShot);
      es := FillUp(capacity, oneShot, key, v, n - 1);
      FillOne(capacity, oneShot, key, v, n - 1);
      var s := Filled(capacity, oneShot, key, v, n - 1);
      es, s := Extend(Step, init, es, s, Receive(Packet(key, v)));
      es, s := Extend(Step, init, es, s, Resolve);
      es, s := Extend(Step, init, es, s, Send);
    }
  }

  lemma WedgeFull<T>(capacity: nat, oneShot: bool, key: Key, v: T)
    requires capacity > 0
    ensures Step(Filled(capacity, oneShot, key, v, capacity), Receive(Packet(key, v))).Some?
    ensures Step(Step(Filled(capacity, oneShot, key, v, capacity), Receive(Packet(key, v))).value, Resolve) ==
            Some(Filling(capacity, oneShot, key, v, capacity))
    ensures Step(Filling(capacity, oneShot, key, v, capacity), Fire(0)).Some?
    ensures Wedged(Step(Filling(capacity, oneShot, key, v, capacity), Fire(0)).value)
  {
    FillOne(capacity, oneShot, key, v, capacity);
  }

  // ----- when a handler can still receive -----

  predicate HasValue<T>(m: Mailbox<T>) {
    |m.takers| < |m.sent|
  }

  /** The run leads to a state in which handler `h` can receive. */
  predicate Serves<T>(s: State<T>, h: nat, es: seq<Event<T>>) {
    Run(Step, s, es).Some? && Step(Run(Step, s, es).value, Take(h)).Some?
  }

  /** A handler can receive, now or ever, if and only if it has not returned and its mailbox holds a value,
      or the router holds that mailbox, or it is still mapped and the router is not wedged. */
  lemma HandlerCanReceive<T(!new)>(s: State<T>, h: nat, v: T)
    requires Inv(s) && h < |s.refs| && s.capacity > 0
    ensures (exists es :: Serves(s, h, es)) <==>
            && h !in s.left
            && (HasValue(s.boxes[s.refs[h].box]) || HoldsBox(s, s.refs[h].box) || (IsMapped(s, h) && !Wedged(s)))
  {
    var b := s.refs[h].box;
    if h in s.left {
      forall es | Serves(s, h, es) ensures false {
        LeftForEver(s, es, h);
      }
    } else if HasValue(s.boxes[b]) || HoldsBox(s, b) {
      var _ := ServedNow(s, h);
    } else if IsMapped(s, h) && !Wedged(s) {
      var _ := ServedWhileMapped(s, h, v);
    } else {
      forall es | Serves(s, h, es) ensures false {
        NeverServed(s, es, h);
      }
    }
  }

  predicate HoldsBox<T>(s: State<T>, b: nat) {
    s.hand.Holding? && s.hand.box == b
  }

  /** The map still names the mailbox that handler `h` looked up. */
  predicate IsMapped<T>(s: State<T>, h: nat)
    requires h < |s.refs|
  {
    s.refs[h].key in s.live && s.live[s.refs[h].key] == s.refs[h].box
  }

  lemma LeftForEver<T(!new)>(s: State<T>, es: seq<Event<T>>, h: nat)
    requires h in s.left && Run(Step, s, es).Some?
    ensures h in Run(Step, s, es).value.left
  {
    var inv := (u: State<T>) => h in u.left;
    RunKeeps(Step, inv, s, es);
  }

  /** Nothing will be sent on mailbox `b` any more. */
  ghost predicate Abandoned<T>(s: State<T>, b: nat) {
    b < |s.boxes| && !HoldsBox(s, b) && ((forall k | k in s.live :: s.live[k] != b) || Wedged(s))
  }

  lemma AbandonedStep<T>(s: State<T>, e: Event<T>, b: nat)
    requires Abandoned(s, b) && Step(s, e).Some?
    ensures Abandoned(Step(s, e).value, b) && Step(s, e).value.boxes[b].sent == s.boxes[b].sent
    ensures !HasValue(s.boxes[b]) ==> !HasValue(Step(s, e).value.boxes[b])
  {
    if Wedged(s) {
      WedgedStep(s, e);
    }
  }

  /** What no entry names and the router does not hold is never sent on again. */
  lemma NeverServed<T(!new)>(s: State<T>, es: seq<Event<T>>, h: nat)
    requires Inv(s) && h < |s.refs| && !HasValue(s.boxes[s.refs[h].box]) && !HoldsBox(s, s.refs[h].box)
    requires !IsMapped(s, h) || Wedged(s)
    requires Run(Step, s, es).Some?
    ensures !Serves(s, h, es)
  {
    var b, r := s.refs[h].box, s.refs[h];
    var inv := (u: State<T>) => Abandoned(u, b) && !HasValue(u.boxes[b]) && h < |u.refs| && u.refs[h] == r;
    assert Abandoned(s, b);
    forall u: State<T>, e: Event<T> | inv(u) && Step(u, e).Some? ensures inv(Step(u, e).value) {
      AbandonedStep(u, e, b);
      StepExtends(u, e);
    }
    RunKeeps(Step, inv, s, es);
  }

  lemma ServedNow<T>(s: State<T>, h: nat) returns (es: seq<Event<T>>)
    requires Inv(s) && h < |s.refs| && h !in s.left && s.capacity > 0
    requires HasValue(s.boxes[s.refs[h].box]) || HoldsBox(s, s.refs[h].box)
    ensures Serves(s, h, es)
  {
    if HasValue(s.boxes[s.refs[h].box]) {
      es := [];
    } else {
      var t := Step(s, Send).value;
      es := [Send];
      assert Run(Step, t, es[1..]) == Some(t);
    }
  }

  lemma Then<T>(s: State<T>, e: Event<T>, h: nat, rest: seq<Event<T>>) returns (es: seq<Event<T>>)
    requires Step(s, e).Some? && Serves(Step(s, e).value, h, rest)
    ensures Serves(s, h, es)
  {
    es := [e] + rest;
    assert es[1..] == rest;
  }

  /** A handler that waits at a mapped mailbox. */
  ghost predicate WaitsAtEntry<T>(s: State<T>, h: nat) {
    Inv(s) && h < |s.refs| && h !in s.left && s.capacity > 0 && IsMapped(s, h)
  }

  /** Only clean-ups and the handler's own steps change that. */
  lemma EntryStays<T>(s: State<T>, e: Event<T>, h: nat)
    requires WaitsAtEntry(s, h) && Step(s, e).Some?
    requires !e.Delete? && !e.Fire? && e != Take(h) && e != Leave(h)
    ensures WaitsAtEntry(Step(s, e).value, h)
    ensures Step(s, e).value.refs[h] == s.refs[h]
  {
    InvStep(s, e);
    MappingStays(s, e, h);
  }

  lemma MappingStays<T>(s: State<T>, e: Event<T>, h: nat)
    requires h < |s.refs| && h !in s.left && IsMapped(s, h) && Step(s, e).Some?
    requires !e.Delete? && !e.Fire? && e != Take(h) && e != Leave(h)
    ensures var t := Step(s, e).value;
            h < |t.refs| && t.refs[h] == s.refs[h] && h !in t.left && t.capacity == s.capacity && IsMapped(t, h)
  {
  }

  lemma ServedFromIdle<T>(s: State<T>, h: nat, v: T) returns (es: seq<Event<T>>)
    requires WaitsAtEntry(s, h) && s.hand.Idle?
    ensures Serves(s, h, es)
  {
    var p := Packet(s.refs[h].key, v);
    EntryStays(s, Receive(p), h);
    es := ServedFromReceived(Step(s, Receive(p)).value, h);
    es := Then(s, Receive(p), h, es);
  }

  /** The router has a packet for the handler's key. */
  lemma ServedFromReceived<T>(s: State<T>, h: nat) returns (es: seq<Event<T>>)
    requires WaitsAtEntry(s, h) && s.hand.Received? && s.hand.p.key == s.refs[h].key
    ensures Serves(s, h, es)
  {
    EntryStays(s, Resolve, h);
    es := ServedNow(Step(s, Resolve).value, h);
    es := Then(s, Resolve, h, es);
  }

  /** The router holds another mailbox that has room: it gets back to its select. */
  lemma ServedAfterSend<T>(s: State<T>, h: nat, v: T) returns (es: seq<Event<T>>)
    requires WaitsAtEntry(s, h) && s.hand.Holding? && HasRoom(s.boxes[s.hand.box], s.capacity)
    ensures Serves(s, h, es)
  {
    EntryStays(s, Send, h);
    es := ServedFromIdle(Step(s, Send).value, h, v);
    es := Then(s, Send, h, es);
  }

  /** Another handler waits at the mailbox the router holds. */
  lemma ServedAfterTake<T>(s: State<T>, h: nat, r: nat, v: T) returns (es: seq<Event<T>>)
    requires WaitsAtEntry(s, h) && s.hand.Holding? && s.hand.box != s.refs[h].box
    requires r < |s.refs| && r !in s.left && s.refs[r].box == s.hand.box
    ensures Serves(s, h, es)
  {
    if HasRoom(s.boxes[s.hand.box], s.capacity) {
      es := ServedAfterSend(s, h, v);
    } else {
      EntryStays(s, Take(r), h);
      es := ServedAfterSend(Step(s, Take(r)).value, h, v);
      es := Then(s, Take(r), h, es);
    }
  }

  /** The router holds another mailbox and is not wedged. */
  lemma ServedFromHolding<T>(s: State<T>, h: nat, v: T) returns (es: seq<Event<T>>)
    requires WaitsAtEntry(s, h) && s.hand.Holding? && s.hand.box != s.refs[h].box && !Wedged(s)
    ensures Serves(s, h, es)
  {
    if HasRoom(s.boxes[s.hand.box], s.capacity) {
      es := ServedAfterSend(s, h, v);
    } else if r :| 0 <= r < |s.refs| && s.refs[r].box == s.hand.box && r !in s.left {
      es := ServedAfterTake(s, h, r, v);
    } else {
      var k :| k in s.live && s.live[k] == s.hand.box;
      EntryStays(s, Acquire(k), h);
      es := ServedAfterTake(Step(s, Acquire(k)).value, h, |s.refs|, v);
      es := Then(s, Acquire(k), h, es);
    }
  }

  lemma ServedWhileMapped<T>(s: State<T>, h: nat, v: T) returns (es: seq<Event<T>>)
    requires WaitsAtEntry(s, h) && !HoldsBox(s, s.refs[h].box) && !Wedged(s)
    ensures Serves(s, h, es)
  {
    match s.hand {
      case Idle => es := ServedFromIdle(s, h, v);
      case Holding(_, _) => es := ServedFromHolding(s, h, v);
      case Received(p) =>
        if p.key == s.refs[h].key {
          es := ServedFromReceived(s, h);
        } else {
          EntryStays(s, Resolve, h);
          es := ServedFromHolding(Step(s, Resolve).value, h, v);
          es := Then(s, Resolve, h, es);
        }
    }
  }
}
