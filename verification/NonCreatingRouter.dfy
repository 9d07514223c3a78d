/**
  The router shape that drops a packet whose key has no entry: `answerRouter`
  over `AnsID2AnsChan` and the offerer's `iceCandidateRouter` over its
  `AnsID2iceToAnsChan`. The channels are unbuffered: the router's send and a
  handler's receive are one step. A key is minted by SendOffer, from a UUID, so
  it is minted once and its channel is never made again.
 */
module NonCreatingRouter {
  import opened Runs
  import opened Packets

  /** The unbuffered channel of a minted key: the values handed over on it, the
      handler that took each, and what had been dropped for the key beforehand. */
  datatype Slot<T> = Slot(early: seq<T>, sent: seq<T>, takers: seq<nat>)

  datatype Hand<T> =
    | Idle
    | Received(p: Packet<T>)
    | Holding(p: Packet<T>)

  datatype State<T> = State(
    oneShot: bool,              // a handler returns with its first value, as WaitForAnswer does
    consumed: seq<Packet<T>>,
    dropped: seq<Packet<T>>,
    slots: map<Key, Slot<T>>,   // every channel ever made
    live: set<Key>,             // the guarded map's keys
    refs: seq<Key>,             // look-ups made by handlers
    left: set<nat>,             // the handlers among them that have returned
    hand: Hand<T>)

  datatype Event<T> =
    | Receive(p: Packet<T>)
    | Resolve              // the router's locked look-up; a packet without entry is dropped
    | HandOver(ref: nat)   // ch <- value meets the receive of a handler
    | Mint(key: Key)
    | Acquire(key: Key)    // a handler's locked look-up
    | Leave(ref: nat)      // a handler returns
    | Delete(key: Key)     // a timer or a deferred clean-up

  function Init<T>(oneShot: bool): State<T> {
    State(oneShot, [], [], map[], {}, [], {}, Idle)
  }

  function Step<T>(s: State<T>, e: Event<T>): Option<State<T>> {
    match e
    case Receive(p) =>
      if s.hand.Idle? then Some(s.(consumed := s.consumed + [p], hand := Received(p))) else None
    case Resolve =>
      if !s.hand.Received? then None
      else if s.hand.p.key in s.live then Some(s.(hand := Holding(s.hand.p)))
      else Some(s.(dropped := s.dropped + [s.hand.p], hand := Idle))
    case HandOver(r) =>
      if s.hand.Holding? && r < |s.refs| && r !in s.left && s.refs[r] == s.hand.p.key && s.refs[r] in s.slots then
        Some(s.(slots := s.slots[s.refs[r] := Handed(s.slots[s.refs[r]], s.hand.p.body, r)], hand := Idle,
                left := if s.oneShot then s.left + {r} else s.left))
      else None
    case Mint(key) =>
      if key !in s.slots then
        Some(s.(slots := s.slots[key := Slot(Stream(s.dropped, key), [], [])], live := s.live + {key}))
      else None
    case Acquire(key) =>
      if key in s.live then Some(s.(refs := s.refs + [key])) else None
    case Leave(r) => if r < |s.refs| then Some(s.(left := s.left + {r})) else None
    case Delete(key) => Some(s.(live := s.live - {key}))
  }

  function Handed<T>(slot: Slot<T>, v: T, handler: nat): Slot<T> {
    slot.(sent := slot.sent + [v], takers := slot.takers + [handler])
  }

  function InHand<T>(h: Hand<T>, k: Key): seq<T> {
    if h.Idle? || h.p.key != k then [] else [h.p.body]
  }

  predicate Holds<T>(h: Hand<T>, k: Key) {
    h.Holding? && h.p.key == k
  }

  /** What was dropped for a minted key after it was minted. */
  function Late<T>(s: State<T>, k: Key): seq<T>
    requires k in s.slots && |s.slots[k].early| <= |Stream(s.dropped, k)|
  {
    Stream(s.dropped, k)[|s.slots[k].early|..]
  }

  ghost predicate KeyInOrder<T>(s: State<T>, k: Key) {
    if k in s.slots then
      && s.slots[k].early <= Stream(s.dropped, k)
      && Stream(s.consumed, k) == s.slots[k].early + s.slots[k].sent + Late(s, k) + InHand(s.hand, k)
      && (k in s.live || Holds(s.hand, k) ==> Late(s, k) == [])
    else
      && k !in s.live && !Holds(s.hand, k)
      && Stream(s.consumed, k) == Stream(s.dropped, k) + InHand(s.hand, k)
  }

  /** A one-shot handler is handed one value: it has returned, and its name occurs once. */
  ghost predicate TakersLeft<T>(s: State<T>) {
    s.oneShot ==> forall k | k in s.slots ::
      && NoDup(s.slots[k].takers)
      && forall i | 0 <= i < |s.slots[k].takers| :: s.slots[k].takers[i] in s.left
  }

  ghost predicate Inv<T>(s: State<T>) {
    && (forall k :: KeyInOrder(s, k))
    && (forall k | k in s.slots :: |s.slots[k].takers| == |s.slots[k].sent|)
    && (forall r | r in s.left :: r < |s.refs|)
    && TakersLeft(s)
    && (forall r | 0 <= r < |s.refs| :: s.refs[r] in s.slots)
    && (forall k, i | k in s.slots && 0 <= i < |s.slots[k].takers| ::
          s.slots[k].takers[i] < |s.refs| && s.refs[s.slots[k].takers[i]] == k)
  }

  // ----- every step keeps the invariant -----

  lemma InvInit<T>(oneShot: bool)
    ensures Inv(Init<T>(oneShot))
  {
  }

  lemma InvReceive<T>(s: State<T>, p: Packet<T>)
    requires Inv(s) && s.hand.Idle?
    ensures Inv(Step(s, Receive(p)).value)
  {
    var s' := Step(s, Receive(p)).value;
    forall k ensures KeyInOrder(s', k) {
      assert KeyInOrder(s, k);
      StreamAppend(s.consumed, p, k);
    }
  }

  lemma DropExtends<T>(early: seq<T>, dropped: seq<T>, v: T)
    requires early <= dropped
    ensures early <= dropped + [v]
    ensures (dropped + [v])[|early|..] == dropped[|early|..] + [v]
  {
  }

  /** A packet for another key changes nothing for `k`. */
  lemma ResolveOther<T>(s: State<T>, k: Key)
    requires s.hand.Received? && KeyInOrder(s, k) && s.hand.p.key != k
    ensures KeyInOrder(Step(s, Resolve).value, k)
  {
    var t := Step(s, Resolve).value;
    StreamAppend(s.dropped, s.hand.p, k);
    assert Stream(t.dropped, k) == Stream(s.dropped, k);
    assert InHand(t.hand, k) == [] == InHand(s.hand, k);
  }

  lemma ResolveMapped<T>(s: State<T>, k: Key)
    requires s.hand.Received? && KeyInOrder(s, k) && s.hand.p.key == k && k in s.live
    ensures KeyInOrder(Step(s, Resolve).value, k)
  {
    assert InHand(Step(s, Resolve).value.hand, k) == InHand(s.hand, k);
  }

  lemma ResolveDropped<T>(s: State<T>, k: Key)
    requires s.hand.Received? && KeyInOrder(s, k) && s.hand.p.key == k && k !in s.live
    ensures KeyInOrder(Step(s, Resolve).value, k)
  {
    var t := Step(s, Resolve).value;
    StreamAppend(s.dropped, s.hand.p, k);
    var v := s.hand.p.body;
    assert Stream(t.dropped, k) == Stream(s.dropped, k) + [v];
    assert InHand(s.hand, k) == [v] && InHand(t.hand, k) == [];
    if k in s.slots {
      DropExtends(s.slots[k].early, Stream(s.dropped, k), v);
      assert Late(t, k) == Late(s, k) + [v];
    }
  }

  lemma ResolveKey<T>(s: State<T>, k: Key)
    requires s.hand.Received? && KeyInOrder(s, k)
    ensures KeyInOrder(Step(s, Resolve).value, k)
  {
    if s.hand.p.key != k {
      ResolveOther(s, k);
    } else if k in s.live {
      ResolveMapped(s, k);
    } else {
      ResolveDropped(s, k);
    }
  }

  lemma InvResolve<T>(s: State<T>)
    requires Inv(s) && s.hand.Received?
    ensures Inv(Step(s, Resolve).value)
  {
    forall k ensures KeyInOrder(Step(s, Resolve).value, k) {
      assert KeyInOrder(s, k);
      ResolveKey(s, k);
    }
  }

  lemma InvHandOver<T>(s: State<T>, r: nat)
    requires Inv(s) && Step(s, HandOver(r)).Some?
    ensures Inv(Step(s, HandOver(r)).value)
  {
    var s' := Step(s, HandOver(r)).value;
    forall k ensures KeyInOrder(s', k) {
      assert KeyInOrder(s, k);
    }
  }

  lemma InvMint<T>(s: State<T>, key: Key)
    requires Inv(s) && key !in s.slots
    ensures Inv(Step(s, Mint(key)).value)
  {
    var s' := Step(s, Mint(key)).value;
    forall k ensures KeyInOrder(s', k) {
      assert KeyInOrder(s, k);
    }
  }

  lemma InvStep<T>(s: State<T>, e: Event<T>)
    requires Inv(s) && Step(s, e).Some?
    ensures Inv(Step(s, e).value)
  {
    match e {
      case Receive(p) => InvReceive(s, p);
      case Resolve => InvResolve(s);
      case HandOver(r) => InvHandOver(s, r);
      case Mint(key) => InvMint(s, key);
      case Acquire(key) =>
        assert KeyInOrder(s, key);
        assert forall k :: KeyInOrder(s, k) ==> KeyInOrder(Step(s, e).value, k);
      case Leave(r) => assert forall k :: KeyInOrder(s, k) ==> KeyInOrder(Step(s, e).value, k);
      case Delete(key) => assert forall k :: KeyInOrder(s, k) ==> KeyInOrder(Step(s, e).value, k);
    }
  }

  lemma InvRun<T(!new)>(oneShot: bool, es: seq<Event<T>>)
    requires Run(Step, Init<T>(oneShot), es).Some?
    ensures Inv(Run(Step, Init<T>(oneShot), es).value)
  {
    InvInit<T>(oneShot);
    var inv := (s: State<T>) => Inv(s);
    forall s: State<T>, e: Event<T> | inv(s) && Step(s, e).Some? ensures inv(Step(s, e).value) {
      InvStep(s, e);
    }
    RunKeeps(Step, inv, Init<T>(oneShot), es);
  }

  // ----- theorems about all runs -----

  /** Everything the router was given, in order. */
  function Input<T>(es: seq<Event<T>>): seq<Packet<T>> {
    if |es| == 0 then []
    else
      var n := |es| - 1;
      Input(es[..n]) + (if es[n].Receive? then [es[n].p] else [])
  }

  lemma {:induction false} ConsumedIsInput<T>(s: State<T>, es: seq<Event<T>>, t: State<T>)
    requires Run(Step, s, es) == Some(t)
    ensures t.consumed == s.consumed + Input(es)
  {
    if |es| > 0 {
      var u := RunLast(Step, s, es, t);
      ConsumedIsInput(s, es[..|es| - 1], u);
    }
  }

  /** The router's input for a minted key splits, in order, into what was dropped before the key was
      minted, what was handed over, what was dropped afterwards, and at most one packet in hand. */
  lemma InputSplits<T(!new)>(oneShot: bool, es: seq<Event<T>>, s: State<T>, k: Key)
    requires Run(Step, Init<T>(oneShot), es) == Some(s) && k in s.slots
    ensures s.slots[k].early <= Stream(s.dropped, k)
    ensures Stream(Input(es), k) == s.slots[k].early + s.slots[k].sent + Late(s, k) + InHand(s.hand, k)
    ensures k in s.live ==> Late(s, k) == []
  {
    InvRun(oneShot, es);
    ConsumedIsInput(Init(oneShot), es, s);
    assert s.consumed == Input(es);
    assert KeyInOrder(s, k);
  }

  /** For a key that was not used before it was minted, what is handed over is a prefix of the input. */
  lemma DeliversPrefix<T>(s: State<T>, k: Key)
    requires Inv(s) && k in s.slots && s.slots[k].early == []
    ensures s.slots[k].sent <= Stream(s.consumed, k)
    ensures Stream(s.dropped, k) == [] ==> s.slots[k].sent + InHand(s.hand, k) == Stream(s.consumed, k)
  {
    assert KeyInOrder(s, k);
  }

  /** Freshness is needed, exactly: if no packet for the key repeats, what is handed over is a prefix of the
      input if and only if nothing was dropped for the key before it was minted, or nothing is handed over. */
  lemma PrefixNeedsFreshness<T>(s: State<T>, k: Key)
    requires Inv(s) && k in s.slots && NoDup(Stream(s.consumed, k))
    ensures s.slots[k].sent <= Stream(s.consumed, k) <==> s.slots[k].early == [] || s.slots[k].sent == []
  {
    assert KeyInOrder(s, k);
    var all, early, sent := Stream(s.consumed, k), s.slots[k].early, s.slots[k].sent;
    if early != [] && sent != [] {
      assert all[0] == early[0] && all[|early|] == sent[0];
    }
  }

  /** It does happen: a packet for a guessed key, dropped before the key is minted, is lost
      although the next one is delivered. */
  lemma GuessedKeyBreaksPrefix(oneShot: bool, k: Key) returns (es: seq<Event<string>>, s: State<string>)
    ensures Run(Step, Init<string>(oneShot), es) == Some(s) && k in s.slots
    ensures s.slots[k].sent == ["second"] && Stream(s.consumed, k) == ["first", "second"]
  {
    es, s := [], Init<string>(oneShot);
    var p, q := Packet(k, "first"), Packet(k, "second");
    es, s := Extend(Step, Init(oneShot), es, s, Receive(p));
    es, s := Extend(Step, Init(oneShot), es, s, Resolve);
    StreamAppend([], p, k);
    es, s := Extend(Step, Init(oneShot), es, s, Mint(k));
    es, s := Extend(Step, Init(oneShot), es, s, Acquire(k));
    es, s := Extend(Step, Init(oneShot), es, s, Receive(q));
    StreamAppend([p], q, k);
    es, s := Extend(Step, Init(oneShot), es, s, Resolve);
    es, s := Extend(Step, Init(oneShot), es, s, HandOver(0));
  }

  // ----- what one handler gets -----

  /** The values that handler `h` has been handed. */
  ghost function ReceivedBy<T>(s: State<T>, h: nat): seq<T>
    requires h < |s.refs| && s.refs[h] in s.slots && |s.slots[s.refs[h]].takers| <= |s.slots[s.refs[h]].sent|
  {
    Served(s.slots[s.refs[h]].sent, s.slots[s.refs[h]].takers, h)
  }

  lemma ReceivedNothing<T>(s: State<T>, key: Key)
    requires Inv(s) && Step(s, Acquire(key)).Some?
    ensures var t := Step(s, Acquire(key)).value; Inv(t) && ReceivedBy(t, |s.refs|) == []
  {
    InvStep(s, Acquire(key));
    assert KeyInOrder(s, key);
    ServedNothing(s.slots[key].sent, s.slots[key].takers, |s.refs|);
  }

  /** Only its own meetings with the router give a handler anything, and each gives it what the router holds. */
  lemma ReceivedStep<T>(s: State<T>, e: Event<T>, h: nat)
    requires Inv(s) && h < |s.refs| && Step(s, e).Some?
    ensures var t := Step(s, e).value;
            && Inv(t) && h < |t.refs| && t.refs[h] == s.refs[h]
            && (e == HandOver(h) ==> s.hand.Holding? && s.hand.p.key == s.refs[h])
            && ReceivedBy(t, h) == ReceivedBy(s, h) + (if e == HandOver(h) then [s.hand.p.body] else [])
  {
    InvStep(s, e);
    if e.HandOver? && s.refs[e.ref] == s.refs[h] {
      var slot := s.slots[s.refs[h]];
      ServedTake(slot.sent + [s.hand.p.body], slot.takers, e.ref, h);
      ServedStays(slot.sent, slot.sent + [s.hand.p.body], slot.takers, h);
    }
  }

  /** A one-shot handler is handed at most one value, and none before it returns. */
  lemma ReceivedOnce<T>(s: State<T>, h: nat)
    requires Inv(s) && s.oneShot && h < |s.refs|
    ensures |ReceivedBy(s, h)| <= 1
    ensures h !in s.left ==> ReceivedBy(s, h) == []
  {
    var slot := s.slots[s.refs[h]];
    ServedOnce(slot.sent, slot.takers, h);
    if h !in s.left {
      ServedNothing(slot.sent, slot.takers, h);
    }
  }

  ghost predicate SameHandler<T>(s: State<T>, t: State<T>, h: nat)
    requires Inv(s) && Inv(t) && h < |s.refs|
  {
    h < |t.refs| && t.refs[h] == s.refs[h] && ReceivedBy(t, h) == ReceivedBy(s, h) && (h in t.left <==> h in s.left)
  }

  lemma StepKeepsHandler<T>(s: State<T>, e: Event<T>, h: nat)
    requires Step(s, e).Some? && e != Leave(h) && e != HandOver(h)
    ensures h in Step(s, e).value.left <==> h in s.left
  {
  }

  /** Whatever it got was sent to the key it asked for. */
  lemma ReceivedForKey<T>(s: State<T>, h: nat, v: T)
    requires Inv(s) && h < |s.refs| && v in ReceivedBy(s, h)
    ensures Packet(s.refs[h], v) in s.consumed
  {
    var k := s.refs[h];
    ServedMember(s.slots[k].sent, s.slots[k].takers, h, v);
    assert KeyInOrder(s, k);
    StreamMembers(s.consumed, k, v);
  }

  // ----- when the router can get on -----

  /** A handler that looked `k` up and has not returned. */
  predicate Waits<T>(s: State<T>, r: nat, k: Key) {
    r < |s.refs| && s.refs[r] == k && r !in s.left
  }

  /** The router waits to hand a value over for a key that is unmapped and that no handler waits for. */
  ghost predicate Wedged<T>(s: State<T>) {
    s.hand.Holding? && s.hand.p.key in s.slots && s.hand.p.key !in s.live && forall r :: !Waits(s, r, s.hand.p.key)
  }

  /** Nothing has been handed over in between, for any key. */
  ghost predicate SameSent<T>(s: State<T>, t: State<T>) {
    && s.slots.Keys <= t.slots.Keys
    && forall k | k in t.slots :: t.slots[k].sent == if k in s.slots then s.slots[k].sent else []
  }

  /** Nobody will ever receive it: the router consumes nothing any more, for any key. */
  lemma WedgedForEver<T(!new)>(s: State<T>, es: seq<Event<T>>, t: State<T>)
    requires Wedged(s) && Run(Step, s, es) == Some(t)
    ensures Wedged(t) && t.hand == s.hand && t.consumed == s.consumed && SameSent(s, t)
  {
    var inv := (u: State<T>) => Wedged(u) && u.hand == s.hand && u.consumed == s.consumed && SameSent(s, u);
    forall u: State<T>, e: Event<T> | inv(u) && Step(u, e).Some? ensures inv(Step(u, e).value) {
      WedgedStep(u, e);
    }
    RunKeeps(Step, inv, s, es);
  }

  lemma WedgedStep<T>(s: State<T>, e: Event<T>)
    requires Wedged(s) && Step(s, e).Some?
    ensures var t := Step(s, e).value; Wedged(t) && t.hand == s.hand && t.consumed == s.consumed && SameSent(s, t)
  {
    var t, k := Step(s, e).value, s.hand.p.key;
    assert e.HandOver? ==> Waits(s, e.ref, k);
    forall r ensures !Waits(t, r, k) {
      assert !Waits(s, r, k);
    }
  }

  predicate Frees<T>(s: State<T>, es: seq<Event<T>>) {
    Run(Step, s, es).Some? && Run(Step, s, es).value.hand.Idle?
  }

  /** The router can finish its hand-over, now or ever, if and only if the key is still mapped or a handler
      that looked it up has not returned. */
  lemma HandOverCanFinish<T(!new)>(s: State<T>)
    requires Inv(s) && s.hand.Holding?
    ensures (exists es :: Frees(s, es)) <==> s.hand.p.key in s.live || exists r :: Waits(s, r, s.hand.p.key)
  {
    var k := s.hand.p.key;
    assert KeyInOrder(s, k);
    if r :| Waits(s, r, k) {
      var _ := FreedByHandOver(s, r);
    } else if k in s.live {
      var t := Step(s, Acquire(k)).value;
      var es := FreedByHandOver(t, |s.refs|);
      assert ([Acquire(k)] + es)[1..] == es;
      assert Frees(s, [Acquire(k)] + es);
    } else {
      assert Wedged(s);
      forall es | Frees(s, es) ensures false {
        WedgedForEver(s, es, Run(Step, s, es).value);
      }
    }
  }

  lemma FreedByHandOver<T>(s: State<T>, r: nat) returns (es: seq<Event<T>>)
    requires s.hand.Holding? && s.hand.p.key in s.slots && Waits(s, r, s.hand.p.key)
    ensures Frees(s, es)
  {
    es := [HandOver(r)];
    assert Run(Step, Step(s, HandOver(r)).value, es[1..]).Some?;
  }

  /** It does come to that: an answer arrives that nobody waits for, and its clean-up runs after the look-up. */
  lemma RouterCanWedge<T>(oneShot: bool, k: Key, v: T) returns (es: seq<Event<T>>, s: State<T>)
    ensures Run(Step, Init<T>(oneShot), es) == Some(s) && Wedged(s)
  {
    es, s := [], Init<T>(oneShot);
    es, s := Extend(Step, Init(oneShot), es, s, Mint(k));
    es, s := Extend(Step, Init(oneShot), es, s, Receive(Packet(k, v)));
    es, s := Extend(Step, Init(oneShot), es, s, Resolve);
    es, s := Extend(Step, Init(oneShot), es, s, Delete(k));
  }

  // ----- absent for ever -----

  /** `k` is unmapped; `sent` was handed over for it, and at most `last`, which the router holds, follows. */
  ghost predicate Over<T>(s: State<T>, k: Key, sent: seq<T>, last: seq<T>) {
    && k in s.slots && k !in s.live
    && (s.slots[k].sent == sent || (s.slots[k].sent == sent + last && !Holds(s.hand, k)))
    && (Holds(s.hand, k) ==> last == [s.hand.p.body])
  }

  function HeldFor<T>(h: Hand<T>, k: Key): seq<T> {
    if Holds(h, k) then [h.p.body] else []
  }

  lemma OverStep<T>(s: State<T>, e: Event<T>, k: Key, sent: seq<T>, last: seq<T>)
    requires Over(s, k, sent, last) && Step(s, e).Some?
    ensures Over(Step(s, e).value, k, sent, last)
  {
  }

  /** Once unmapped, a minted key is never mapped again, and nothing more is handed over for it than the one
      value the router may be holding. */
  lemma UnmappedForEver<T(!new)>(s: State<T>, k: Key, es: seq<Event<T>>, t: State<T>)
    requires k in s.slots && k !in s.live && Run(Step, s, es) == Some(t)
    ensures k in t.slots && k !in t.live
    ensures t.slots[k].sent == s.slots[k].sent || t.slots[k].sent == s.slots[k].sent + HeldFor(s.hand, k)
  {
    var sent, last := s.slots[k].sent, HeldFor(s.hand, k);
    var inv := (u: State<T>) => Over(u, k, sent, last);
    forall u: State<T>, e: Event<T> | inv(u) && Step(u, e).Some? ensures inv(Step(u, e).value) {
      OverStep(u, e, k, sent, last);
    }
    RunKeeps(Step, inv, s, es);
  }

  /** Once a packet has been dropped for a minted key, none is ever delivered for it again, and its
      entry never comes back. */
  lemma NothingAfterADrop<T(!new)>(s: State<T>, k: Key, es: seq<Event<T>>, t: State<T>)
    requires Inv(s) && k in s.slots && |s.slots[k].early| < |Stream(s.dropped, k)|
    requires Run(Step, s, es) == Some(t)
    ensures k in t.slots && k !in t.live && t.slots[k].sent == s.slots[k].sent
  {
    assert KeyInOrder(s, k);
    UnmappedForEver(s, k, es, t);
  }

  // ----- when a handler can still receive -----

  /** The run leads to a state in which the router can hand a value to handler `h`. */
  predicate Serves<T>(s: State<T>, h: nat, es: seq<Event<T>>) {
    Run(Step, s, es).Some? && Step(Run(Step, s, es).value, HandOver(h)).Some?
  }

  /** A handler can receive, now or ever, if and only if it has not returned and the router holds a value for
      its key, or the key is still mapped and the router is not wedged. */
  lemma HandlerCanReceive<T(!new)>(s: State<T>, h: nat, v: T)
    requires Inv(s) && h < |s.refs|
    ensures (exists es :: Serves(s, h, es)) <==>
            h !in s.left && (Holds(s.hand, s.refs[h]) || (s.refs[h] in s.live && !Wedged(s)))
  {
    if h in s.left {
      forall es | Serves(s, h, es) ensures false {
        LeftForEver(s, es, h);
      }
    } else if Holds(s.hand, s.refs[h]) {
      assert Serves(s, h, []);
    } else if s.refs[h] in s.live && !Wedged(s) {
      var _ := ServedWhileMapped(s, h, v);
    } else {
      forall es | Serves(s, h, es) ensures false {
        NeverServed(s, es, h);
      }
    }
  }

  lemma LeftForEver<T(!new)>(s: State<T>, es: seq<Event<T>>, h: nat)
    requires h in s.left && Run(Step, s, es).Some?
    ensures h in Run(Step, s, es).value.left
  {
    var inv := (u: State<T>) => h in u.left;
    RunKeeps(Step, inv, s, es);
  }

  /** Nothing is handed over for `k` any more: it is unmapped, or the router is wedged with another key. */
  ghost predicate NeverHeld<T>(s: State<T>, k: Key) {
    k in s.slots && !Holds(s.hand, k) && (k !in s.live || Wedged(s))
  }

  lemma NeverHeldStep<T>(s: State<T>, e: Event<T>, k: Key)
    requires NeverHeld(s, k) && Step(s, e).Some?
    ensures NeverHeld(Step(s, e).value, k)
  {
    if Wedged(s) {
      WedgedStep(s, e);
    }
  }

  lemma NeverServed<T(!new)>(s: State<T>, es: seq<Event<T>>, h: nat)
    requires Inv(s) && h < |s.refs| && NeverHeld(s, s.refs[h]) && Run(Step, s, es).Some?
    ensures !Serves(s, h, es)
  {
    var k := s.refs[h];
    var inv := (u: State<T>) => NeverHeld(u, k) && h < |u.refs| && u.refs[h] == k;
    forall u: State<T>, e: Event<T> | inv(u) && Step(u, e).Some? ensures inv(Step(u, e).value) {
      NeverHeldStep(u, e, k);
    }
    RunKeeps(Step, inv, s, es);
  }

  lemma Then<T>(s: State<T>, e: Event<T>, h: nat, rest: seq<Event<T>>) returns (es: seq<Event<T>>)
    requires Step(s, e).Some? && Serves(Step(s, e).value, h, rest)
    ensures Serves(s, h, es)
  {
    es := [e] + rest;
    assert es[1..] == rest;
  }

  /** A handler that waits for a mapped key. */
  predicate WaitsAtEntry<T>(s: State<T>, h: nat) {
    && h < |s.refs| && h !in s.left && s.refs[h] in s.live && s.refs[h] in s.slots
    && forall r | r in s.left :: r < |s.refs|
  }

  lemma ServedFromReceived<T>(s: State<T>, h: nat) returns (es: seq<Event<T>>)
    requires WaitsAtEntry(s, h) && s.hand.Received? && s.hand.p.key == s.refs[h]
    ensures Serves(s, h, es)
  {
    assert Serves(Step(s, Resolve).value, h, []);
    es := Then(s, Resolve, h, []);
  }

  lemma ServedFromIdle<T>(s: State<T>, h: nat, v: T) returns (es: seq<Event<T>>)
    requires WaitsAtEntry(s, h) && s.hand.Idle?
    ensures Serves(s, h, es)
  {
    var p := Packet(s.refs[h], v);
    es := ServedFromReceived(Step(s, Receive(p)).value, h);
    es := Then(s, Receive(p), h, es);
  }

  /** The router holds a value for another key, and handler `r` waits for it. */
  lemma ServedAfterHandOver<T>(s: State<T>, h: nat, r: nat, v: T) returns (es: seq<Event<T>>)
    requires WaitsAtEntry(s, h) && s.hand.Holding? && s.hand.p.key != s.refs[h]
    requires s.hand.p.key in s.slots && Waits(s, r, s.hand.p.key)
    ensures Serves(s, h, es)
  {
    es := ServedFromIdle(Step(s, HandOver(r)).value, h, v);
    es := Then(s, HandOver(r), h, es);
  }

  lemma ServedFromHolding<T>(s: State<T>, h: nat, v: T) returns (es: seq<Event<T>>)
    requires WaitsAtEntry(s, h) && s.hand.Holding? && s.hand.p.key != s.refs[h]
    requires s.hand.p.key in s.slots && !Wedged(s)
    ensures Serves(s, h, es)
  {
    var k := s.hand.p.key;
    if r :| Waits(s, r, k) {
      es := ServedAfterHandOver(s, h, r, v);
    } else {
      es := ServedAfterHandOver(Step(s, Acquire(k)).value, h, |s.refs|, v);
      es := Then(s, Acquire(k), h, es);
    }
  }

  lemma ServedWhileMapped<T>(s: State<T>, h: nat, v: T) returns (es: seq<Event<T>>)
    requires Inv(s) && WaitsAtEntry(s, h) && !Holds(s.hand, s.refs[h]) && !Wedged(s)
    ensures Serves(s, h, es)
  {
    match s.hand {
      case Idle => es := ServedFromIdle(s, h, v);
      case Holding(p) =>
        assert KeyInOrder(s, p.key);
        es := ServedFromHolding(s, h, v);
      case Received(p) =>
        assert KeyInOrder(s, p.key);
        if p.key == s.refs[h] {
          es := ServedFromReceived(s, h);
        } else {
          var t := Step(s, Resolve).value;
          if t.hand.Idle? {
            es := ServedFromIdle(t, h, v);
          } else {
            es := ServedFromHolding(t, h, v);
          }
          es := Then(s, Resolve, h, es);
        }
    }
  }
}
