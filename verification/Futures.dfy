/**
  utils/async: futures are single-slot channels that one goroutine fills once.
  `outcome` is the value its function returns; a receive blocks until the value
  is there and then takes it, so a second receive would block for ever.
 */
module Futures {
  import opened Runs

  class Future<T> {
    const outcome: T
    var slot: Option<T>      // the capacity-1 channel
    var sent: bool           // the goroutine has sent
    var received: nat        // receives that have completed

    /** The value is still on its way or in the slot: a receive will complete, once. */
    ghost predicate Pending()
      reads this
    {
      received == 0 && slot == (if sent then Some(outcome) else None)
    }

    /** Async, Ret and NewFuture with a Resolve to come: the goroutine has not run yet. */
    constructor (outcome: T)
      ensures Pending() && this.outcome == outcome && !sent
    {
      this.outcome := outcome;
      slot, sent, received := None, false, 0;
    }

    /** The goroutine's send, or Resolve. */
    method Resolve()
      requires Pending() && !sent
      modifies this
      ensures Pending() && sent
    {
      slot, sent := Some(outcome), true;
    }

    /** <-f.ch */
    method Await() returns (v: T)
      requires Pending()
      modifies this
      ensures v == outcome && received == 1 && sent && slot == None
    {
      if !sent {
        Resolve();
      }
      v := slot.value;
      slot, received := None, received + 1;
    }
  }

  /** A buffered channel with its close flag. */
  class Chan<T> {
    const capacity: nat
    var buffer: seq<T>
    var closed: bool

    constructor (capacity: nat)
      ensures this.capacity == capacity && buffer == [] && !closed
    {
      this.capacity := capacity;
      buffer, closed := [], false;
    }

    /** v, ok := <-ch on a channel that holds a value or is closed */
    method Receive() returns (v: Option<T>)
      requires buffer != [] || closed
      modifies this`buffer
      ensures v == if old(buffer) == [] then None else Some(old(buffer)[0])
      ensures buffer == if old(buffer) == [] then [] else old(buffer)[1..]
    {
      if buffer == [] {
        v := None;
      } else {
        v, buffer := Some(buffer[0]), buffer[1..];
      }
    }
  }

  ghost predicate Distinct<T>(fs: seq<Future<T>>) {
    forall i, j | 0 <= i < j < |fs| :: fs[i] != fs[j]
  }

  /** The values of the first `n` futures, in input order. */
  ghost predicate Holds<T>(values: seq<T>, fs: seq<Future<T>>, n: nat) {
    n <= |fs| && |values| == n && forall i | 0 <= i < n :: values[i] == fs[i].outcome
  }

  /** Every future's value has been taken exactly once. */
  ghost predicate AllTaken<T>(fs: seq<Future<T>>)
    reads fs
  {
    forall i | 0 <= i < |fs| :: fs[i].received == 1
  }

  method AwaitAll<T(0)>(fs: seq<Future<T>>) returns (ret: array<T>)
    requires Distinct(fs) && forall i | 0 <= i < |fs| :: fs[i].Pending()
    modifies fs
    ensures fresh(ret) && ret.Length == |fs| && forall i | 0 <= i < |fs| :: ret[i] == fs[i].outcome
    ensures AllTaken(fs)
  {
    ret := new T[|fs|];
    for i := 0 to |fs|
      invariant forall j | 0 <= j < i :: fs[j].received == 1 && ret[j] == fs[j].outcome
      invariant forall j | i <= j < |fs| :: fs[j].Pending()
    {
      ret[i] := fs[i].Await();
    }
  }

  /** Entering the select evaluates the operand of its send, `<-f.ch`, before a case is chosen; only then
      does a full buffer make it take `default` and lose the value. With room for every future that never
      happens: one pass suffices, and the closed channel holds what AwaitAll returns. */
  method AwaitUnordered<T>(fs: seq<Future<T>>) returns (ret: Chan<T>, ghost passes: nat, ghost lost: int)
    requires Distinct(fs) && forall i | 0 <= i < |fs| :: fs[i].Pending()
    modifies fs
    ensures fresh(ret) && ret.closed && ret.capacity == |fs|
    ensures |ret.buffer| == |fs| && forall i | 0 <= i < |fs| :: ret.buffer[i] == fs[i].outcome
    ensures AllTaken(fs)
    ensures lost == 0 && passes == if |fs| == 0 then 0 else 1
  {
    ret := new Chan<T>(|fs|);
    var cnt := 0;
    passes, lost := 0, 0;
    while cnt < |fs|
      invariant fresh(ret) && ret.capacity == |fs| && !ret.closed && lost == 0
      invariant passes == 0 ==> cnt == 0 && ret.buffer == [] && forall i | 0 <= i < |fs| :: fs[i].Pending()
      invariant passes > 0 ==> passes == 1 && cnt == |fs| > 0 && Holds(ret.buffer, fs, |fs|) && AllTaken(fs)
      decreases |fs| - cnt
    {
      for i := 0 to |fs|
        invariant fresh(ret) && ret.capacity == |fs| && !ret.closed && lost == 0
        invariant cnt == i && Holds(ret.buffer, fs, i)
        invariant forall j | 0 <= j < i :: fs[j].received == 1
        invariant forall j | i <= j < |fs| :: fs[j].Pending()
      {
        var operand := fs[i].Await();
        if |ret.buffer| < ret.capacity {
          ret.buffer := ret.buffer + [operand];
          cnt := cnt + 1;
        } else {
          lost := lost + 1;
        }
      }
      passes := passes + 1;
    }
    ret.closed := true;
  }

  /** Other goroutines run: each future may be resolved, at any time. */
  method OthersResolve<T>(fs: seq<Future<T>>)
    requires Distinct(fs) && forall i | 0 <= i < |fs| :: fs[i].Pending()
    modifies fs
    ensures forall i | 0 <= i < |fs| :: fs[i].Pending() && (old(fs[i].sent) ==> fs[i].sent)
  {
    for i := 0 to |fs|
      invariant forall j | 0 <= j < |fs| :: fs[j].Pending() && (old(fs[j].sent) ==> fs[j].sent)
    {
      var resolves: bool := *;
      if resolves && !fs[i].sent {
        fs[i].Resolve();
      }
    }
  }

  /** One pass of AwaitAny's polling loop, with futures being resolved between any two polls. It takes the
      first future that is ready when polled, and no other; it cannot miss one that was ready before. */
  method PollAll<T>(fs: seq<Future<T>>) returns (v: Option<T>, ghost at: nat)
    requires Distinct(fs) && forall i | 0 <= i < |fs| :: fs[i].Pending()
    modifies fs
    ensures v.None? ==> forall i | 0 <= i < |fs| :: fs[i].Pending() && !old(fs[i].sent)
    ensures v.Some? ==> TookOnly(fs, v.value, at) && forall j | 0 <= j < at :: !old(fs[j].sent)
    ensures forall i | 0 <= i < |fs| && old(fs[i].sent) :: fs[i].sent
  {
    at := 0;
    for i := 0 to |fs|
      invariant forall j | 0 <= j < i :: !old(fs[j].sent)
      invariant forall j | 0 <= j < |fs| :: fs[j].Pending() && (old(fs[j].sent) ==> fs[j].sent)
    {
      OthersResolve(fs);
      if fs[i].slot.Some? {
        var x := fs[i].Await();
        return Some(x), i;
      }
    }
    v := None;
  }

  /** The value is that of the future at `at`, taken once; all others can still be awaited. */
  ghost predicate TookOnly<T>(fs: seq<Future<T>>, v: T, at: nat)
    reads fs
  {
    && at < |fs| && v == fs[at].outcome && fs[at].received == 1
    && forall j | 0 <= j < |fs| && j != at :: fs[j].Pending()
  }

  /** AwaitAny, for as many passes as it takes: it yields the value of exactly one future and takes no other.
      `polls` bounds the passes, since without any ready future they never end; if some future was ready at the
      start, the first pass finds one. */
  method AwaitAny<T>(fs: seq<Future<T>>, polls: nat) returns (v: Option<T>, ghost at: nat)
    requires Distinct(fs) && forall i | 0 <= i < |fs| :: fs[i].Pending()
    modifies fs
    ensures v.Some? ==> TookOnly(fs, v.value, at)
    ensures v.None? ==> forall i | 0 <= i < |fs| :: fs[i].Pending()
    ensures polls > 0 && (exists i :: 0 <= i < |fs| && old(fs[i].sent)) ==> v.Some?
  {
    v, at := None, 0;
    for n := 0 to polls
      invariant v.None? && forall i | 0 <= i < |fs| :: fs[i].Pending() && (old(fs[i].sent) ==> fs[i].sent)
      invariant n > 0 ==> forall i | 0 <= i < |fs| :: !old(fs[i].sent)
    {
      v, at := PollAll(fs);
      if v.Some? {
        return;
      }
    }
  }

  /** An error value; None is nil. */
  type Error = Option<string>

  /** Runs the strategies and consumes their results: it yields nil exactly when some strategy did. */
  method SetupWebRTC(strategies: seq<Future<Error>>) returns (result: Error)
    requires Distinct(strategies) && forall i | 0 <= i < |strategies| :: strategies[i].Pending()
    modifies strategies
    ensures result == None <==> exists i :: 0 <= i < |strategies| && strategies[i].outcome == None
    ensures result != None ==> result == Some("failed to setup webrtc")
  {
    var ch, _, _ := AwaitUnordered(strategies);
    ghost var all := ch.buffer;
    ghost var done := 0;
    while true
      invariant ch.closed && fresh(ch) && done <= |all| && ch.buffer == all[done..]
      invariant forall i | 0 <= i < done :: strategies[i].outcome != None
      decreases |all| - done
    {
      var received := ch.Receive();
      if received.None? {
        assert done == |strategies|;
        return Some("failed to setup webrtc");
      }
      assert received.value == strategies[done].outcome;
      if received.value == None {
        return None;
      }
      done := done + 1;
    }
  }
}
