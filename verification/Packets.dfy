/**
  Keyed packets: what SendOffer, SendAnswer and SendIceCandidate put on the shared
  channels, each addressed by a host id or by an answerer id.
 */
module Packets {

  type Key = string

  datatype Packet<T> = Packet(key: Key, body: T)

  ghost predicate NoDup<T>(xs: seq<T>) {
    forall i, j | 0 <= i < j < |xs| :: xs[i] != xs[j]
  }

  /** The bodies of the packets addressed to `k`, in order. */
  function Stream<T>(ps: seq<Packet<T>>, k: Key): seq<T> {
    if |ps| == 0 then []
    else Stream(ps[..|ps| - 1], k) + (if ps[|ps| - 1].key == k then [ps[|ps| - 1].body] else [])
  }

  lemma StreamAppend<T>(ps: seq<Packet<T>>, p: Packet<T>, k: Key)
    ensures Stream(ps + [p], k) == Stream(ps, k) + (if p.key == k then [p.body] else [])
  {
    assert (ps + [p])[..|ps|] == ps;
  }

  lemma {:induction false} StreamConcat<T>(ps: seq<Packet<T>>, qs: seq<Packet<T>>, k: Key)
    ensures Stream(ps + qs, k) == Stream(ps, k) + Stream(qs, k)
  {
    if |qs| == 0 {
      assert ps + qs == ps;
    } else {
      var n := |qs| - 1;
      assert ps + qs == (ps + qs[..n]) + [qs[n]];
      StreamAppend(ps + qs[..n], qs[n], k);
      StreamConcat(ps, qs[..n], k);
    }
  }

  /** A body is in the stream of `k` exactly when some packet carries it to `k`. */
  lemma {:induction false} StreamMembers<T>(ps: seq<Packet<T>>, k: Key, v: T)
    ensures v in Stream(ps, k) <==> Packet(k, v) in ps
  {
    if |ps| > 0 {
      var n := |ps| - 1;
      assert ps == ps[..n] + [ps[n]];
      StreamMembers(ps[..n], k, v);
    }
  }

  // ----- what one handler receives from a channel -----

  /** Of the values sent on a channel, those that handler `h` took; `takers[i]` took `sent[i]`. */
  function Served<T>(sent: seq<T>, takers: seq<nat>, h: nat): seq<T>
    requires |takers| <= |sent|
  {
    if |takers| == 0 then []
    else
      var n := |takers| - 1;
      Served(sent, takers[..n], h) + (if takers[n] == h then [sent[n]] else [])
  }

  /** Later sends do not change what was received. */
  lemma {:induction false} ServedStays<T>(sent: seq<T>, sent': seq<T>, takers: seq<nat>, h: nat)
    requires |takers| <= |sent| && sent <= sent'
    ensures Served(sent', takers, h) == Served(sent, takers, h)
  {
    if |takers| > 0 {
      ServedStays(sent, sent', takers[..|takers| - 1], h);
    }
  }

  lemma ServedTake<T>(sent: seq<T>, takers: seq<nat>, taker: nat, h: nat)
    requires |takers| < |sent|
    ensures Served(sent, takers + [taker], h) == Served(sent, takers, h) + (if taker == h then [sent[|takers|]] else [])
  {
    assert (takers + [taker])[..|takers|] == takers;
  }

  lemma {:induction false} ServedMember<T>(sent: seq<T>, takers: seq<nat>, h: nat, v: T)
    requires |takers| <= |sent| && v in Served(sent, takers, h)
    ensures exists i :: 0 <= i < |takers| && takers[i] == h && sent[i] == v
  {
    var n := |takers| - 1;
    if v in Served(sent, takers[..n], h) {
      ServedMember(sent, takers[..n], h, v);
      var i :| 0 <= i < |takers[..n]| && takers[..n][i] == h && sent[i] == v;
      assert takers[i] == h;
    } else {
      assert takers[n] == h && sent[n] == v;
    }
  }

  lemma {:induction false} ServedNothing<T>(sent: seq<T>, takers: seq<nat>, h: nat)
    requires |takers| <= |sent| && h !in takers
    ensures Served(sent, takers, h) == []
  {
    if |takers| > 0 {
      ServedNothing(sent, takers[..|takers| - 1], h);
    }
  }

  /** Who takes once is served once. */
  lemma {:induction false} ServedOnce<T>(sent: seq<T>, takers: seq<nat>, h: nat)
    requires |takers| <= |sent| && NoDup(takers)
    ensures |Served(sent, takers, h)| <= 1
  {
    if |takers| > 0 {
      var n := |takers| - 1;
      if takers[n] == h {
        ServedNothing(sent, takers[..n], h);
      } else {
        ServedOnce(sent, takers[..n], h);
      }
    }
  }
}
