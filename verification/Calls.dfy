/** One call in progress, and the order in which its candidates are tried. */
module Calls {
  import opened Types

  /** A failed peer goes to the end of every queue for five minutes. */
  const FAILURE_PENALTY: Time := 5 * 60 * 1000

  const FAIL_TIMEOUT: nat := 1
  const FAIL_UNREACHABLE: nat := 2
  const FAIL_REFUSED: nat := 3

  datatype Call = Call(
    group: Key,
    protocol: nat,
    frame: Bytes,
    candidates: seq<Peer>,
    seen: set<Peer>,       // every peer ever queued
    resolved: set<Peer>,   // those that had their address lookup
    inFlight: bool,
    resolving: bool,
    lookupRunning: bool,
    deadline: Time,
    lastFailure: nat)

  predicate Penalized(failed: map<Peer, Time>, now: Time, p: Peer) {
    p in failed && Since(now, failed[p]) < FAILURE_PENALTY
  }

  /** The index of the first penalized candidate, or the length. */
  function FirstPenalized(candidates: seq<Peer>, failed: map<Peer, Time>, now: Time): (i: nat)
    ensures i <= |candidates|
    ensures forall j :: 0 <= j < i ==> !Penalized(failed, now, candidates[j])
    ensures i < |candidates| ==> Penalized(failed, now, candidates[i])
  {
    if candidates == [] || Penalized(failed, now, candidates[0]) then 0
    else 1 + FirstPenalized(candidates[1..], failed, now)
  }

  function Place(candidates: seq<Peer>, peer: Peer, preferred: bool, failed: map<Peer, Time>, now: Time): seq<Peer> {
    if Penalized(failed, now, peer) then candidates + [peer]
    else if preferred then [peer] + candidates
    else
      var i := FirstPenalized(candidates, failed, now);
      candidates[..i] + [peer] + candidates[i..]
  }

  function Enqueue(call: Call, peer: Peer, lastSuccess: map<Key, Peer>, failed: map<Peer, Time>, now: Time): Call {
    if peer in call.seen then call
    else
      var preferred := call.group in lastSuccess && lastSuccess[call.group] == peer;
      call.(seen := call.seen + {peer},
            candidates := Place(call.candidates, peer, preferred, failed, now))
  }

  /** The queueing itself: the position of the first penalized candidate is searched from the front. */
  method Queue(call: Call, peer: Peer, lastSuccess: map<Key, Peer>, failed: map<Peer, Time>,
               now: Time) returns (r: Call)
    ensures r == Enqueue(call, peer, lastSuccess, failed, now)
  {
    if peer in call.seen {
      return call;
    }
    r := call.(seen := call.seen + {peer});
    if call.group in lastSuccess && lastSuccess[call.group] == peer && !Penalized(failed, now, peer) {
      r := r.(candidates := [peer] + r.candidates);
    } else if Penalized(failed, now, peer) {
      r := r.(candidates := r.candidates + [peer]);
    } else {
      var position := 0;
      while position < |call.candidates| && !Penalized(failed, now, call.candidates[position])
        invariant position <= |call.candidates|
        invariant FirstPenalized(call.candidates, failed, now)
                  == position + FirstPenalized(call.candidates[position..], failed, now)
      {
        position := position + 1;
      }
      r := r.(candidates := r.candidates[..position] + [peer] + r.candidates[position..]);
    }
  }

  lemma PlaceAddsOne(candidates: seq<Peer>, peer: Peer, preferred: bool, failed: map<Peer, Time>, now: Time)
    ensures multiset(Place(candidates, peer, preferred, failed, now)) == multiset(candidates) + multiset{peer}
    ensures |Place(candidates, peer, preferred, failed, now)| == |candidates| + 1
  {
    InsertAddsOne(candidates, FirstPenalized(candidates, failed, now), peer);
    assert multiset([peer] + candidates) == multiset([peer]) + multiset(candidates);
  }

  lemma InsertAddsOne(s: seq<Peer>, i: nat, x: Peer)
    requires i <= |s|
    ensures multiset(s[..i] + [x] + s[i..]) == multiset(s) + multiset{x}
  {
    assert s == s[..i] + s[i..];
  }

  /** Queueing adds a peer at most once, loses nobody and changes nothing else of the call. */
  lemma EnqueueAddsOnce(call: Call, peer: Peer, lastSuccess: map<Key, Peer>, failed: map<Peer, Time>, now: Time)
    ensures var r := Enqueue(call, peer, lastSuccess, failed, now);
            && r == call.(seen := call.seen + {peer}, candidates := r.candidates)
            && multiset(r.candidates)
               == multiset(call.candidates) + (if peer in call.seen then multiset{} else multiset{peer})
  {
    if peer in call.seen {
      assert call.seen + {peer} == call.seen;
    } else {
      var preferred := call.group in lastSuccess && lastSuccess[call.group] == peer;
      PlaceAddsOne(call.candidates, peer, preferred, failed, now);
    }
  }

  /** Whatever the queue looks like, a new peer without a penalty comes before every penalized one. */
  lemma PenalizedWait(call: Call, peer: Peer, lastSuccess: map<Key, Peer>, failed: map<Peer, Time>, now: Time, k: nat)
    requires peer !in call.seen && !Penalized(failed, now, peer)
    requires peer !in call.candidates
    requires var r := Enqueue(call, peer, lastSuccess, failed, now);
             k < |r.candidates| && Penalized(failed, now, r.candidates[k])
    ensures peer in Enqueue(call, peer, lastSuccess, failed, now).candidates[..k]
  {
    var r := Enqueue(call, peer, lastSuccess, failed, now);
    if call.group in lastSuccess && lastSuccess[call.group] == peer {
      assert r.candidates[..k][0] == peer;
    } else {
      var i := FirstPenalized(call.candidates, failed, now);
      assert r.candidates[i] == peer;
      assert k > i;
      assert r.candidates[..k][i] == peer;
    }
  }

  // -------- the order for one clock and one memory

  function EnqueueAll(call: Call, peers: seq<Peer>, lastSuccess: map<Key, Peer>, failed: map<Peer, Time>,
                      now: Time): Call {
    if peers == [] then call
    else
      var last := |peers| - 1;
      Enqueue(EnqueueAll(call, peers[..last], lastSuccess, failed, now), peers[last], lastSuccess, failed, now)
  }

  /** Each peer once, where it was reported first. */
  function FirstReports(peers: seq<Peer>): (r: seq<Peer>)
    ensures Elements(r) == Elements(peers)
    ensures Distinct(r)
  {
    if peers == [] then []
    else
      var r, last := FirstReports(peers[..|peers| - 1]), peers[|peers| - 1];
      assert peers == peers[..|peers| - 1] + [last];
      assert last in r <==> last in Elements(r);
      var all := if last in r then r else r + [last];
      assert forall p :: p in Elements(all) <==> p in Elements(r) || p == last;
      all
  }

  /** The peers with and without a penalty, in order; the best one is left out of the latter. */
  function Late(peers: seq<Peer>, failed: map<Peer, Time>, now: Time): seq<Peer> {
    if peers == [] then []
    else
      var last := peers[|peers| - 1];
      Late(peers[..|peers| - 1], failed, now) + (if Penalized(failed, now, last) then [last] else [])
  }

  function Early(peers: seq<Peer>, best: Option<Peer>, failed: map<Peer, Time>, now: Time): seq<Peer> {
    if peers == [] then []
    else
      var last := peers[|peers| - 1];
      Early(peers[..|peers| - 1], best, failed, now)
      + (if !Penalized(failed, now, last) && best != Some(last) then [last] else [])
  }

  lemma {:induction false} EarlyAndLate(peers: seq<Peer>, best: Option<Peer>, failed: map<Peer, Time>, now: Time)
    ensures forall i :: 0 <= i < |Early(peers, best, failed, now)| ==>
              !Penalized(failed, now, Early(peers, best, failed, now)[i])
    ensures forall i :: 0 <= i < |Late(peers, failed, now)| ==> Penalized(failed, now, Late(peers, failed, now)[i])
  {
    if peers != [] {
      EarlyAndLate(peers[..|peers| - 1], best, failed, now);
    }
  }

  function Front(peers: seq<Peer>, best: Option<Peer>, failed: map<Peer, Time>, now: Time): seq<Peer> {
    if best.Some? && best.value in peers && !Penalized(failed, now, best.value) then [best.value] else []
  }

  function InThreeParts(once: seq<Peer>, best: Option<Peer>, failed: map<Peer, Time>, now: Time): seq<Peer> {
    Front(once, best, failed, now) + Early(once, best, failed, now) + Late(once, failed, now)
  }

  /** The order promised: the last good node, then the rest as reported, those that failed recently at the end. */
  function PromisedOrder(peers: seq<Peer>, best: Option<Peer>, failed: map<Peer, Time>, now: Time): seq<Peer> {
    InThreeParts(FirstReports(peers), best, failed, now)
  }

  function Best(group: Key, lastSuccess: map<Key, Peer>): Option<Peer> {
    if group in lastSuccess then Some(lastSuccess[group]) else None
  }

  /** In a queue of unpenalized peers followed by penalized ones, the first penalized one is the border. */
  lemma FirstPenalizedIsBorder(good: seq<Peer>, bad: seq<Peer>, failed: map<Peer, Time>, now: Time)
    requires forall i :: 0 <= i < |good| ==> !Penalized(failed, now, good[i])
    requires bad != [] ==> Penalized(failed, now, bad[0])
    ensures FirstPenalized(good + bad, failed, now) == |good|
  {
    var queue := good + bad;
    assert forall i :: 0 <= i < |good| ==> queue[i] == good[i];
    assert bad != [] ==> queue[|good|] == bad[0];
  }

  /** Queueing any list of providers into an empty queue gives the promised order, without duplicates. */
  lemma {:induction false} QueueIsPromisedOrder(
      call: Call, peers: seq<Peer>, lastSuccess: map<Key, Peer>, failed: map<Peer, Time>, now: Time)
    requires call.candidates == [] && call.seen == {}
    ensures var r := EnqueueAll(call, peers, lastSuccess, failed, now);
            && r.candidates == PromisedOrder(peers, Best(call.group, lastSuccess), failed, now)
            && r.seen == Elements(peers) && r.group == call.group
  {
    if peers != [] {
      var before, last := peers[..|peers| - 1], peers[|peers| - 1];
      assert peers == before + [last];
      QueueIsPromisedOrder(call, before, lastSuccess, failed, now);
      var c := EnqueueAll(call, before, lastSuccess, failed, now);
      var best := Best(call.group, lastSuccess);
      assert Elements(peers) == Elements(before) + {last};
      if last in before {
        assert last in Elements(before);
        assert FirstReports(peers) == FirstReports(before);
      } else {
        assert last !in Elements(before);
        OrderGrows(FirstReports(before), last, best, failed, now);
      }
    }
  }

  lemma OrderGrows(once: seq<Peer>, last: Peer, best: Option<Peer>, failed: map<Peer, Time>, now: Time)
    requires last !in once
    ensures InThreeParts(once + [last], best, failed, now)
            == Place(InThreeParts(once, best, failed, now), last, best == Some(last), failed, now)
  {
    assert (once + [last])[..|once + [last]| - 1] == once;
    if Penalized(failed, now, last) {
      assert Front(once + [last], best, failed, now) == Front(once, best, failed, now);
    } else if best == Some(last) {
      assert Front(once, best, failed, now) == [];
    } else {
      OrderGrowsInTheMiddle(once, last, best, failed, now);
    }
  }

  lemma OrderGrowsInTheMiddle(once: seq<Peer>, last: Peer, best: Option<Peer>, failed: map<Peer, Time>, now: Time)
    requires last !in once && !Penalized(failed, now, last) && best != Some(last)
    ensures InThreeParts(once + [last], best, failed, now)
            == Place(InThreeParts(once, best, failed, now), last, false, failed, now)
  {
    var front, early, late := Front(once, best, failed, now), Early(once, best, failed, now), Late(once, failed, now);
    assert InThreeParts(once + [last], best, failed, now) == front + (early + [last]) + late by {
      assert (once + [last])[..|once + [last]| - 1] == once;
      assert Front(once + [last], best, failed, now) == front;
    }
    assert front + (early + [last]) + late == (front + early) + [last] + late;
    EarlyAndLate(once, best, failed, now);
    PlacedInTheMiddle(front + early, late, last, failed, now);
  }

  lemma PlacedInTheMiddle(good: seq<Peer>, bad: seq<Peer>, x: Peer, failed: map<Peer, Time>, now: Time)
    requires !Penalized(failed, now, x)
    requires forall i :: 0 <= i < |good| ==> !Penalized(failed, now, good[i])
    requires bad != [] ==> Penalized(failed, now, bad[0])
    ensures Place(good + bad, x, false, failed, now) == good + [x] + bad
  {
    FirstPenalizedIsBorder(good, bad, failed, now);
    SplitAt(good, bad, x);
  }

  lemma SplitAt(a: seq<Peer>, b: seq<Peer>, x: Peer)
    ensures (a + b)[..|a|] + [x] + (a + b)[|a|..] == a + [x] + b
  {
    assert (a + b)[..|a|] == a && (a + b)[|a|..] == b;
  }
}
