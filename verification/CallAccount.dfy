/** The books of one call: where every reported peer is, and how much work can still follow. */
module CallAccount {
  import opened Types
  import opened Calls
  import opened NodeSpec

  /** Two units of work for a candidate whose addresses may still be looked up, one for any other. */
  function Weight(candidates: seq<Peer>, resolved: set<Peer>): nat {
    if candidates == [] then 0
    else (if candidates[0] in resolved then 1 else 2) + Weight(candidates[1..], resolved)
  }

  function Potential(c: Call): nat {
    Weight(c.candidates, c.resolved) + (if c.inFlight then 1 else 0) + (if c.resolving then 1 else 0)
  }

  /** Each peer reported is in exactly one place: asked, given up, or still queued. */
  ghost predicate Partitioned(seen: set<Peer>, asked: seq<Peer>, dropped: seq<Peer>, queued: seq<Peer>) {
    multiset(asked) + multiset(dropped) + multiset(queued) == multiset(seen)
  }

  ghost predicate Accounted(c: Call, h: History) {
    && c.group == h.group && c.protocol == h.protocol && c.frame == h.frame
    && c.seen == h.reported
    && Partitioned(h.reported, h.asked, h.dropped, c.candidates)
    && multiset(h.looked) == multiset(c.resolved)
    && c.resolved <= c.seen
    && (forall p :: p in h.dropped ==> p in c.resolved)
    && (c.inFlight ==> h.asked != [])
    && h.completions + Potential(c) <= 2 * |h.reported|
  }

  lemma {:induction false} WeightOfConcat(a: seq<Peer>, b: seq<Peer>, resolved: set<Peer>)
    ensures Weight(a + b, resolved) == Weight(a, resolved) + Weight(b, resolved)
  {
    if a == [] {
      assert a + b == b;
    } else {
      assert (a + b)[1..] == a[1..] + b;
      WeightOfConcat(a[1..], b, resolved);
    }
  }

  lemma {:induction false} WeightShrinks(candidates: seq<Peer>, resolved: set<Peer>, p: Peer)
    ensures Weight(candidates, resolved + {p}) <= Weight(candidates, resolved)
  {
    if candidates != [] {
      WeightShrinks(candidates[1..], resolved, p);
    }
  }

  lemma WeightOfInserted(a: seq<Peer>, peer: Peer, b: seq<Peer>, resolved: set<Peer>)
    ensures Weight(a + [peer] + b, resolved) <= Weight(a + b, resolved) + 2
  {
    WeightOfConcat(a, b, resolved);
    WeightOfConcat(a + [peer], b, resolved);
    WeightOfConcat(a, [peer], resolved);
  }

  /** Placing one more candidate adds at most two units. */
  lemma WeightOfPlaced(candidates: seq<Peer>, peer: Peer, preferred: bool, failed: map<Peer, Time>, now: Time,
                       resolved: set<Peer>)
    ensures Weight(Place(candidates, peer, preferred, failed, now), resolved) <= Weight(candidates, resolved) + 2
  {
    var placed := Place(candidates, peer, preferred, failed, now);
    if Penalized(failed, now, peer) {
      WeightOfConcat(candidates, [peer], resolved);
    } else if preferred {
      WeightOfConcat([peer], candidates, resolved);
    } else {
      var i := FirstPenalized(candidates, failed, now);
      assert candidates[..i] + candidates[i..] == candidates;
      WeightOfInserted(candidates[..i], peer, candidates[i..], resolved);
    }
  }

  /** What the search for the next candidate does with the queue. */
  lemma {:induction false} ChooseSplits(candidates: seq<Peer>, resolved: set<Peer>, dialable: set<Peer>)
    ensures var pick := Choose(candidates, resolved, dialable);
            && multiset(candidates) == multiset(pick.dropped) + multiset(pick.rest)
                                       + (if pick.choice.Ask? then multiset{pick.choice.peer} else multiset{})
            && (forall p :: p in pick.dropped ==> p in resolved && p !in dialable)
            && match pick.choice {
                 case Ask(p) => p in dialable && Weight(pick.rest, resolved) < Weight(candidates, resolved)
                 case Resolve(p) =>
                   && p !in resolved && p !in dialable && pick.rest != [] && pick.rest[0] == p
                   && Weight(pick.rest, resolved + {p}) < Weight(candidates, resolved)
                 case Nobody => pick.rest == []
               }
  {
    if candidates != [] {
      var peer, rest := candidates[0], candidates[1..];
      assert candidates == [peer] + rest;
      if peer !in dialable && peer !in resolved {
        WeightShrinks(rest, resolved, peer);
      } else if peer !in dialable {
        ChooseSplits(rest, resolved, dialable);
      }
    }
  }

  /** Trying the next candidate keeps the books, and never adds work. */
  lemma ActKeepsAccount(c: Call, h: History, dialable: set<Peer>)
    requires Accounted(c, h) && !c.inFlight && !c.resolving
    ensures var pick := Choose(c.candidates, c.resolved, dialable);
            var c' := CallAfter(c, pick);
            Accounted(c', HistoryAfter(h, pick)) && Potential(c') <= Potential(c)
  {
    var pick := Choose(c.candidates, c.resolved, dialable);
    ChooseSplits(c.candidates, c.resolved, dialable);
    assert multiset(h.dropped + pick.dropped) == multiset(h.dropped) + multiset(pick.dropped);
    match pick.choice {
      case Ask(p) => AskKeepsAccount(c, h, pick, p);
      case Resolve(p) => ResolveKeepsAccount(c, h, pick, p);
      case Nobody => assert multiset(pick.rest) == multiset{};
    }
  }

  lemma AskKeepsAccount(c: Call, h: History, pick: Pick, p: Peer)
    requires Accounted(c, h) && !c.inFlight && !c.resolving && pick.choice == Ask(p)
    requires multiset(c.candidates) == multiset(pick.dropped) + multiset(pick.rest) + multiset{p}
    requires forall q :: q in pick.dropped ==> q in c.resolved
    requires Weight(pick.rest, c.resolved) < Weight(c.candidates, c.resolved)
    ensures var c' := CallAfter(c, pick);
            Accounted(c', HistoryAfter(h, pick)) && Potential(c') <= Potential(c)
  {
    var h' := HistoryAfter(h, pick);
    assert multiset(h'.asked) == multiset(h.asked) + multiset{p};
    assert multiset(h'.dropped) == multiset(h.dropped) + multiset(pick.dropped);
  }

  lemma ResolveKeepsAccount(c: Call, h: History, pick: Pick, p: Peer)
    requires Accounted(c, h) && !c.inFlight && !c.resolving && pick.choice == Resolve(p)
    requires multiset(c.candidates) == multiset(pick.dropped) + multiset(pick.rest)
    requires forall q :: q in pick.dropped ==> q in c.resolved
    requires p !in c.resolved && pick.rest != [] && pick.rest[0] == p
    requires Weight(pick.rest, c.resolved + {p}) < Weight(c.candidates, c.resolved)
    ensures var c' := CallAfter(c, pick);
            Accounted(c', HistoryAfter(h, pick)) && Potential(c') <= Potential(c)
  {
    var h' := HistoryAfter(h, pick);
    assert p in multiset(pick.rest);
    assert p in multiset(c.seen);
    assert multiset(h'.looked) == multiset(h.looked) + multiset{p};
    assert multiset(c.resolved + {p}) == multiset(c.resolved) + multiset{p};
    assert multiset(h'.dropped) == multiset(h.dropped) + multiset(pick.dropped);
  }

  /** A completion pays one unit. */
  lemma CompletionKeepsAccount(c: Call, h: History, failure: nat)
    requires Accounted(c, h) && (c.inFlight || c.resolving)
    ensures var h' := h.(completions := h.completions + 1);
            && (c.inFlight ==> Accounted(c.(inFlight := false, lastFailure := failure), h'))
            && (c.resolving ==> Accounted(c.(resolving := false), h'))
  {
  }

  lemma PlacedCosts(c: Call, peer: Peer, lastSuccess: map<Key, Peer>, failed: map<Peer, Time>, now: Time)
    requires peer !in c.seen
    ensures Weight(Enqueue(c, peer, lastSuccess, failed, now).candidates, c.resolved)
            <= Weight(c.candidates, c.resolved) + 2
  {
    var preferred := c.group in lastSuccess && lastSuccess[c.group] == peer;
    WeightOfPlaced(c.candidates, peer, preferred, failed, now, c.resolved);
  }

  lemma EnqueueKeepsAccount(c: Call, h: History, peer: Peer, lastSuccess: map<Key, Peer>, failed: map<Peer, Time>,
                            now: Time)
    requires Accounted(c, h)
    ensures var c' := Enqueue(c, peer, lastSuccess, failed, now);
            var h' := h.(reported := h.reported + {peer});
            && Accounted(c', h')
            && c' == c.(seen := c'.seen, candidates := c'.candidates)
            && Potential(c') <= Potential(c) + 2 * (|h'.reported| - |h.reported|)
  {
    EnqueueAddsOnce(c, peer, lastSuccess, failed, now);
    if peer in c.seen {
      assert h.reported + {peer} == h.reported;
    } else {
      hide Enqueue, Weight;
      PlacedCosts(c, peer, lastSuccess, failed, now);
      assert |h.reported + {peer}| == |h.reported| + 1;
      assert multiset(h.reported + {peer}) == multiset(h.reported) + multiset{peer};
    }
  }

  /** Reports keep the books; each peer that is new adds at most two units of work. */
  lemma {:induction false} ReportsKeepAccount(
      c: Call, h: History, reports: seq<Report>, local: Peer, lastSuccess: map<Key, Peer>, failed: map<Peer, Time>)
    requires Accounted(c, h)
    ensures var c' := QueueReports(c, reports, local, lastSuccess, failed);
            var h' := h.(reported := h.reported + Reported(reports, local));
            && Accounted(c', h')
            && c' == c.(seen := c'.seen, candidates := c'.candidates)
            && Potential(c') <= Potential(c) + 2 * (|h'.reported| - |h.reported|)
  {
    hide Accounted, Enqueue, Potential, Reported;
    if reports == [] {
      NothingReported(h, local);
    } else {
      var before, last := reports[..|reports| - 1], reports[|reports| - 1];
      ReportsKeepAccount(c, h, before, local, lastSuccess, failed);
      ReportedGrows(before, last, local);
      assert reports == before + [last];
      var c1 := QueueReports(c, before, local, lastSuccess, failed);
      var h1 := h.(reported := h.reported + Reported(before, local));
      if last.peer != local {
        EnqueueKeepsAccount(c1, h1, last.peer, lastSuccess, failed, last.at);
        assert h1.reported + {last.peer} == h.reported + Reported(reports, local);
      }
    }
  }

  lemma NothingReported(h: History, local: Peer)
    ensures h.(reported := h.reported + Reported([], local)) == h
  {
    assert h.reported + Reported([], local) == h.reported;
  }

  lemma ReportedGrows(before: seq<Report>, last: Report, local: Peer)
    ensures Reported(before + [last], local)
            == Reported(before, local) + (if last.peer == local then {} else {last.peer})
  {
    assert last in before + [last];
    assert forall r :: r in before + [last] <==> r in before || r == last;
  }
}
