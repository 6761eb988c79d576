/** Who may be asked for a call, and what makes an answer count, over the histories of all calls. */
module CallRights {
  import opened Types
  import opened Calls
  import opened NodeSpec

  /** The one peer a pinned call may ask; nobody when the key is no ed25519 key. */
  function Target(prims: Primitives, pinned: Key): set<Peer> {
    match prims.peerOf(pinned)
    case Some(p) => {p}
    case None => {}
  }

  ghost predicate AskedRightly(cfg: Config, h: History) {
    match h.pinned
    case Some(k) => h.reported == Target(cfg.prims, k)
    case None => cfg.localPeer !in h.reported
  }

  ghost predicate AnsweredRightly(cfg: Config, h: History) {
    match h.outcome
    case Answered(peer, frame, nowMs) =>
      Accept(cfg.prims, peer, h.group, frame, nowMs).Some? && peer in h.asked
    case _ => true
  }

  ghost predicate Rightful(cfg: Config, ledger: map<nat, History>) {
    forall id :: id in ledger ==> AskedRightly(cfg, ledger[id]) && AnsweredRightly(cfg, ledger[id])
  }

  /** Only a call to a group looks for providers. */
  ghost predicate LookupsUnpinned(providerLookups: map<nat, nat>, ledger: map<nat, History>) {
    forall q :: q in providerLookups ==> Past(ledger, providerLookups[q]).pinned.None?
  }

  lemma RightfulWith(cfg: Config, ledger: map<nat, History>, id: nat, h: History)
    requires Rightful(cfg, ledger) && AskedRightly(cfg, h) && AnsweredRightly(cfg, h)
    ensures Rightful(cfg, ledger[id := h])
  {
  }

  lemma UnpinnedWith(providerLookups: map<nat, nat>, ledger: map<nat, History>, id: nat, h: History)
    requires LookupsUnpinned(providerLookups, ledger) && h.pinned == Past(ledger, id).pinned
    ensures LookupsUnpinned(providerLookups, ledger[id := h])
  {
  }

  /** A history that goes on without more reports. */
  lemma GoesOnRightly(cfg: Config, ledger: map<nat, History>, providerLookups: map<nat, nat>, id: nat, h: History)
    requires Rightful(cfg, ledger) && LookupsUnpinned(providerLookups, ledger) && id in ledger
    requires h.pinned == ledger[id].pinned && h.reported == ledger[id].reported && AnsweredRightly(cfg, h)
    ensures Rightful(cfg, ledger[id := h]) && LookupsUnpinned(providerLookups, ledger[id := h])
  {
    UnpinnedWith(providerLookups, ledger, id, h);
    RightfulWith(cfg, ledger, id, h);
  }

  lemma ActKeepsRights(s: State, cfg: Config, id: nat, c: Call, pick: Pick)
    requires Rightful(cfg, s.ledger) && LookupsUnpinned(s.providerLookups, s.ledger)
    requires id in s.ledger && s.ledger[id].outcome.Pending?
    ensures var s' := Act(s, id, c, pick);
            Rightful(cfg, s'.ledger) && LookupsUnpinned(s'.providerLookups, s'.ledger)
  {
    var h := HistoryAfter(Past(s.ledger, id), pick);
    ActLeaves(s, id, c, pick);
    if pick.choice.Nobody? && !c.lookupRunning {
      GiveUpShape(s, id, c, pick);
      GoesOnRightly(cfg, s.ledger, s.providerLookups, id, h.(outcome := Exhausted(c.lastFailure)));
    } else {
      TryShape(s, id, c, pick);
      GoesOnRightly(cfg, s.ledger, s.providerLookups, id, h);
    }
  }

  lemma EndKeepsRights(s: State, cfg: Config, id: nat, outcome: Outcome, event: Event)
    requires Rightful(cfg, s.ledger) && LookupsUnpinned(s.providerLookups, s.ledger) && id in s.ledger
    requires AnsweredRightly(cfg, s.ledger[id].(outcome := outcome))
    ensures var s' := End(s, id, outcome, event);
            Rightful(cfg, s'.ledger) && LookupsUnpinned(s'.providerLookups, s'.ledger)
  {
    GoesOnRightly(cfg, s.ledger, s.providerLookups, id, s.ledger[id].(outcome := outcome));
  }

  lemma CompleteKeepsRights(s: State, cfg: Config, id: nat, c: Call)
    requires Rightful(cfg, s.ledger) && LookupsUnpinned(s.providerLookups, s.ledger) && id in s.ledger
    ensures var s' := Complete(s, id, c);
            Rightful(cfg, s'.ledger) && LookupsUnpinned(s'.providerLookups, s'.ledger)
  {
    GoesOnRightly(cfg, s.ledger, s.providerLookups, id, OneMore(s.ledger, id)[id]);
  }

  lemma HearKeepsRights(s: State, cfg: Config, id: nat, reports: seq<Report>)
    requires Rightful(cfg, s.ledger) && LookupsUnpinned(s.providerLookups, s.ledger)
    requires id in s.calls && id in s.ledger && s.ledger[id].pinned.None?
    ensures var s' := Hear(s, cfg, id, reports);
            Rightful(cfg, s'.ledger) && LookupsUnpinned(s'.providerLookups, s'.ledger)
  {
    var h := s.ledger[id];
    var h' := h.(reported := h.reported + Reported(reports, cfg.localPeer));
    assert AskedRightly(cfg, h');
    assert AnsweredRightly(cfg, h');
    UnpinnedWith(s.providerLookups, s.ledger, id, h');
    RightfulWith(cfg, s.ledger, id, h');
  }

  lemma LookingKeepsRights(s: State, cfg: Config, id: nat, group: Key, node: Option<Key>, protocol: nat,
                           payload: Bytes, deadline: Time)
    requires Rightful(cfg, s.ledger) && LookupsUnpinned(s.providerLookups, s.ledger)
    requires id !in s.ledger && protocol < |cfg.rpcProtocols|
    requires forall q :: q in s.providerLookups ==> s.providerLookups[q] != id
    ensures var s' := Looking(s, cfg, id, group, node, protocol, payload, deadline);
            Rightful(cfg, s'.ledger) && LookupsUnpinned(s'.providerLookups, s'.ledger)
  {
    var s' := Looking(s, cfg, id, group, node, protocol, payload, deadline);
    assert AskedRightly(cfg, s'.ledger[id]) by {
      assert Elements(s'.calls[id].candidates) == if node.Some? then Target(cfg.prims, node.value) else {};
    }
    RightfulWith(cfg, s.ledger, id, s'.ledger[id]);
  }
}
