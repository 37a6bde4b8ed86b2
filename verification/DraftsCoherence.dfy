/** Every mutation of the draft store keeps drafts and tickets coherent. */
module DraftsCoherence {
  import opened Wrappers
  import opened Drafts

  // A generated id that no ticket has and no draft remembers.
  ghost predicate FreshTicketId(s: Store, id: Id) {
    && id !in s.tickets
    && (forall d | d in s.drafts && s.drafts[d].materialization.Some? ::
        s.drafts[d].materialization.value.ticketId != id)
  }

  // A draft is materializing exactly while a live ticket of its exists, and it
  // never has a second ticket.
  lemma LiveTicketExactlyWhileMaterializing(s: Store, d: Id)
    requires Coherent(s) && d in s.drafts
    ensures s.drafts[d].state.Materializing?
       <==> exists t :: t in s.tickets && s.tickets[t].draftId == d && !Terminal(s.tickets[t].state)
    ensures forall t, u | t in s.tickets && u in s.tickets && s.tickets[t].draftId == d == s.tickets[u].draftId ::
              t == u == s.tickets[t].ticketId
  {
    assert DraftCoherent(s, d);
    forall t | t in s.tickets && s.tickets[t].draftId == d
      ensures s.drafts[d].materialization == Some(MaterializationOf(s.tickets[t])) && s.tickets[t].ticketId == t
      ensures s.drafts[d].state == DraftStateOf(s.tickets[t].state) || Terminal(s.tickets[t].state)
    {
      assert TicketCoherent(s, t);
    }
    if s.drafts[d].state.Materializing? {
      var t := s.drafts[d].materialization.value.ticketId;
      assert t in s.tickets && s.tickets[t].draftId == d && !Terminal(s.tickets[t].state);
    }
  }

  lemma PruneKeeps(s: Store, threshold: Time)
    requires Coherent(s)
    ensures Coherent(Prune(s, threshold))
  {
    var p := Prune(s, threshold);
    forall t | t in p.tickets ensures TicketCoherent(p, t) {
      assert TicketCoherent(s, t);
    }
    forall d | d in p.drafts ensures DraftCoherent(p, d) {
      assert DraftCoherent(s, d);
    }
    forall c, d | SameCreateKey(p, c, d) ensures c == d {
      assert SameCreateKey(s, c, d);
    }
  }

  lemma NewDraftKeeps(p: Store, d: Draft)
    requires Coherent(p) && d.draftId !in p.drafts && d.state.Drafting? && d.materialization.None?
    requires forall c | c in p.drafts :: p.drafts[c].createKey != d.createKey
    ensures Coherent(p.(drafts := p.drafts[d.draftId := d]))
  {
    var n := p.(drafts := p.drafts[d.draftId := d]);
    forall t | t in n.tickets ensures TicketCoherent(n, t) {
      assert TicketCoherent(p, t);
    }
    forall c | c in n.drafts ensures DraftCoherent(n, c) {
      if c in p.drafts { assert DraftCoherent(p, c); }
    }
    forall a, b | SameCreateKey(n, a, b) ensures a == b {
      if a != d.draftId && b != d.draftId { assert SameCreateKey(p, a, b); }
    }
  }

  lemma CreateKeeps(s: Store, r: CreateRequest, newId: Id, now: Time, limits: Limits)
    requires Coherent(s) && Create(s, r, newId, now, limits).Write?
    ensures Coherent(Create(s, r, newId, now, limits).next)
  {
    PruneKeeps(s, now - limits.terminalRetention);
    NewDraftKeeps(Prune(s, now - limits.terminalRetention), Create(s, r, newId, now, limits).answer);
  }

  lemma CancelKeeps(s: Store, draftId: Id, r: CancelRequest, now: Time)
    requires Coherent(s) && Cancel(s, draftId, r, now).Write?
    ensures Coherent(Cancel(s, draftId, r, now).next)
  {
    var n := Cancel(s, draftId, r, now).next;
    var m := s.drafts[draftId].materialization;
    assert DraftCoherent(s, draftId);
    assert m.Some? && m.value.ticketId in s.tickets ==> TicketCoherent(s, m.value.ticketId);
    forall t | t in n.tickets ensures TicketCoherent(n, t) {
      assert TicketCoherent(s, t);
    }
    forall d | d in n.drafts ensures DraftCoherent(n, d) {
      assert DraftCoherent(s, d);
    }
    forall c, d | SameCreateKey(n, c, d) ensures c == d {
      assert SameCreateKey(s, c, d);
    }
  }

  lemma NewTicketKeeps(p: Store, d: Draft, t: Ticket)
    requires Coherent(p) && FreshTicketId(p, t.ticketId)
    requires t.draftId in p.drafts && p.drafts[t.draftId].state.Drafting?
    requires t.state.Queued? && t.phase.Starting? && t.session.None? && t.error.None?
    requires d.draftId == t.draftId && d.state.Materializing? && d.materialization == Some(MaterializationOf(t))
    requires d.createKey == p.drafts[t.draftId].createKey
    ensures Coherent(Store(p.drafts[t.draftId := d], p.tickets[t.ticketId := t]))
  {
    var n := Store(p.drafts[t.draftId := d], p.tickets[t.ticketId := t]);
    assert DraftCoherent(p, t.draftId);
    forall u | u in n.tickets ensures TicketCoherent(n, u) {
      if u != t.ticketId { assert TicketCoherent(p, u); }
    }
    forall c | c in n.drafts ensures DraftCoherent(n, c) {
      assert DraftCoherent(p, c);
    }
    forall a, b | SameCreateKey(n, a, b) ensures a == b {
      assert SameCreateKey(p, a, b);
    }
  }

  lemma SubmitNewKeeps(s: Store, draftId: Id, r: SendRequest, newId: Id, now: Time, limits: Limits)
    requires Coherent(s) && FreshTicketId(s, newId) && SubmitNew(s, draftId, r, newId, now, limits).Write?
    ensures Coherent(SubmitNew(s, draftId, r, newId, now, limits).next)
  {
    var p := Prune(s, now - limits.terminalRetention);
    PruneKeeps(s, now - limits.terminalRetention);
    var m := SubmitNew(s, draftId, r, newId, now, limits);
    assert DraftCoherent(s, draftId) && p.drafts[draftId] == s.drafts[draftId];
    hide Coherent;
    NewTicketKeeps(p, m.next.drafts[draftId], m.answer);
  }

  lemma SubmitKeeps(s: Store, draftId: Id, r: SendRequest, newId: Id, now: Time, limits: Limits)
    requires Coherent(s) && FreshTicketId(s, newId) && SubmitSend(s, draftId, r, newId, now, limits).Write?
    ensures Coherent(SubmitSend(s, draftId, r, newId, now, limits).next)
  {
    hide Coherent, SubmitNew, FreshTicketId;
    SubmitNewKeeps(s, draftId, r, newId, now, limits);
  }

  lemma TransitionKeeps(s: Store, ticketId: Id, tr: Transition, now: Time)
    requires Coherent(s) && TransitionSend(s, ticketId, tr, now).Write?
    requires tr.expected.Queued? || tr.expected.Running?
    ensures Coherent(TransitionSend(s, ticketId, tr, now).next)
  {
    var n := TransitionSend(s, ticketId, tr, now).next;
    assert TicketCoherent(s, ticketId);
    forall t | t in n.tickets ensures TicketCoherent(n, t) {
      assert TicketCoherent(s, t);
    }
    forall d | d in n.drafts ensures DraftCoherent(n, d) {
      assert DraftCoherent(s, d);
    }
    forall c, d | SameCreateKey(n, c, d) ensures c == d {
      assert SameCreateKey(s, c, d);
    }
  }

  lemma MarkedTicketCoherent(s: Store, now: Time, t: Id)
    requires Coherent(s) && t in s.tickets
    ensures TicketCoherent(MarkInterrupted(s, now), t)
  {
    assert TicketCoherent(s, t);
    LiveTicketExactlyWhileMaterializing(s, s.tickets[t].draftId);
    hide Coherent;
  }

  // A draft's one ticket decides what marking makes of it.
  lemma MarkedDraftIs(s: Store, now: Time, d: Id)
    requires Coherent(s) && d in s.drafts
    ensures
      var r, n := s.drafts[d], MarkInterrupted(s, now).drafts[d];
      if r.materialization.Some? && r.materialization.value.ticketId in s.tickets
         && Interrupted(s.tickets[r.materialization.value.ticketId])
      then n == Mirror(r, MarkTicket(s.tickets[r.materialization.value.ticketId], now), now)
      else n == r
  {
    forall t | t in s.tickets && s.tickets[t].draftId == d
      ensures s.drafts[d].materialization == Some(MaterializationOf(s.tickets[t])) && s.tickets[t].ticketId == t
    {
      assert TicketCoherent(s, t);
    }
    assert DraftCoherent(s, d);
    hide Coherent, Mirror;
  }

  lemma MarkedDraftCoherent(s: Store, now: Time, d: Id)
    requires Coherent(s) && d in s.drafts
    ensures DraftCoherent(MarkInterrupted(s, now), d)
  {
    assert DraftCoherent(s, d);
    MarkedDraftIs(s, now, d);
    var r := s.drafts[d];
    if r.materialization.Some? && r.materialization.value.ticketId in s.tickets {
      assert TicketCoherent(s, r.materialization.value.ticketId);
    }
    hide Coherent;
  }

  lemma MarkKeeps(s: Store, now: Time)
    requires Coherent(s)
    ensures Coherent(MarkInterrupted(s, now))
  {
    var n := MarkInterrupted(s, now);
    forall t | t in n.tickets ensures TicketCoherent(n, t) { MarkedTicketCoherent(s, now, t); }
    forall d | d in n.drafts ensures DraftCoherent(n, d) { MarkedDraftCoherent(s, now, d); }
    forall c, d | SameCreateKey(n, c, d) ensures c == d { assert SameCreateKey(s, c, d); }
  }

  lemma RecoverKeeps(s: Store, now: Time, limits: Limits)
    requires Coherent(s)
    ensures Coherent(Recover(s, now, limits))
  {
    MarkKeeps(s, now);
    PruneKeeps(MarkInterrupted(s, now), now - limits.terminalRetention);
  }

  // Recovering what a recovery left changes nothing.
  lemma RecoverTwice(s: Store, now: Time, limits: Limits)
    requires Coherent(s)
    ensures Recover(Recover(s, now, limits), now, limits) == Recover(s, now, limits)
  {
    var r := Recover(s, now, limits);
    assert forall t | t in r.tickets :: !Interrupted(r.tickets[t]);
    assert MarkInterrupted(r, now).tickets == r.tickets;
    assert MarkInterrupted(r, now).drafts == r.drafts;
    var p := Prune(r, now - limits.terminalRetention);
    assert p.tickets == r.tickets;
    assert p.drafts == r.drafts;
  }
}
