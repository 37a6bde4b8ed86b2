/** Client mutations keep the first-send invariant. */
module FirstSendClients {
  import opened Wrappers
  import opened Drafts
  import opened DraftsCoherence
  import opened FirstSend
  import opened FirstSendInvariant

  // ---- What a client's mutation may do to the records ---------------------------------

  ghost predicate DraftMoves(a: Store, b: Store, d: Id, issued: Option<Id>)
    requires d in b.drafts
  {
    var m := b.drafts[d].materialization;
    || (d in a.drafts && a.drafts[d] == b.drafts[d])
    || m.None?
    || (issued == Some(m.value.ticketId) && b.drafts[d].state.Materializing?)
    || (Remembers(a, d, m.value.ticketId) && m.value.ticketId in a.tickets
        && !Terminal(a.tickets[m.value.ticketId].state)
        && b.drafts[d].state == if Interrupted(a.tickets[m.value.ticketId]) then DraftIndeterminate else Cancelled)
  }

  ghost predicate TicketArrives(b: Store, t: Id, issued: Option<Id>)
    requires t in b.tickets
  {
    issued == Some(t) && b.tickets[t].state.Queued? && b.tickets[t].phase.Starting?
  }

  ghost predicate ClientStep(a: Store, b: Store, issued: Option<Id>) {
    && Coherent(b)
    && (forall t {:trigger LeftAlone(a, b, t)} | t in a.tickets :: LeftAlone(a, b, t))
    && (forall t {:trigger TicketArrives(b, t, issued)} | t in b.tickets && t !in a.tickets ::
        TicketArrives(b, t, issued))
    && (forall d {:trigger DraftMoves(a, b, d, issued)} | d in b.drafts :: DraftMoves(a, b, d, issued))
  }

  lemma CreateIsClientStep(s: Store, r: CreateRequest, newId: Id, now: Time, limits: Limits)
    requires Coherent(s) && Create(s, r, newId, now, limits).Write?
    ensures ClientStep(s, Create(s, r, newId, now, limits).next, None)
  {
    CreateKeeps(s, r, newId, now, limits);
  }

  lemma CancelIsClientStep(s: Store, d: Id, r: CancelRequest, now: Time)
    requires Coherent(s) && Cancel(s, d, r, now).Write?
    ensures ClientStep(s, Cancel(s, d, r, now).next, None)
  {
    CancelKeeps(s, d, r, now);
    var m := s.drafts[d].materialization;
    assert DraftCoherent(s, d);
    assert m.Some? && m.value.ticketId in s.tickets ==> TicketCoherent(s, m.value.ticketId);
  }

  lemma SubmitIsClientStep(s: Store, d: Id, r: SendRequest, newId: Id, now: Time, limits: Limits)
    requires Coherent(s) && FreshTicketId(s, newId) && SubmitSend(s, d, r, newId, now, limits).Write?
    ensures ClientStep(s, SubmitSend(s, d, r, newId, now, limits).next, Some(newId))
  {
    SubmitKeeps(s, d, r, newId, now, limits);
  }

  // ---- Soundness of the new version ------------------------------------------------------

  lemma ClientSound(a: Store, b: Store, issued: Option<Id>, used: set<Id>, admits: multiset<Id>, accepted: multiset<Id>)
    requires Sound(a, used, admits, accepted) && ClientStep(a, b, issued)
    requires issued.Some? ==> admits[issued.value] == 0 && issued.value in used
    requires forall t :: accepted[t] <= admits[t]
    ensures Sound(b, used, admits, accepted)
  {
    forall t | t in b.tickets ensures TicketTrue(b, t, admits, accepted) {
      if t in a.tickets {
        assert LeftAlone(a, b, t) && TicketTrue(a, t, admits, accepted) && TicketCoherent(a, t);
      } else {
        assert TicketArrives(b, t, issued);
      }
    }
    forall d | d in b.drafts ensures DraftTrue(b, d, admits, accepted) {
      assert DraftMoves(a, b, d, issued);
      if d in a.drafts { assert DraftTrue(a, d, admits, accepted); }
      if b.drafts[d].materialization.Some? {
        var t := b.drafts[d].materialization.value.ticketId;
        if t in a.tickets { assert TicketTrue(a, t, admits, accepted) && TicketCoherent(a, t); }
      }
    }
    forall id | id !in used ensures FreshTicketId(b, id) {
      assert FreshTicketId(a, id);
      assert id in b.tickets ==> TicketArrives(b, id, issued);
      forall d | d in b.drafts && b.drafts[d].materialization.Some?
        ensures b.drafts[d].materialization.value.ticketId != id
      {
        assert DraftMoves(a, b, d, issued);
      }
    }
  }

  lemma ClientUndecided(a: Store, b: Store, issued: Option<Id>, t: Id)
    requires Coherent(a) && ClientStep(a, b, issued) && Undecided(a, t) && issued != Some(t)
    ensures Undecided(b, t)
  {
    assert t in a.tickets ==> LeftAlone(a, b, t);
    assert t in b.tickets && t !in a.tickets ==> TicketArrives(b, t, issued);
    forall d | Remembers(b, d, t) ensures b.drafts[d].state.Materializing? || b.drafts[d].state.DraftIndeterminate? {
      assert DraftMoves(a, b, d, issued);
      assert Remembers(a, d, t);
    }
  }

  lemma ClientPcFits(a: Store, b: Store, issued: Option<Id>, pc: Pc, t: Id)
    requires Coherent(a) && ClientStep(a, b, issued) && PcFits(pc, a, t) && issued != Some(t)
    ensures PcFits(pc, b, t)
  {
    if InWindow(pc) { ClientUndecided(a, b, issued, t); }
    assert t in a.tickets ==> LeftAlone(a, b, t);
    assert t in b.tickets && t !in a.tickets ==> TicketArrives(b, t, issued);
  }

  // ---- Queueing the mutation ----------------------------------------------------------------

  ghost function Queued(s: Sys, next: Store, owner: Owner, issued: Option<Id>): Sys {
    s.(mem := next, pending := Some(Pending(s.mem, owner)),
       used := if issued.Some? then s.used + {issued.value} else s.used)
  }

  ghost predicate MayQueue(s: Sys, next: Store, owner: Owner, issued: Option<Id>) {
    && Inv(s) && s.up && s.pending.None? && !owner.Executor?
    && ClientStep(s.mem, next, issued)
    && (issued.Some? ==> issued.value !in s.used)
    && (owner.Submitter? ==> issued == Some(owner.ticketId))
  }

  lemma IssuedGrows(v: Store, used: set<Id>, admits: multiset<Id>, accepted: multiset<Id>, more: set<Id>)
    requires Sound(v, used, admits, accepted) && used <= more
    ensures Sound(v, more, admits, accepted)
  {
    forall id | id !in more ensures FreshTicketId(v, id) {
      assert id !in used;
    }
  }

  lemma QueuedVersions(s: Sys, next: Store, owner: Owner, issued: Option<Id>)
    requires MayQueue(s, next, owner, issued)
    ensures Versions(Queued(s, next, owner, issued))
  {
    var n := Queued(s, next, owner, issued);
    IssuedGrows(s.mem, s.used, s.admits, s.accepted, n.used);
    IssuedGrows(s.disk, s.used, s.admits, s.accepted, n.used);
    forall t ensures s.accepted[t] <= s.admits[t] { assert CountsFit(s, t); }
    if issued.Some? { assert CountsFit(s, issued.value); }
    ClientSound(s.mem, next, issued, n.used, s.admits, s.accepted);
  }

  lemma QueuedFlight(s: Sys, next: Store, owner: Owner, issued: Option<Id>)
    requires MayQueue(s, next, owner, issued)
    ensures Flight(Queued(s, next, owner, issued)) && Durable(Queued(s, next, owner, issued))
  {
    var n := Queued(s, next, owner, issued);
    forall t | t in s.mem.tickets ensures InFlight(n, t) {
      assert LeftAlone(s.mem, next, t);
    }
    forall t | t in next.tickets && t !in s.mem.tickets ensures NewlyIssued(n, t) {
      assert TicketArrives(next, t, issued) && CountsFit(s, t) && FreshTicketId(s.disk, t);
    }
    forall t | t in s.mem.tickets ensures OnDisk(n, t) {
      assert OnDisk(s, t);
    }
    forall t | t in n.disk.tickets ensures EndedIfDropped(n, t) { assert EndedIfDropped(s, t); }
  }

  lemma QueuedRuns(s: Sys, next: Store, owner: Owner, issued: Option<Id>)
    requires MayQueue(s, next, owner, issued)
    ensures AllRunsFit(Queued(s, next, owner, issued)) && Watched(Queued(s, next, owner, issued))
  {
    var n := Queued(s, next, owner, issued);
    forall t | t in n.runs ensures RunFits(n, t) {
      assert RunFits(s, t);
      ClientPcFits(s.mem, next, issued, s.runs[t].pc, t);
    }
    forall t | t in next.tickets ensures Attended(next, t, n.runs) && Offered(n, next, t) {
      if t in s.mem.tickets { assert LeftAlone(s.mem, next, t) && Attended(s.mem, t, s.runs) && Offered(s, s.mem, t); }
      else { assert TicketArrives(next, t, issued); }
    }
    SameOffers(s, n);
  }

  lemma QueuedKeeps(s: Sys, next: Store, owner: Owner, issued: Option<Id>)
    requires MayQueue(s, next, owner, issued)
    ensures Inv(Queued(s, next, owner, issued))
  {
    var n := Queued(s, next, owner, issued);
    QueuedVersions(s, next, owner, issued);
    QueuedFlight(s, next, owner, issued);
    QueuedRuns(s, next, owner, issued);
    forall t ensures CountsFit(n, t) { assert CountsFit(s, t); }
  }

  lemma ClientStepsKeep(s: Sys, step: Step, limits: Limits)
    requires Inv(s) && (step.CreateDraft? || step.CancelDraftStep? || step.CallSend? || step.Submit?)
    ensures Inv(Do(s, step, limits, false))
  {
    if step.CallSend? {
      SameFacts(s, Do(s, step, limits, false));
    } else if s.up && s.pending.None? {
      match step
      case CreateDraft(r, id, now) =>
        var m := Create(s.mem, r, id, now, limits);
        if m.Write? {
          CreateIsClientStep(s.mem, r, id, now, limits);
          QueuedKeeps(s, m.next, Client, None);
        }
      case CancelDraftStep(d, r, now) =>
        var m := Cancel(s.mem, d, r, now);
        if m.Write? {
          CancelIsClientStep(s.mem, d, r, now);
          QueuedKeeps(s, m.next, Client, None);
        }
      case Submit(d, r, id, now) =>
        if (d, r) in s.waiting && id !in s.used {
          var n := s.(waiting := s.waiting - multiset{(d, r)});
          SameFacts(s, n);
          SubmitKeepsInv(n, d, r, id, now, limits);
        }
      case _ =>
    }
  }

  lemma SubmitKeepsInv(s: Sys, d: Id, r: SendRequest, id: Id, now: Time, limits: Limits)
    requires Inv(s) && s.up && s.pending.None? && id !in s.used
    ensures Inv(RunSubmit(s, d, r, id, now, limits))
  {
    var m := SubmitSend(s.mem, d, r, id, now, limits);
    if m.Write? {
      assert FreshTicketId(s.mem, id);
      SubmitIsClientStep(s.mem, d, r, id, now, limits);
      QueuedKeeps(s, m.next, Submitter(id), Some(id));
    } else if m.Reply? && !Terminal(m.answer.state) {
      var t := m.answer.ticketId;
      RepliesKnownTicket(s.mem, d, r, id, now, limits);
      assert t !in s.used ==> FreshTicketId(s.mem, t);
      ToLaunchKeeps(s, t);
    }
  }

  lemma RepliesKnownTicket(s: Store, d: Id, r: SendRequest, id: Id, now: Time, limits: Limits)
    requires Coherent(s) && SubmitSend(s, d, r, id, now, limits).Reply?
    ensures SubmitSend(s, d, r, id, now, limits).answer.ticketId in s.tickets
  {
    var t :| t in s.tickets && s.tickets[t] == SubmitSend(s, d, r, id, now, limits).answer;
    assert TicketCoherent(s, t);
  }

  lemma ToLaunchKeeps(s: Sys, t: Id)
    requires Inv(s) && s.up && t in s.used
    ensures Inv(s.(toLaunch := s.toLaunch + {t}))
  {
    SameFacts(s, s.(toLaunch := s.toLaunch + {t}));
  }

  // `waiting` appears in no fact, toLaunch in none but its own bound.
  lemma SameFacts(s: Sys, n: Sys)
    requires Inv(s)
    requires n == s.(waiting := n.waiting, toLaunch := n.toLaunch) && n.toLaunch <= n.used
    requires !s.up ==> n.toLaunch == {}
    ensures Inv(n)
  {
    forall t | n.pending.Some? && t in n.pending.value.saved.tickets ensures InFlight(n, t) { assert InFlight(s, t); }
    forall t | n.pending.Some? && t in n.mem.tickets && t !in n.pending.value.saved.tickets ensures NewlyIssued(n, t) {
      assert NewlyIssued(s, t);
    }
    forall t | t in Settled(n).tickets ensures OnDisk(n, t) { assert OnDisk(s, t); }
    forall t | t in n.disk.tickets ensures EndedIfDropped(n, t) { assert EndedIfDropped(s, t); }
    forall t | t in n.runs ensures RunFits(n, t) { assert RunFits(s, t); }
    forall t ensures CountsFit(n, t) { assert CountsFit(s, t); }
    SameOffers(s, n);
  }

  // Offers are kept where counts and executors are.
  lemma SameOffers(s: Sys, n: Sys)
    requires n.admits == s.admits && n.runs == s.runs
    ensures forall v | AllOffered(s, v) :: AllOffered(n, v)
  {
    forall v | AllOffered(s, v) ensures AllOffered(n, v) {
      forall t | t in v.tickets ensures Offered(n, v, t) { assert Offered(s, v, t); }
    }
  }
}
