/**
 What every mutation of the drafts has in common: each change is stamped and counted, and
 what has ended stays for its retention and goes after it
 (src/dashboard-session-drafts.ts:291-495, 518-630, 681-699).
 */
module DraftChanges {
  import opened Wrappers
  import opened Drafts
  import opened DraftsCoherence
  import opened FirstSend
  import opened FirstSendInvariant
  import opened FirstSendControl
  import opened FirstSendSafety
  import opened FirstSendRetry

  // ---- Stamps and counts --------------------------------------------------------------------

  // A ticket of the new records is an old one as it was, or was written at `now`.
  ghost predicate TicketStamped(a: Store, b: Store, now: Time, t: Id)
    requires t in b.tickets
  {
    (t in a.tickets && b.tickets[t] == a.tickets[t]) || b.tickets[t].updatedAt == now
  }

  // A draft is an old one as it was, or the next revision of one, or a new one.
  ghost predicate DraftStamped(a: Store, b: Store, now: Time, d: Id)
    requires d in b.drafts
  {
    || (d in a.drafts && b.drafts[d] == a.drafts[d])
    || (b.drafts[d].updatedAt == now
        && if d in a.drafts && b.drafts[d].createdAt == a.drafts[d].createdAt && b.drafts[d].revision != 1
           then b.drafts[d].revision == a.drafts[d].revision + 1 && b.drafts[d].spec == a.drafts[d].spec
           else b.drafts[d].revision == 1 && b.drafts[d].createdAt == now)
  }

  ghost predicate Stamped(a: Store, b: Store, now: Time) {
    && (forall t {:trigger TicketStamped(a, b, now, t)} | t in b.tickets :: TicketStamped(a, b, now, t))
    && (forall d {:trigger DraftStamped(a, b, now, d)} | d in b.drafts :: DraftStamped(a, b, now, d))
  }

  // Every client's mutation stamps and counts what it changes, and so does every transition of an
  // executor ...
  lemma MutationsStamp(v: Store, c: CreateRequest, d: Id, x: CancelRequest, r: SendRequest, t: Id, tr: Transition,
      id: Id, now: Time, limits: Limits)
    requires Coherent(v) && forall d | d in v.drafts :: v.drafts[d].revision >= 1
    ensures Create(v, c, id, now, limits).Write? ==> Stamped(v, Create(v, c, id, now, limits).next, now)
    ensures Cancel(v, d, x, now).Write? ==> Stamped(v, Cancel(v, d, x, now).next, now)
    ensures SubmitSend(v, d, r, id, now, limits).Write? ==> Stamped(v, SubmitSend(v, d, r, id, now, limits).next, now)
    ensures TransitionSend(v, t, tr, now).Write? ==> Stamped(v, TransitionSend(v, t, tr, now).next, now)
  {
    hide Coherent, Stamped;
    CreateStamps(v, c, id, now, limits);
    if Cancel(v, d, x, now).Write? { CancelStamps(v, d, x, now); }
    if SubmitSend(v, d, r, id, now, limits).Write? { SubmitStamps(v, d, r, id, now, limits); }
    if TransitionSend(v, t, tr, now).Write? { TransitionStamps(v, t, tr, now); }
  }

  lemma CreateStamps(v: Store, c: CreateRequest, id: Id, now: Time, limits: Limits)
    ensures Create(v, c, id, now, limits).Write? ==> Stamped(v, Create(v, c, id, now, limits).next, now)
  {
  }

  lemma CancelStamps(v: Store, d: Id, x: CancelRequest, now: Time)
    requires Coherent(v) && Cancel(v, d, x, now).Write? && v.drafts[d].revision >= 1
    ensures Stamped(v, Cancel(v, d, x, now).next, now)
  {
    assert DraftCoherent(v, d);
    var n := Cancel(v, d, x, now).next;
    hide Coherent, Cancel;
    assert d in v.drafts;
  }

  lemma SubmitStamps(v: Store, d: Id, r: SendRequest, id: Id, now: Time, limits: Limits)
    requires SubmitSend(v, d, r, id, now, limits).Write? && forall d | d in v.drafts :: v.drafts[d].revision >= 1
    ensures Stamped(v, SubmitSend(v, d, r, id, now, limits).next, now)
  {
  }

  lemma TransitionStamps(v: Store, t: Id, tr: Transition, now: Time)
    requires TransitionSend(v, t, tr, now).Write? && forall d | d in v.drafts :: v.drafts[d].revision >= 1
    ensures Stamped(v, TransitionSend(v, t, tr, now).next, now)
  {
  }

  // ... and a start, which changes only what was interrupted.
  lemma RecoverStamps(v: Store, now: Time, limits: Limits)
    requires Coherent(v) && forall d | d in v.drafts :: v.drafts[d].revision >= 1
    ensures Stamped(v, Recover(v, now, limits), now)
    ensures forall t | t in Recover(v, now, limits).tickets && !Interrupted(v.tickets[t]) ::
              Recover(v, now, limits).tickets[t] == v.tickets[t]
  {
    var n := Recover(v, now, limits);
    forall d | d in n.drafts ensures DraftStamped(v, n, now, d) { MarkedDraftIs(v, now, d); }
    hide Coherent;
  }

  // A start makes of an interrupted ticket an indeterminate one that says so, and of its draft
  // the same, and neither is pruned.
  lemma InterruptionIsRecorded(v: Store, now: Time, limits: Limits, t: Id)
    requires Coherent(v) && t in v.tickets && Interrupted(v.tickets[t])
    ensures
      var n, k := Recover(v, now, limits), v.tickets[t];
      && t in n.tickets
      && n.tickets[t] == k.(state := Indeterminate, updatedAt := now, error := Some(SendIndeterminate))
      && k.draftId in n.drafts && n.drafts[k.draftId].state.DraftIndeterminate?
      && n.drafts[k.draftId].materialization.Some?
      && n.drafts[k.draftId].materialization.value
         == Materialization(t, Indeterminate, k.session, Some(SendIndeterminate))
  {
    assert TicketCoherent(v, t);
    MarkedDraftIs(v, now, v.tickets[t].draftId);
    hide Coherent;
  }

  // A new draft is the request's, and nothing else is added.
  lemma CreationIsRecorded(v: Store, c: CreateRequest, id: Id, now: Time, limits: Limits)
    requires Create(v, c, id, now, limits).Write?
    ensures
      var m := Create(v, c, id, now, limits);
      var d := m.answer;
      && d.draftId == (if c.draftId.Some? then c.draftId.value else id) && d.spec == c.spec
      && d.createKey == c.key && d.createFingerprint == c.fingerprint && d.createdAt == now == d.updatedAt
      && d.state.Drafting? && d.revision == 1 && d.materialization.None? && d.cancelled.None?
      && d.draftId in m.next.drafts && m.next.drafts[d.draftId] == d
      && (forall o | o in m.next.drafts && o != d.draftId :: o in v.drafts && m.next.drafts[o] == v.drafts[o])
      && (forall t | t in m.next.tickets :: t in v.tickets && m.next.tickets[t] == v.tickets[t])
  {
  }

  // ---- Retention ---------------------------------------------------------------------------------

  // A record that has ended.
  datatype Ended = EndedTicket(ticketId: Id, ticket: Ticket) | EndedDraft(draftId: Id, draft: Draft)

  predicate HasEnded(e: Ended) {
    match e
    case EndedTicket(_, t) => t.state.Succeeded? || t.state.Failed? || t.state.Indeterminate?
    case EndedDraft(_, d) => !d.state.Drafting? && !d.state.Materializing?
  }

  function EndedAt(e: Ended): Time { if e.EndedTicket? then e.ticket.updatedAt else e.draft.updatedAt }

  ghost predicate Has(v: Store, e: Ended) {
    match e
    case EndedTicket(t, k) => t in v.tickets && v.tickets[t] == k
    case EndedDraft(d, r) => d in v.drafts && v.drafts[d] == r
  }

  ghost predicate HasAlways(s: Sys, e: Ended) {
    Has(s.mem, e) && Has(s.disk, e) && (s.pending.Some? ==> Has(s.pending.value.saved, e))
  }

  // The step prunes by a clock that is more than the retention after `at`.
  predicate Outdates(step: Step, limits: Limits, at: Time) {
    match step
    case CreateDraft(_, _, now) => at < now - limits.terminalRetention
    case Submit(_, _, _, now) => at < now - limits.terminalRetention
    case Restart(now, _) => at < now - limits.terminalRetention
    case _ => false
  }

  // A start that sets the file aside.
  ghost predicate SetsAside(s: Sys, step: Step, limits: Limits) {
    step.Restart? && !s.up && !ReadsBack(s.disk, limits)
  }

  lemma CreateKeepsEnded(v: Store, r: CreateRequest, id: Id, now: Time, limits: Limits, e: Ended)
    requires Has(v, e) && HasEnded(e) && !Outdates(CreateDraft(r, id, now), limits, EndedAt(e))
    ensures Create(v, r, id, now, limits).Write? ==> Has(Create(v, r, id, now, limits).next, e)
  {
  }

  lemma SubmitKeepsEnded(v: Store, d: Id, r: SendRequest, id: Id, now: Time, limits: Limits, e: Ended)
    requires Has(v, e) && HasEnded(e) && !Outdates(Submit(d, r, id, now), limits, EndedAt(e))
    requires e.EndedTicket? ==> e.ticketId != id
    ensures SubmitSend(v, d, r, id, now, limits).Write? ==> Has(SubmitSend(v, d, r, id, now, limits).next, e)
  {
  }

  lemma CancelKeepsEnded(v: Store, d: Id, r: CancelRequest, now: Time, e: Ended)
    requires Has(v, e) && HasEnded(e)
    ensures Cancel(v, d, r, now).Write? ==> Has(Cancel(v, d, r, now).next, e)
  {
  }

  lemma TransitionKeepsEnded(v: Store, t: Id, tr: Transition, now: Time, e: Ended)
    requires Coherent(v) && Has(v, e) && HasEnded(e) && (tr.expected.Queued? || tr.expected.Running?)
    ensures TransitionSend(v, t, tr, now).Write? ==> Has(TransitionSend(v, t, tr, now).next, e)
  {
    if t in v.tickets { assert TicketCoherent(v, t); }
    hide Coherent;
  }

  lemma RecoverKeepsEnded(v: Store, now: Time, limits: Limits, e: Ended)
    requires Coherent(v) && Has(v, e) && HasEnded(e) && !(EndedAt(e) < now - limits.terminalRetention)
    ensures Has(Recover(v, now, limits), e)
  {
    if e.EndedDraft? {
      MarkedDraftIs(v, now, e.draftId);
      if t :| t in v.tickets && v.tickets[t].draftId == e.draftId && Interrupted(v.tickets[t]) {
        assert TicketCoherent(v, t);
      }
      assert DraftCoherent(v, e.draftId);
    }
    hide Coherent;
  }

  lemma ClientKeepsEnded(s: Sys, step: Step, limits: Limits, e: Ended)
    requires Inv(s) && HasAlways(s, e) && HasEnded(e) && !Outdates(step, limits, EndedAt(e))
    requires step.CreateDraft? || step.CancelDraftStep? || step.CallSend? || step.Submit?
    ensures HasAlways(Do(s, step, limits, false), e)
  {
    if e.EndedTicket? { KnownIsUsed(s.mem, s.used, e.ticketId); }
    hide Has, HasEnded, Create, Cancel, SubmitSend, Inv, Outdates;
    match step
    case CreateDraft(r, id, now) => CreateKeepsEnded(s.mem, r, id, now, limits, e);
    case CancelDraftStep(d, r, now) => CancelKeepsEnded(s.mem, d, r, now, e);
    case Submit(d, r, id, now) => if id !in s.used { SubmitKeepsEnded(s.mem, d, r, id, now, limits, e); }
    case CallSend(_, _) =>
  }

  lemma ExecuteKeepsEnded(s: Sys, t: Id, answer: Answer, e: Ended)
    requires Coherent(s.mem) && HasAlways(s, e) && HasEnded(e) && t in s.runs
    ensures HasAlways(ExecuteStep(s, t, answer), e)
  {
    hide Has, HasEnded, ActionOf, TransitionSend, Coherent;
    var action := ActionOf(s.mem, t, s.runs[t], answer);
    ExpectsLive(s.mem, t, s.runs[t], answer);
    if action.Begin? { TransitionKeepsEnded(s.mem, t, action.tr, action.now, e); }
  }

  lemma RestartKeepsEnded(s: Sys, now: Time, writes: bool, limits: Limits, e: Ended)
    requires Inv(s) && HasAlways(s, e) && HasEnded(e) && !s.up && ReadsBack(s.disk, limits)
    requires !Outdates(Restart(now, writes), limits, EndedAt(e))
    ensures HasAlways(Do(s, Restart(now, writes), limits, false), e)
  {
    assert s.pending.None?;
    CoherentIn(s);
    RestartGives(s, now, writes, limits);
    RecoverKeepsEnded(s.disk, now, limits, e);
    hide Inv, Has, Recover, AnyInterrupted, Do;
  }

  lemma {:induction false} StepKeepsEnded(s: Sys, step: Step, limits: Limits, e: Ended)
    requires Inv(s) && HasAlways(s, e) && HasEnded(e)
    requires !Outdates(step, limits, EndedAt(e)) && !SetsAside(s, step, limits)
    ensures HasAlways(Do(s, step, limits, false), e)
  {
    hide Has, HasEnded, Inv, ExecuteStep, AfterCommit, AfterThrow, Spares, Recover;
    match step
    case Execute(t, answer) =>
      CoherentIn(s);
      if t in s.runs { ExecuteKeepsEnded(s, t, answer, e); }
    case Restart(now, writes) => if !s.up { RestartKeepsEnded(s, now, writes, limits, e); }
    case CreateDraft(_, _, _) => ClientKeepsEnded(s, step, limits, e);
    case CancelDraftStep(_, _, _) => ClientKeepsEnded(s, step, limits, e);
    case CallSend(_, _) => ClientKeepsEnded(s, step, limits, e);
    case Submit(_, _, _, _) => ClientKeepsEnded(s, step, limits, e);
    case _ =>
  }

  // What has ended and is on file stays as it is, in memory and on file, over every run whose
  // clocks stay within its retention and that sets no file aside.
  lemma {:induction false} EndedStays(s: Sys, more: seq<Step>, limits: Limits, e: Ended)
    requires Inv(s) && HasAlways(s, e) && HasEnded(e)
    requires forall k | 0 <= k < |more| :: !Outdates(more[k], limits, EndedAt(e))
    requires forall k | 0 <= k < |more| :: !SetsAside(Runs(s, more[..k], limits, false), more[k], limits)
    ensures HasAlways(Runs(s, more, limits, false), e)
    ensures Inv(Runs(s, more, limits, false))
    decreases |more|
  {
    if more != [] {
      hide Inv, HasAlways, HasEnded, Do, Outdates, SetsAside;
      var but := more[..|more| - 1];
      forall k | 0 <= k < |but| ensures !SetsAside(Runs(s, but[..k], limits, false), but[k], limits) {
        assert but[..k] == more[..k];
      }
      EndedStays(s, but, limits, e);
      StepKeeps(Runs(s, but, limits, false), more[|more| - 1], limits);
      StepKeepsEnded(Runs(s, but, limits, false), more[|more| - 1], limits, e);
    }
  }

  // ... and a creation, a send and a start leave nothing that ended longer ago, but for the
  // drafts whose ticket did not.
  ghost predicate Cleaned(v: Store, threshold: Time) {
    && (forall t | t in v.tickets :: !HasEnded(EndedTicket(t, v.tickets[t])) || v.tickets[t].updatedAt >= threshold)
    && (forall d | d in v.drafts :: !HasEnded(EndedDraft(d, v.drafts[d])) || v.drafts[d].updatedAt >= threshold
                                    || exists t :: t in v.tickets && v.tickets[t].draftId == d)
  }

  lemma NothingOlderStays(v: Store, c: CreateRequest, d: Id, r: SendRequest, id: Id, now: Time, limits: Limits)
    requires id !in v.tickets
    ensures
      var threshold := now - limits.terminalRetention;
      && (Create(v, c, id, now, limits).Write? ==> Cleaned(Create(v, c, id, now, limits).next, threshold))
      && (SubmitSend(v, d, r, id, now, limits).Write? ==> Cleaned(SubmitSend(v, d, r, id, now, limits).next, threshold))
      && Cleaned(Recover(v, now, limits), threshold)
  {
    CreateCleans(v, c, id, now, limits);
    SubmitCleans(v, d, r, id, now, limits);
    RecoverCleans(v, now, limits);
  }

  lemma CreateCleans(v: Store, c: CreateRequest, id: Id, now: Time, limits: Limits)
    ensures Create(v, c, id, now, limits).Write? ==>
              Cleaned(Create(v, c, id, now, limits).next, now - limits.terminalRetention)
  {
  }

  lemma SubmitCleans(v: Store, d: Id, r: SendRequest, id: Id, now: Time, limits: Limits)
    requires id !in v.tickets
    ensures SubmitSend(v, d, r, id, now, limits).Write? ==>
              Cleaned(SubmitSend(v, d, r, id, now, limits).next, now - limits.terminalRetention)
  {
    if SubmitSend(v, d, r, id, now, limits).Write? {
      var threshold := now - limits.terminalRetention;
      var p, n := Prune(v, threshold), SubmitSend(v, d, r, id, now, limits).next;
      PruneCleans(v, threshold);
      assert n.tickets == p.tickets[id := n.tickets[id]] && n.drafts == p.drafts[d := n.drafts[d]];
      assert n.drafts[d].state.Materializing? && n.tickets[id].state.Queued?;
      hide Prune, SubmitSend;
      forall c | c in n.drafts && c != d && HasEnded(EndedDraft(c, n.drafts[c])) && n.drafts[c].updatedAt < threshold
        ensures exists t :: t in n.tickets && n.tickets[t].draftId == c
      {
        var t :| t in p.tickets && p.tickets[t].draftId == c;
        assert n.tickets[t] == p.tickets[t];
      }
    }
  }

  lemma PruneCleans(v: Store, threshold: Time)
    ensures Cleaned(Prune(v, threshold), threshold) && forall t | t in Prune(v, threshold).tickets :: t in v.tickets
  {
  }

  lemma RecoverCleans(v: Store, now: Time, limits: Limits)
    ensures Cleaned(Recover(v, now, limits), now - limits.terminalRetention)
  {
    PruneCleans(MarkInterrupted(v, now), now - limits.terminalRetention);
    hide MarkInterrupted, Prune;
  }
}
