/**
 Retries and races of the draft store's clients, over every run: what a published create,
 cancel or send leaves behind for as long as its record is there
 (src/dashboard-session-drafts.ts:291-495).
 */
module FirstSendRetry {
  import opened Wrappers
  import opened Drafts
  import opened DraftsCoherence
  import opened FirstSend
  import opened FirstSendInvariant
  import opened FirstSendClients
  import opened FirstSendControl
  import opened FirstSendSafety

  // What a record keeps: a ticket the request it was made for, a draft the key it was created
  // under, a cancelled draft the key it was cancelled under, and any draft its revision or a
  // later one.
  datatype Pin =
    | OfTicket(ticketId: Id, made: Ticket)
    | OfCreation(draftId: Id, key: Id, fingerprint: Digest)
    | OfCancel(draftId: Id, key: Id, fingerprint: Digest)
    | OfRevision(draftId: Id, atLeast: nat)

  predicate SameRequest(k: Ticket, k': Ticket) {
    && k'.ticketId == k.ticketId && k'.draftId == k.draftId && k'.draftRevision == k.draftRevision
    && k'.requestId == k.requestId && k'.idempotencyKey == k.idempotencyKey && k'.fingerprint == k.fingerprint
    && k'.message == k.message && k'.targetSession == k.targetSession && k'.submittedAt == k.submittedAt
  }

  predicate DraftKeeps(d: Draft, p: Pin)
    requires !p.OfTicket?
  {
    match p
    case OfCreation(_, key, fingerprint) => d.createKey == key && d.createFingerprint == fingerprint
    case OfCancel(_, key, fingerprint) =>
      d.cancelled == Some((key, fingerprint)) && (d.state.Cancelled? || d.state.DraftIndeterminate?)
    case OfRevision(_, atLeast) => d.revision >= atLeast
  }

  ghost predicate PinnedIn(v: Store, p: Pin) {
    if p.OfTicket? then p.ticketId in v.tickets ==> SameRequest(p.made, v.tickets[p.ticketId])
    else p.draftId in v.drafts ==> DraftKeeps(v.drafts[p.draftId], p)
  }

  ghost predicate Pinned(s: Sys, p: Pin) {
    && PinnedIn(s.mem, p) && PinnedIn(s.disk, p)
    && (s.pending.Some? ==> PinnedIn(s.pending.value.saved, p))
    && (p.OfTicket? ==> p.ticketId in s.used)
  }

  // A later creation of a draft under the same id, once the old one was pruned, makes another.
  predicate Remakes(step: Step, p: Pin) {
    step.CreateDraft? && !p.OfTicket?
    && (if step.createRequest.draftId.Some? then step.createRequest.draftId.value else step.newDraftId) == p.draftId
    && !(p.OfCreation? && step.createRequest.key == p.key && step.createRequest.fingerprint == p.fingerprint)
  }

  // ---- Each mutation keeps what is pinned --------------------------------------------------

  lemma CreatePins(v: Store, r: CreateRequest, id: Id, now: Time, limits: Limits, p: Pin)
    requires PinnedIn(v, p) && !Remakes(CreateDraft(r, id, now), p)
    ensures Create(v, r, id, now, limits).Write? ==> PinnedIn(Create(v, r, id, now, limits).next, p)
  {
  }

  lemma CancelPins(v: Store, d: Id, r: CancelRequest, now: Time, p: Pin)
    requires Coherent(v) && PinnedIn(v, p)
    ensures Cancel(v, d, r, now).Write? ==> PinnedIn(Cancel(v, d, r, now).next, p)
  {
    if d in v.drafts { assert DraftCoherent(v, d); }
    hide Coherent;
  }

  lemma SubmitPins(v: Store, d: Id, r: SendRequest, id: Id, now: Time, limits: Limits, p: Pin)
    requires Coherent(v) && PinnedIn(v, p) && (p.OfTicket? ==> p.ticketId != id)
    ensures SubmitSend(v, d, r, id, now, limits).Write? ==> PinnedIn(SubmitSend(v, d, r, id, now, limits).next, p)
  {
    hide Coherent;
  }

  lemma TransitionPins(v: Store, t: Id, tr: Transition, now: Time, p: Pin)
    requires Coherent(v) && PinnedIn(v, p) && (tr.expected.Queued? || tr.expected.Running?)
    ensures TransitionSend(v, t, tr, now).Write? ==> PinnedIn(TransitionSend(v, t, tr, now).next, p)
  {
    if t in v.tickets { assert TicketCoherent(v, t); }
    hide Coherent;
  }

  lemma RecoverPins(v: Store, now: Time, limits: Limits, p: Pin)
    requires Coherent(v) && PinnedIn(v, p)
    ensures PinnedIn(Recover(v, now, limits), p)
  {
    if !p.OfTicket? && p.draftId in v.drafts {
      MarkedDraftIs(v, now, p.draftId);
      var m := MarkInterrupted(v, now).drafts[p.draftId];
      if t :| t in v.tickets && v.tickets[t].draftId == p.draftId && Interrupted(v.tickets[t]) {
        assert TicketCoherent(v, t);
      }
    }
    hide Coherent;
  }

  // ---- Each step does ----------------------------------------------------------------------

  lemma ClientPins(s: Sys, step: Step, limits: Limits, p: Pin)
    requires Inv(s) && Pinned(s, p) && !Remakes(step, p)
    requires step.CreateDraft? || step.CancelDraftStep? || step.CallSend? || step.Submit?
    ensures Pinned(Do(s, step, limits, false), p)
  {
    hide PinnedIn, Create, Cancel, SubmitSend, Inv, Remakes;
    assert Coherent(s.mem) by { CoherentIn(s); }
    match step
    case CreateDraft(r, id, now) => CreatePins(s.mem, r, id, now, limits, p);
    case CancelDraftStep(d, r, now) => CancelPins(s.mem, d, r, now, p);
    case Submit(d, r, id, now) => if id !in s.used { SubmitPins(s.mem, d, r, id, now, limits, p); }
    case CallSend(_, _) =>
  }

  lemma CoherentIn(s: Sys)
    requires Inv(s)
    ensures Coherent(s.mem) && Coherent(s.disk)
  {
  }

  lemma ExpectsLive(mem: Store, t: Id, run: Run, answer: Answer)
    ensures
      var action := ActionOf(mem, t, run, answer);
      action.Begin? ==> action.tr.expected.Queued? || action.tr.expected.Running?
  {
  }

  lemma ExecutePins(s: Sys, t: Id, answer: Answer, p: Pin)
    requires Coherent(s.mem) && Pinned(s, p) && t in s.runs
    ensures Pinned(ExecuteStep(s, t, answer), p)
  {
    hide PinnedIn, ActionOf, TransitionSend, BeginTransition, Coherent;
    var a := ActionOf(s.mem, t, s.runs[t], answer);
    ExpectsLive(s.mem, t, s.runs[t], answer);
    if a.Begin? { BeginPins(s, t, a.tr, a.now, a.writing, a.conflict, a.refused, p); }
  }

  lemma BeginPins(s: Sys, t: Id, tr: Transition, now: Time, writing: Pc, conflict: Pc, refused: Pc, p: Pin)
    requires Coherent(s.mem) && Pinned(s, p) && t in s.runs && (tr.expected.Queued? || tr.expected.Running?)
    ensures Pinned(BeginTransition(s, t, tr, now, writing, conflict, refused), p)
  {
    TransitionPins(s.mem, t, tr, now, p);
    hide PinnedIn, TransitionSend, Coherent;
  }

  lemma RestartPins(s: Sys, now: Time, writes: bool, limits: Limits, p: Pin)
    requires Inv(s) && Pinned(s, p) && !s.up
    ensures Pinned(Do(s, Restart(now, writes), limits, false), p)
  {
    var found := Found(s, limits);
    assert s.pending.None?;
    CoherentIn(s);
    NothingPins(p);
    FoundSound(s, limits);
    RestartGives(s, now, writes, limits);
    hide Inv, PinnedIn, Recover, AnyInterrupted, Do;
    RecoverPins(found, now, limits, p);
  }

  lemma NothingPins(p: Pin)
    ensures PinnedIn(EMPTY, p)
  {
  }

  lemma {:induction false} StepPins(s: Sys, step: Step, limits: Limits, p: Pin)
    requires Inv(s) && Pinned(s, p) && !Remakes(step, p)
    ensures Pinned(Do(s, step, limits, false), p)
  {
    hide PinnedIn, Inv, ExecuteStep, AfterCommit, AfterThrow, Spares, Recover;
    match step
    case Execute(t, answer) =>
      CoherentIn(s);
      if t in s.runs { ExecutePins(s, t, answer, p); }
    case Restart(now, writes) => if !s.up { RestartPins(s, now, writes, limits, p); }
    case CreateDraft(_, _, _) => ClientPins(s, step, limits, p);
    case CancelDraftStep(_, _, _) => ClientPins(s, step, limits, p);
    case CallSend(_, _) => ClientPins(s, step, limits, p);
    case Submit(_, _, _, _) => ClientPins(s, step, limits, p);
    case _ =>
  }

  ghost predicate NeverRemade(steps: seq<Step>, p: Pin) {
    forall k | 0 <= k < |steps| :: !Remakes(steps[k], p)
  }

  lemma {:induction false} RunPins(s: Sys, more: seq<Step>, limits: Limits, p: Pin)
    requires Inv(s) && Pinned(s, p) && NeverRemade(more, p)
    ensures Inv(Runs(s, more, limits, false)) && Pinned(Runs(s, more, limits, false), p)
    decreases |more|
  {
    if more != [] {
      hide Inv, Pinned, Do, Remakes;
      var but := more[..|more| - 1];
      RunPins(s, but, limits, p);
      StepKeeps(Runs(s, but, limits, false), more[|more| - 1], limits);
      StepPins(Runs(s, but, limits, false), more[|more| - 1], limits, p);
    }
  }

  // ---- A send -------------------------------------------------------------------------------

  // The queue runs the send, and its write lands.
  ghost function Sent(s: Sys, d: Id, r: SendRequest, id: Id, now: Time, limits: Limits): Sys
    requires s.pending.None? && SubmitSend(s.mem, d, r, id, now, limits).Write?
  {
    Commit(RunSubmit(s, d, r, id, now, limits))
  }

  lemma SentKeeps(s: Sys, d: Id, r: SendRequest, id: Id, now: Time, limits: Limits)
    requires Inv(s) && s.up && s.pending.None? && id !in s.used && SubmitSend(s.mem, d, r, id, now, limits).Write?
    ensures
      var b := Sent(s, d, r, id, now, limits);
      && Inv(b) && b.pending.None? && b.disk == b.mem && id in b.used
      && id in b.mem.tickets && d in b.mem.drafts && d in s.mem.drafts
      && b.mem.tickets[id] == SubmitSend(s.mem, d, r, id, now, limits).answer
      && b.mem.drafts[d].revision == s.mem.drafts[d].revision + 1
  {
    SubmitKeepsInv(s, d, r, id, now, limits);
    CommitKeeps(RunSubmit(s, d, r, id, now, limits));
    hide Inv;
  }

  lemma SendIsRecorded(s: Store, d: Id, r: SendRequest, id: Id, now: Time, limits: Limits)
    requires SubmitSend(s, d, r, id, now, limits).Write?
    ensures
      var t := SubmitSend(s, d, r, id, now, limits).answer;
      && t.ticketId == id && t.draftId == d && t.idempotencyKey == r.key && t.fingerprint == r.fingerprint
      && t.requestId == r.requestId && t.message == r.message && t.targetSession == r.target
      && t.draftRevision == r.expectedRevision && t.submittedAt == now && t.state.Queued?
      && d in s.drafts && s.drafts[d].revision == r.expectedRevision
  {
  }

  // In coherent records a draft has one ticket, so a key finds it.
  lemma SendFound(v: Store, t: Id, r: SendRequest, id: Id, now: Time, limits: Limits)
    requires Coherent(v) && t in v.tickets && v.tickets[t].idempotencyKey == r.key
    ensures SubmitSend(v, v.tickets[t].draftId, r, id, now, limits)
         == if v.tickets[t].fingerprint == r.fingerprint then Reply(v.tickets[t]) else Reject(IdempotencyConflict)
  {
    var d := v.tickets[t].draftId;
    forall u | u in v.tickets && v.tickets[u].draftId == d ensures u == t {
      assert TicketCoherent(v, t) && TicketCoherent(v, u);
    }
    hide Coherent;
  }

  // Once a send was written, every run later, whatever failed, crashed or was restarted in it,
  // as long as the ticket is in memory: the ticket is still of that request, a send under the
  // same key and with the same content is answered with it and changes nothing, and one with
  // other content is refused.
  lemma SendRetried(s: Sys, d: Id, r: SendRequest, id: Id, now: Time, more: seq<Step>, limits: Limits,
      again: SendRequest, newId: Id, later: Time)
    requires Inv(s) && s.up && s.pending.None? && id !in s.used && SubmitSend(s.mem, d, r, id, now, limits).Write?
    requires id in Runs(Sent(s, d, r, id, now, limits), more, limits, false).mem.tickets && again.key == r.key
    ensures
      var n := Runs(Sent(s, d, r, id, now, limits), more, limits, false);
      && SameRequest(SubmitSend(s.mem, d, r, id, now, limits).answer, n.mem.tickets[id])
      && n.mem.tickets[id].requestId == r.requestId && n.mem.tickets[id].message == r.message
      && SubmitSend(n.mem, d, again, newId, later, limits)
         == if again.fingerprint == r.fingerprint then Reply(n.mem.tickets[id]) else Reject(IdempotencyConflict)
  {
    hide Inv, SubmitSend, Runs, Do, RunSubmit, Commit, Create;
    var b := Sent(s, d, r, id, now, limits);
    SentKeeps(s, d, r, id, now, limits);
    SendIsRecorded(s.mem, d, r, id, now, limits);
    RunPins(b, more, limits, OfTicket(id, SubmitSend(s.mem, d, r, id, now, limits).answer));
    var n := Runs(b, more, limits, false);
    CoherentIn(n);
    SendFound(n.mem, id, again, newId, later, limits);
  }

  // ---- A creation and a cancel ------------------------------------------------------------------

  // The mutation is begun, and its write lands.
  ghost function Done<R>(s: Sys, m: Mutation<R>): Sys
    requires m.Write?
  {
    s.(mem := m.next, disk := m.next)
  }

  lemma ClientDone<R>(s: Sys, m: Mutation<R>)
    requires s.pending.None? && m.Write?
    ensures Done(s, m) == Commit(BeginClient(s, m, Client))
  {
  }

  lemma CreationKeeps(s: Sys, r: CreateRequest, id: Id, now: Time, limits: Limits)
    requires Inv(s) && s.up && s.pending.None? && Create(s.mem, r, id, now, limits).Write?
    ensures Inv(Done(s, Create(s.mem, r, id, now, limits)))
  {
    ClientStepsKeep(s, CreateDraft(r, id, now), limits);
    CommitKeeps(Do(s, CreateDraft(r, id, now), limits, false));
    ClientDone(s, Create(s.mem, r, id, now, limits));
    hide Inv, Create;
  }

  lemma CancelKeepsInv(s: Sys, d: Id, r: CancelRequest, now: Time, limits: Limits)
    requires Inv(s) && s.up && s.pending.None? && Cancel(s.mem, d, r, now).Write?
    ensures Inv(Done(s, Cancel(s.mem, d, r, now)))
  {
    ClientStepsKeep(s, CancelDraftStep(d, r, now), limits);
    CommitKeeps(Do(s, CancelDraftStep(d, r, now), limits, false));
    ClientDone(s, Cancel(s.mem, d, r, now));
    hide Inv, Cancel;
  }

  lemma CreationFound(v: Store, d: Id, r: CreateRequest, id: Id, now: Time, limits: Limits)
    requires Coherent(v) && d in v.drafts && v.drafts[d].createKey == r.key
    ensures Create(v, r, id, now, limits)
         == if v.drafts[d].createFingerprint == r.fingerprint then Reply(v.drafts[d]) else Reject(IdempotencyConflict)
  {
    forall c | c in v.drafts && v.drafts[c].createKey == r.key ensures c == d { assert SameCreateKey(v, c, d); }
    hide Coherent;
  }

  // The same for a creation, unless the draft was pruned and its id was used for another.
  lemma CreationRetried(s: Sys, r: CreateRequest, id: Id, now: Time, more: seq<Step>, limits: Limits,
      again: CreateRequest, newId: Id, later: Time)
    requires Inv(s) && s.up && s.pending.None? && Create(s.mem, r, id, now, limits).Write? && again.key == r.key
    requires
      var d := Create(s.mem, r, id, now, limits).answer.draftId;
      && NeverRemade(more, OfCreation(d, r.key, r.fingerprint))
      && d in Runs(Done(s, Create(s.mem, r, id, now, limits)), more, limits, false).mem.drafts
    ensures
      var d := Create(s.mem, r, id, now, limits).answer.draftId;
      var n := Runs(Done(s, Create(s.mem, r, id, now, limits)), more, limits, false);
      Create(n.mem, again, newId, later, limits)
      == if again.fingerprint == r.fingerprint then Reply(n.mem.drafts[d]) else Reject(IdempotencyConflict)
  {
    hide Inv, Runs, Do, NeverRemade;
    var m := Create(s.mem, r, id, now, limits);
    var d, b := m.answer.draftId, Done(s, m);
    var p := OfCreation(d, r.key, r.fingerprint);
    CreationKeeps(s, r, id, now, limits);
    assert Pinned(b, p);
    hide Create;
    RunPins(b, more, limits, p);
    var n := Runs(b, more, limits, false);
    CoherentIn(n);
    CreationFound(n.mem, d, again, newId, later, limits);
  }

  // ... and for a cancel: the draft stays cancelled, under that key.
  lemma CancelRetried(s: Sys, d: Id, r: CancelRequest, now: Time, more: seq<Step>, limits: Limits,
      again: CancelRequest, later: Time)
    requires Inv(s) && s.up && s.pending.None? && Cancel(s.mem, d, r, now).Write?
    requires NeverRemade(more, OfCancel(d, r.key, r.fingerprint))
    requires d in Runs(Done(s, Cancel(s.mem, d, r, now)), more, limits, false).mem.drafts
    ensures
      var n := Runs(Done(s, Cancel(s.mem, d, r, now)), more, limits, false);
      && (n.mem.drafts[d].state.Cancelled? || n.mem.drafts[d].state.DraftIndeterminate?)
      && (again.key == r.key ==>
            Cancel(n.mem, d, again, later)
            == if again.fingerprint == r.fingerprint then Reply(n.mem.drafts[d]) else Reject(IdempotencyConflict))
      && !Cancel(n.mem, d, again, later).Write?
  {
    hide Inv, Runs, Do, NeverRemade;
    var m := Cancel(s.mem, d, r, now);
    var b, p := Done(s, m), OfCancel(d, r.key, r.fingerprint);
    CancelKeepsInv(s, d, r, now, limits);
    assert Pinned(b, p);
    RunPins(b, more, limits, p);
  }

  // ---- Two clients with the same revision in hand ------------------------------------------------

  // The clients' mutations that name the revision they expect.
  datatype Change = ToCancel(cancel: CancelRequest) | ToSend(send: SendRequest, newTicketId: Id)

  function ExpectedBy(c: Change): nat {
    match c
    case ToCancel(r) => r.expectedRevision
    case ToSend(r, _) => r.expectedRevision
  }

  ghost predicate Writes(v: Store, d: Id, c: Change, now: Time, limits: Limits) {
    match c
    case ToCancel(r) => Cancel(v, d, r, now).Write?
    case ToSend(r, id) => SubmitSend(v, d, r, id, now, limits).Write?
  }

  // The change is written and acknowledged.
  ghost function Changed(s: Sys, d: Id, c: Change, now: Time, limits: Limits): Sys
    requires s.pending.None? && Writes(s.mem, d, c, now, limits)
  {
    match c
    case ToCancel(r) => Done(s, Cancel(s.mem, d, r, now))
    case ToSend(r, id) => Sent(s, d, r, id, now, limits)
  }

  lemma ChangedCounts(s: Sys, d: Id, c: Change, now: Time, limits: Limits)
    requires Inv(s) && s.up && s.pending.None? && Writes(s.mem, d, c, now, limits)
    requires c.ToSend? ==> c.newTicketId !in s.used
    ensures Inv(Changed(s, d, c, now, limits)) && Pinned(Changed(s, d, c, now, limits), OfRevision(d, ExpectedBy(c) + 1))
  {
    match c
    case ToCancel(r) => CancelKeepsInv(s, d, r, now, limits);
    case ToSend(r, id) =>
      SentKeeps(s, d, r, id, now, limits);
      SendIsRecorded(s.mem, d, r, id, now, limits);
      hide Sent, SubmitSend;
  }

  lemma WritesAtRevision(v: Store, d: Id, c: Change, now: Time, limits: Limits)
    requires Writes(v, d, c, now, limits)
    ensures d in v.drafts && v.drafts[d].revision == ExpectedBy(c)
  {
  }

  // Of two changes that expect the same revision of a draft at most one is ever written: after
  // the first was, no run leads to a state in which the other writes anything, unless the
  // draft's id was used for another draft.
  lemma StaleChangeNeverWrites(s: Sys, d: Id, c: Change, now: Time, more: seq<Step>, limits: Limits, other: Change,
      later: Time)
    requires Inv(s) && s.up && s.pending.None? && Writes(s.mem, d, c, now, limits)
    requires (c.ToSend? ==> c.newTicketId !in s.used) && ExpectedBy(other) <= ExpectedBy(c)
    requires NeverRemade(more, OfRevision(d, ExpectedBy(c) + 1))
    ensures !Writes(Runs(Changed(s, d, c, now, limits), more, limits, false).mem, d, other, later, limits)
  {
    hide Inv, Runs, Do, NeverRemade, Writes, Changed;
    var b := Changed(s, d, c, now, limits);
    ChangedCounts(s, d, c, now, limits);
    RunPins(b, more, limits, OfRevision(d, ExpectedBy(c) + 1));
    var n := Runs(b, more, limits, false);
    if Writes(n.mem, d, other, later, limits) { WritesAtRevision(n.mem, d, other, later, limits); }
  }
}
