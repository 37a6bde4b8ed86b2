/** Every step of an executor keeps the first-send invariant. */
module FirstSendExecutor {
  import opened Wrappers
  import opened Drafts
  import opened DraftsCoherence
  import opened FirstSend
  import opened FirstSendInvariant
  import opened FirstSendControl

  ghost predicate Reading(s: Sys, t: Id) {
    Inv(s) && s.up && t in s.runs && !Writing(s.runs[t].pc)
  }

  // An executor that is not writing sees records that somebody else's write in
  // flight may still take back, but only in ways that leave its ticket readable.
  lemma WhatAReadSees(s: Sys, t: Id)
    requires Reading(s, t) && s.pending.Some?
    ensures s.pending.value.owner != Executor(t)
    ensures t in s.pending.value.saved.tickets ==> LeftAlone(s.pending.value.saved, s.mem, t)
    ensures t in s.mem.tickets && t !in s.pending.value.saved.tickets ==> NewlyIssued(s, t)
  {
    assert RunFits(s, t);
    assert t in s.pending.value.saved.tickets ==> InFlight(s, t);
    assert t in s.mem.tickets && t !in s.pending.value.saved.tickets ==> NewlyIssued(s, t);
    if s.pending.value.owner == Executor(t) { OwnerRuns(s); }
  }

  // Before its checkpoint an executor's ticket is interrupted in no version it can see.
  lemma NotYetInterrupted(s: Sys, t: Id)
    requires Reading(s, t) && !PastCheckpoint(s.runs[t].pc)
    ensures t in s.mem.tickets ==> !Interrupted(s.mem.tickets[t])
    ensures s.pending.Some? && t in s.pending.value.saved.tickets && Interrupted(s.pending.value.saved.tickets[t]) ==>
              (t in s.mem.tickets ==> Terminal(s.mem.tickets[t].state))
              && (s.runs[t].pc.Loading? || s.runs[t].pc.Finished? || s.runs[t].pc.Releasing?)
  {
    assert t in s.mem.tickets ==> Attended(s.mem, t, s.runs);
    assert RunFits(s, t);
    if s.pending.Some? { WhatAReadSees(s, t); }
  }

  // The phase an executor reads is the phase in every version it can see.
  lemma SamePhase(s: Sys, t: Id)
    requires Reading(s, t) && t in s.mem.tickets
    ensures s.pending.Some? && t in s.pending.value.saved.tickets ==>
              s.pending.value.saved.tickets[t].phase == s.mem.tickets[t].phase
  {
    if s.pending.Some? { WhatAReadSees(s, t); }
  }

  // ---- Steps that only move the executor -----------------------------------------------

  lemma BeforeCheckpointMoves(s: Sys, t: Id, pc: Pc)
    requires Reading(s, t) && !PastCheckpoint(s.runs[t].pc) && !Writing(pc) && !InWindow(pc)
    requires Counted(pc, s.admits[t], s.accepted[t])
    requires t in s.mem.tickets ==> PcKnows(pc, s.mem.tickets[t])
    requires s.pending.Some? && t in s.pending.value.saved.tickets ==> PcKnows(pc, s.pending.value.saved.tickets[t])
    ensures Inv(Goto(s, t, pc))
  {
    assert RunFits(s, t);
    MoveKeeps(s, t, s.runs[t].(pc := pc));
  }

  lemma EntersWith(s: Sys, t: Id)
    requires Reading(s, t) && t in s.mem.tickets
    requires s.runs[t].pc.Reloading? || (s.runs[t].pc.Loading? && s.mem.tickets[t].state.Running?)
    ensures Inv(Goto(s, t, Entering(WorkOf(s.mem.tickets[t]))))
  {
    NotYetInterrupted(s, t);
    assert RunFits(s, t);
    if s.pending.Some? { WhatAReadSees(s, t); }
    SamePhase(s, t);
    assert TicketCoherent(s.mem, t);
    BeforeCheckpointMoves(s, t, Entering(WorkOf(s.mem.tickets[t])));
  }

  lemma LoadingMoves(s: Sys, t: Id, answer: Answer)
    requires Reading(s, t) && (s.runs[t].pc.Loading? || s.runs[t].pc.Reloading?)
    ensures Inv(ExecuteStep(s, t, answer))
  {
    NotYetInterrupted(s, t);
    assert RunFits(s, t);
    if s.pending.Some? { WhatAReadSees(s, t); }
    hide Inv, TransitionSend;
    if ExecuteStep(s, t, answer).runs[t].pc.Entering? {
      EntersWith(s, t);
    } else {
      BeforeCheckpointMoves(s, t, ExecuteStep(s, t, answer).runs[t].pc);
    }
  }

  lemma EnteringMoves(s: Sys, t: Id, answer: Answer)
    requires Reading(s, t) && s.runs[t].pc.Entering?
    ensures Inv(ExecuteStep(s, t, answer))
  {
    NotYetInterrupted(s, t);
    assert RunFits(s, t);
    hide Inv, BeginTransition;
    BeforeCheckpointMoves(s, t, ExecuteStep(s, t, answer).runs[t].pc);
  }

  lemma ReadyMoves(s: Sys, t: Id, answer: Answer)
    requires Reading(s, t) && (s.runs[t].pc.ReloadingReady? || s.runs[t].pc.Acquiring?)
    ensures Inv(ExecuteStep(s, t, answer))
  {
    NotYetInterrupted(s, t);
    assert RunFits(s, t);
    hide Inv, BeginTransition;
    BeforeCheckpointMoves(s, t, ExecuteStep(s, t, answer).runs[t].pc);
  }

  lemma ReleasingMoves(s: Sys, t: Id, answer: Answer)
    requires Reading(s, t) && s.runs[t].pc.Releasing?
    ensures Inv(ExecuteStep(s, t, answer))
  {
    NotYetInterrupted(s, t);
    assert RunFits(s, t);
    hide Inv, BeginTransition;
    BeforeCheckpointMoves(s, t, ExecuteStep(s, t, answer).runs[t].pc);
  }

  lemma OpeningMoves(s: Sys, t: Id, answer: Answer)
    requires Reading(s, t) && s.runs[t].pc.OpeningSession?
    ensures Inv(ExecuteStep(s, t, answer))
  {
    NotYetInterrupted(s, t);
    assert RunFits(s, t);
    hide Inv;
    if !answer.Proceeds? && !answer.TakesPrompt? {
      BeforeCheckpointMoves(s, t, ExecuteStep(s, t, answer).runs[t].pc);
    }
  }

  // After a conflict the executor looks at its ticket, and every version it can see agrees.
  lemma ConflictGoes(s: Sys, t: Id, answer: Answer) returns (to: Pc)
    requires Reading(s, t) && s.runs[t].pc.ConflictRead?
    ensures ActionOf(s.mem, t, s.runs[t], answer) == GoOn(to)
    ensures PcFits(to, s.mem, t) && (s.pending.Some? ==> PcFits(to, s.pending.value.saved, t))
    ensures to.Releasing? || to.Catching?
    ensures to.Releasing? ==> t in s.mem.tickets && Terminal(s.mem.tickets[t].state)
  {
    assert RunFits(s, t);
    if s.pending.Some? { WhatAReadSees(s, t); }
    hide Inv;
    var x := s.runs[t].pc.session;
    to := if t in s.mem.tickets && Terminal(s.mem.tickets[t].state) then Releasing(x) else Catching(Some(x));
  }

  lemma ConflictMoves(s: Sys, t: Id, answer: Answer)
    requires Reading(s, t) && s.runs[t].pc.ConflictRead?
    ensures Inv(ExecuteStep(s, t, answer))
  {
    var to := ConflictGoes(s, t, answer);
    assert RunFits(s, t);
    hide Inv, PcFits, ActionOf;
    MoveKeeps(s, t, s.runs[t].(pc := to));
  }

  lemma CatchingMoves(s: Sys, t: Id, answer: Answer)
    requires Reading(s, t) && s.runs[t].pc.Catching?
    ensures Inv(ExecuteStep(s, t, answer))
  {
    assert RunFits(s, t);
    hide Inv;
    var pc := ExecuteStep(s, t, answer).runs[t].pc;
    if !pc.Finished? { SamePhase(s, t); }
    MoveKeeps(s, t, s.runs[t].(pc := pc));
  }

  lemma AwaitingMoves(s: Sys, t: Id, answer: Answer)
    requires Reading(s, t) && s.runs[t].pc.AwaitingAdmission? && !answer.TakesPrompt?
    ensures Inv(ExecuteStep(s, t, answer))
  {
    assert RunFits(s, t);
    hide Inv;
    MoveKeeps(s, t, ExecuteStep(s, t, answer).runs[t]);
  }

  // ---- Calling and taking the admission ---------------------------------------------------

  ghost predicate CountedElsewhere(a: multiset<Id>, b: multiset<Id>, t: Id) {
    forall u {:trigger a[u]} {:trigger b[u]} | u != t :: a[u] == b[u]
  }

  lemma UndecidedStaysSound(v: Store, t: Id, used: set<Id>, admits: multiset<Id>, accepted: multiset<Id>,
                            admits': multiset<Id>, accepted': multiset<Id>)
    requires Sound(v, used, admits, accepted) && Undecided(v, t)
    requires CountedElsewhere(admits, admits', t) && CountedElsewhere(accepted, accepted', t)
    ensures Sound(v, used, admits', accepted')
  {
    forall u | u in v.tickets ensures TicketTrue(v, u, admits', accepted') {
      assert TicketTrue(v, u, admits, accepted);
    }
    forall d | d in v.drafts ensures DraftTrue(v, d, admits', accepted') {
      assert DraftTrue(v, d, admits, accepted);
      assert Remembers(v, d, t) ==> v.drafts[d].state.Materializing? || v.drafts[d].state.DraftIndeterminate?;
    }
  }

  ghost predicate MayCount(s: Sys, t: Id, n: Sys) {
    && Reading(s, t) && InWindow(s.runs[t].pc)
    && t in n.runs && n.runs[t].aborted == s.runs[t].aborted
    && InWindow(n.runs[t].pc) && SessionAt(n.runs[t].pc) == SessionAt(s.runs[t].pc)
    && n == s.(runs := s.runs[t := n.runs[t]], admits := n.admits, accepted := n.accepted)
    && CountedElsewhere(s.admits, n.admits, t) && CountedElsewhere(s.accepted, n.accepted, t)
    && Counted(n.runs[t].pc, n.admits[t], n.accepted[t])
    && n.accepted[t] <= n.admits[t] <= 1
  }

  lemma CountKeepsVersions(s: Sys, t: Id, n: Sys)
    requires MayCount(s, t, n)
    ensures Versions(n)
  {
    assert RunFits(s, t);
    UndecidedStaysSound(s.mem, t, s.used, s.admits, s.accepted, n.admits, n.accepted);
    UndecidedStaysSound(s.disk, t, s.used, s.admits, s.accepted, n.admits, n.accepted);
    if s.pending.Some? {
      UndecidedStaysSound(s.pending.value.saved, t, s.used, s.admits, s.accepted, n.admits, n.accepted);
    }
  }

  lemma CountKeepsRuns(s: Sys, t: Id, n: Sys)
    requires MayCount(s, t, n)
    ensures AllRunsFit(n) && Watched(n)
  {
    forall u | u in n.runs ensures RunFits(n, u) {
      assert RunFits(s, u);
    }
    forall u | u in n.mem.tickets ensures Attended(n.mem, u, n.runs) { assert Attended(s.mem, u, s.runs); }
    forall v | AllOffered(s, v) ensures AllOffered(n, v) {
      forall u | u in v.tickets ensures Offered(n, v, u) { assert Offered(s, v, u); }
    }
  }

  lemma CountKeeps(s: Sys, t: Id, n: Sys)
    requires MayCount(s, t, n)
    ensures Inv(n)
  {
    CountKeepsVersions(s, t, n);
    CountKeepsRuns(s, t, n);
    if s.pending.Some? { WhatAReadSees(s, t); }
    forall u | n.pending.Some? && u in n.pending.value.saved.tickets ensures InFlight(n, u) { assert InFlight(s, u); }
    forall u | n.pending.Some? && u in n.mem.tickets && u !in n.pending.value.saved.tickets ensures NewlyIssued(n, u) {
      assert NewlyIssued(s, u);
    }
    forall u | u in Settled(n).tickets ensures OnDisk(n, u) { assert OnDisk(s, u); }
    forall u | u in n.disk.tickets ensures EndedIfDropped(n, u) { assert EndedIfDropped(s, u); }
    forall u ensures CountsFit(n, u) { assert CountsFit(s, u) && RunFits(s, t); }
  }

  lemma AdmissionKeeps(s: Sys, t: Id, answer: Answer)
    requires Reading(s, t)
    requires s.runs[t].pc.Checkpointed? || (s.runs[t].pc.AwaitingAdmission? && answer.TakesPrompt?)
    ensures Inv(ExecuteStep(s, t, answer))
  {
    assert RunFits(s, t);
    if s.runs[t].pc.Checkpointed? || !s.runs[t].pc.taken {
      CountKeeps(s, t, ExecuteStep(s, t, answer));
    }
  }

  // ---- Beginning a transition -----------------------------------------------------------------

  ghost predicate MayBegin(s: Sys, t: Id, next: Store, writing: Pc) {
    && Reading(s, t) && s.pending.None? && Writing(writing) && !InWindow(writing) && !s.runs[t].pc.Checkpointed?
    && t in s.mem.tickets && t in next.tickets
    && Coherent(next)
    && s.mem.tickets[t].draftId in next.drafts
    && next == Store(s.mem.drafts[s.mem.tickets[t].draftId := next.drafts[s.mem.tickets[t].draftId]],
                     s.mem.tickets[t := next.tickets[t]])
    && next.tickets[t].draftId == s.mem.tickets[t].draftId
    && OwnWrite(s.mem, next, t, writing)
    && Counted(writing, s.admits[t], s.accepted[t])
    && PcKnows(writing, s.mem.tickets[t]) && PcKnows(writing, next.tickets[t])
    && TicketTruth(next.tickets[t], s.admits[t], s.accepted[t])
    && next.drafts[next.tickets[t].draftId].state == DraftStateOf(next.tickets[t].state)
    && (Interrupted(s.mem.tickets[t]) || Interrupted(next.tickets[t]) ==> PastCheckpoint(writing))
  }

  function Begun(s: Sys, t: Id, next: Store, writing: Pc): Sys
    requires t in s.runs
  {
    Goto(s.(mem := next, pending := Some(Pending(s.mem, Executor(t)))), t, writing)
  }

  lemma OtherDrafts(s: Sys, t: Id, next: Store, writing: Pc, d: Id)
    requires MayBegin(s, t, next, writing) && d in next.drafts && d != s.mem.tickets[t].draftId
    ensures d in s.mem.drafts && next.drafts[d] == s.mem.drafts[d] && !Remembers(next, d, t)
  {
    assert DraftCoherent(next, d);
  }

  lemma BegunSound(s: Sys, t: Id, next: Store, writing: Pc)
    requires MayBegin(s, t, next, writing)
    ensures Sound(next, s.used, s.admits, s.accepted)
  {
    var home := s.mem.tickets[t].draftId;
    assert TicketCoherent(next, t) && TicketCoherent(s.mem, t);
    forall u | u in next.tickets ensures TicketTrue(next, u, s.admits, s.accepted) {
      if u != t { assert TicketTrue(s.mem, u, s.admits, s.accepted); }
    }
    forall d | d in next.drafts ensures DraftTrue(next, d, s.admits, s.accepted) {
      if d != home { OtherDrafts(s, t, next, writing, d); assert DraftTrue(s.mem, d, s.admits, s.accepted); }
    }
    forall id | id !in s.used ensures FreshTicketId(next, id) {
      assert FreshTicketId(s.mem, id);
    }
  }

  lemma OthersUndecided(s: Sys, t: Id, next: Store, writing: Pc, u: Id)
    requires MayBegin(s, t, next, writing) && u != t && Undecided(s.mem, u)
    ensures Undecided(next, u)
  {
    assert TicketCoherent(next, t);
    forall d | Remembers(next, d, u) ensures next.drafts[d].state.Materializing?
        || next.drafts[d].state.DraftIndeterminate? {
      if d != s.mem.tickets[t].draftId { assert Remembers(s.mem, d, u); }
    }
  }

  lemma BegunRunFits(s: Sys, t: Id, next: Store, writing: Pc, u: Id)
    requires MayBegin(s, t, next, writing) && u in s.runs
    ensures RunFits(Begun(s, t, next, writing), u)
  {
    assert RunFits(s, u);
    if u != t && InWindow(s.runs[u].pc) { OthersUndecided(s, t, next, writing, u); }
  }

  lemma BegunWatched(s: Sys, t: Id, next: Store, writing: Pc)
    requires MayBegin(s, t, next, writing)
    ensures Watched(Begun(s, t, next, writing))
  {
    var n := Begun(s, t, next, writing);
    forall u | u in next.tickets ensures Attended(next, u, n.runs) && Offered(n, next, u) {
      assert Attended(s.mem, u, s.runs) && Offered(s, s.mem, u);
    }
    OffersStay(s, n);
  }

  lemma BegunFlight(s: Sys, t: Id, next: Store, writing: Pc)
    requires MayBegin(s, t, next, writing)
    ensures Flight(Begun(s, t, next, writing)) && Durable(Begun(s, t, next, writing))
  {
    var n := Begun(s, t, next, writing);
    forall u | u in s.mem.tickets ensures InFlight(n, u) { }
    forall u | u in s.mem.tickets ensures OnDisk(n, u) { assert OnDisk(s, u); }
    forall u | u in n.disk.tickets ensures EndedIfDropped(n, u) { assert EndedIfDropped(s, u); }
  }

  lemma BeginKeeps(s: Sys, t: Id, next: Store, writing: Pc)
    requires MayBegin(s, t, next, writing)
    ensures Inv(Begun(s, t, next, writing))
  {
    var n := Begun(s, t, next, writing);
    BegunSound(s, t, next, writing);
    BegunFlight(s, t, next, writing);
    BegunWatched(s, t, next, writing);
    forall u | u in n.runs ensures RunFits(n, u) { BegunRunFits(s, t, next, writing, u); }
    forall u ensures CountsFit(n, u) { assert CountsFit(s, u); }
  }

  // The transition takes ticket t where the program counter `writing` expects it.
  ghost predicate MayWrite(s: Sys, t: Id, tr: Transition, now: Time, writing: Pc) {
    && t in s.mem.tickets && !Terminal(s.mem.tickets[t].state)
    && !InWindow(writing) && Counted(writing, s.admits[t], s.accepted[t])
    && var k := s.mem.tickets[t];
       var k' := Advance(k, tr, now);
       && Progress(k) < Progress(k')
       && PcKnows(writing, k) && PcKnows(writing, k')
       && TicketTruth(k', s.admits[t], s.accepted[t])
       && (Interrupted(k) || Interrupted(k') ==> PastCheckpoint(writing))
       && (match writing
           case WritingPrompt(_) => !k.phase.PromptSubmitting? && Interrupted(k')
           case WritingSucceeded(_) => k'.state.Succeeded?
           case WritingRejected(_) => k'.state.Failed?
           case WritingTerminal(ambiguous) =>
             if ambiguous then k'.state.Indeterminate? else !k.phase.PromptSubmitting? && k'.state.Failed?
           case _ => !k.phase.PromptSubmitting? && !k'.phase.PromptSubmitting?)
  }

  lemma WriteMayBegin(s: Sys, t: Id, tr: Transition, now: Time, writing: Pc)
    requires Reading(s, t) && s.pending.None? && Writing(writing) && !s.runs[t].pc.Checkpointed?
    requires TransitionSend(s.mem, t, tr, now).Write? && MayWrite(s, t, tr, now, writing)
    ensures Inv(Begun(s, t, TransitionSend(s.mem, t, tr, now).next, writing))
  {
    var next := TransitionSend(s.mem, t, tr, now).next;
    TransitionKeeps(s.mem, t, tr, now);
    assert TicketCoherent(s.mem, t);
    if writing.WritingPrompt? {
      forall d | Remembers(next, d, t) ensures next.drafts[d].state.Materializing? {
        assert DraftCoherent(next, d);
      }
    }
    BeginKeeps(s, t, next, writing);
  }

  // What the invariant says of an executor's run and of its ticket.
  lemma FactsOf(s: Sys, t: Id)
    requires Reading(s, t)
    ensures RunFits(s, t)
    ensures t in s.mem.tickets ==> TicketCoherent(s.mem, t) && TicketTrue(s.mem, t, s.admits, s.accepted)
  {
    assert RunFits(s, t);
    assert t in s.mem.tickets ==> TicketCoherent(s.mem, t) && TicketTrue(s.mem, t, s.admits, s.accepted);
  }

  // Until its checkpoint is written, nothing was admitted for a ticket.
  lemma Unadmitted(s: Sys, t: Id)
    requires Reading(s, t) && t in s.mem.tickets && !s.mem.tickets[t].phase.PromptSubmitting?
    ensures s.admits[t] == 0 && s.accepted[t] == 0
  {
    assert TicketTrue(s.mem, t, s.admits, s.accepted) && CountsFit(s, t);
  }

  lemma {:induction false} BeginGoes(s: Sys, t: Id, tr: Transition, now: Time, writing: Pc, conflict: Pc, refused: Pc)
    requires t in s.runs && s.pending.None?
    ensures
      var m := TransitionSend(s.mem, t, tr, now);
      BeginTransition(s, t, tr, now, writing, conflict, refused)
      == (if m.Write? then Begun(s, t, m.next, writing)
          else Goto(s, t, if m.Reject? && m.reason.StateConflict? then conflict else refused))
  {
    assert !TransitionSend(s.mem, t, tr, now).Reply?;
    hide TransitionSend;
  }

  ghost predicate EarlyMayGo(s: Sys, t: Id, pc: Pc) {
    && !Writing(pc) && !InWindow(pc) && Counted(pc, s.admits[t], s.accepted[t])
    && (t in s.mem.tickets ==> PcKnows(pc, s.mem.tickets[t]))
  }

  // Before its checkpoint, with no other write in flight, an executor begins a transition or
  // goes where the refusal sends it.
  lemma EarlyBegins(s: Sys, t: Id, tr: Transition, now: Time, writing: Pc, conflict: Pc, refused: Pc)
    requires Reading(s, t) && s.pending.None? && !PastCheckpoint(s.runs[t].pc)
    requires Writing(writing)
    requires TransitionSend(s.mem, t, tr, now).Write? ==> MayWrite(s, t, tr, now, writing)
    requires !TransitionSend(s.mem, t, tr, now).Write? ==> EarlyMayGo(s, t, conflict) && EarlyMayGo(s, t, refused)
    ensures Inv(BeginTransition(s, t, tr, now, writing, conflict, refused))
  {
    hide Inv, PcKnows, MayWrite, TransitionSend, BeginTransition;
    BeginGoes(s, t, tr, now, writing, conflict, refused);
    var m := TransitionSend(s.mem, t, tr, now);
    if m.Write? {
      WriteMayBegin(s, t, tr, now, writing);
    } else {
      BeforeCheckpointMoves(s, t, if m.Reject? && m.reason.StateConflict? then conflict else refused);
    }
  }

  lemma BeginsRunning(s: Sys, t: Id, now: Time)
    requires Reading(s, t) && s.pending.None? && s.runs[t].pc.ToRunning?
    ensures Inv(BeginTransition(s, t, Transition(Queued, Running, Some(Starting), None, None), now,
                                WritingRunning, Finished, Finished))
  {
    NotYetInterrupted(s, t);
    FactsOf(s, t);
    if t in s.mem.tickets && !s.mem.tickets[t].phase.PromptSubmitting? { Unadmitted(s, t); }
    hide Inv, BeginTransition;
    EarlyBegins(s, t, Transition(Queued, Running, Some(Starting), None, None), now, WritingRunning, Finished, Finished);
  }

  lemma BeginsReady(s: Sys, t: Id, x: Session, now: Time)
    requires Reading(s, t) && s.pending.None? && s.runs[t].pc == ToReady(x)
    ensures Inv(BeginTransition(s, t, Transition(Running, Running, Some(ReadyToPrompt), Some(x), None), now,
                                WritingReady(x), Catching(Some(x)), Catching(Some(x))))
  {
    NotYetInterrupted(s, t);
    FactsOf(s, t);
    if t in s.mem.tickets && !s.mem.tickets[t].phase.PromptSubmitting? { Unadmitted(s, t); }
    hide Inv, BeginTransition;
    EarlyBegins(s, t, Transition(Running, Running, Some(ReadyToPrompt), Some(x), None), now, WritingReady(x),
                Catching(Some(x)), Catching(Some(x)));
  }

  lemma BeginsPrompt(s: Sys, t: Id, x: Session, now: Time)
    requires Reading(s, t) && s.pending.None? && s.runs[t].pc == ToPrompt(x)
    ensures Inv(BeginTransition(s, t, Transition(Running, Running, Some(PromptSubmitting), Some(x), None), now,
                                WritingPrompt(x), Catching(Some(x)), Catching(Some(x))))
  {
    NotYetInterrupted(s, t);
    FactsOf(s, t);
    if t in s.mem.tickets && !s.mem.tickets[t].phase.PromptSubmitting? { Unadmitted(s, t); }
    hide Inv, BeginTransition;
    EarlyBegins(s, t, Transition(Running, Running, Some(PromptSubmitting), Some(x), None), now, WritingPrompt(x),
                Catching(Some(x)), Catching(Some(x)));
  }

  // The outcome of an admission is decided only while its ticket still waits for it.
  lemma WaitingForOutcome(s: Sys, t: Id)
    requires Reading(s, t) && InWindow(s.runs[t].pc)
    ensures t in s.mem.tickets ==> s.mem.tickets[t].phase.PromptSubmitting?
    ensures t in s.mem.tickets ==> PcKnows(s.runs[t].pc, s.mem.tickets[t])
    ensures Counted(s.runs[t].pc, s.admits[t], s.accepted[t])
  {
    assert RunFits(s, t);
  }

  ghost predicate MayGo(s: Sys, t: Id, pc: Pc) {
    && !Writing(pc) && !InWindow(pc) && Counted(pc, s.admits[t], s.accepted[t])
    && (t in s.mem.tickets ==>
          PcKnows(pc, s.mem.tickets[t]) && (Interrupted(s.mem.tickets[t]) ==> PastCheckpoint(pc)))
  }

  // Past its checkpoint an executor that is refused still attends to its ticket.
  lemma LateBegins(s: Sys, t: Id, tr: Transition, now: Time, writing: Pc, conflict: Pc, refused: Pc)
    requires Reading(s, t) && s.pending.None? && !s.runs[t].pc.Checkpointed?
    requires Writing(writing)
    requires TransitionSend(s.mem, t, tr, now).Write? ==> MayWrite(s, t, tr, now, writing)
    requires !TransitionSend(s.mem, t, tr, now).Write? ==> MayGo(s, t, conflict) && MayGo(s, t, refused)
    ensures Inv(BeginTransition(s, t, tr, now, writing, conflict, refused))
  {
    hide Versions, Flight, Durable, Watched, AllCountsFit, PcKnows, MayWrite, TransitionSend, BeginTransition;
    BeginGoes(s, t, tr, now, writing, conflict, refused);
    var m := TransitionSend(s.mem, t, tr, now);
    if m.Write? {
      WriteMayBegin(s, t, tr, now, writing);
    } else {
      assert RunFits(s, t);
      MoveKeeps(s, t, s.runs[t].(pc := if m.Reject? && m.reason.StateConflict? then conflict else refused));
    }
  }

  lemma BeginsSucceeded(s: Sys, t: Id, x: Session, now: Time)
    requires Reading(s, t) && s.pending.None? && s.runs[t].pc == ToSucceeded(x)
    ensures Inv(BeginTransition(s, t, Transition(Running, Succeeded, Some(PromptSubmitting), Some(x), None), now,
                                WritingSucceeded(x), Catching(Some(x)), Catching(Some(x))))
  {
    WaitingForOutcome(s, t);
    FactsOf(s, t);
    hide Inv, BeginTransition, PcFits;
    LateBegins(s, t, Transition(Running, Succeeded, Some(PromptSubmitting), Some(x), None), now,
               WritingSucceeded(x), Catching(Some(x)), Catching(Some(x)));
  }

  lemma BeginsRejected(s: Sys, t: Id, x: Session, e: ApiError, now: Time)
    requires Reading(s, t) && s.pending.None? && s.runs[t].pc == ToRejected(x, e)
    ensures Inv(BeginTransition(s, t, Transition(Running, Failed, None, Some(x), Some(e)), now,
                                WritingRejected(x), ConflictRead(x), Catching(Some(x))))
  {
    WaitingForOutcome(s, t);
    FactsOf(s, t);
    hide Inv, BeginTransition, PcFits;
    LateBegins(s, t, Transition(Running, Failed, None, Some(x), Some(e)), now,
               WritingRejected(x), ConflictRead(x), Catching(Some(x)));
  }

  // The catch clause can always record an interrupted ticket as indeterminate.
  lemma IndeterminateIsNeverRefused(s: Sys, t: Id, now: Time)
    requires Reading(s, t) && s.runs[t].pc.ToTerminal? && t in s.mem.tickets && Interrupted(s.mem.tickets[t])
    ensures s.runs[t].pc.ambiguous
    ensures TransitionSend(s.mem, t, LastResort(true, s.runs[t].pc.materialized), now).Write?
  {
    assert TicketCoherent(s.mem, t) && RunFits(s, t);
    assert PcKnows(s.runs[t].pc, s.mem.tickets[t]);
    assert Attended(s.mem, t, s.runs);
  }

  lemma BeginsFailed(s: Sys, t: Id, m: Option<Session>, now: Time)
    requires Reading(s, t) && s.pending.None? && s.runs[t].pc == ToTerminal(false, m)
    ensures Inv(BeginTransition(s, t, LastResort(false, m), now, WritingTerminal(false), Finished, Finished))
  {
    NotYetInterrupted(s, t);
    FactsOf(s, t);
    if t in s.mem.tickets && !s.mem.tickets[t].phase.PromptSubmitting? { Unadmitted(s, t); }
    hide Inv, BeginTransition;
    EarlyBegins(s, t, LastResort(false, m), now, WritingTerminal(false), Finished, Finished);
  }

  lemma DoubtMayWrite(s: Sys, t: Id, m: Option<Session>, now: Time)
    requires Reading(s, t) && s.runs[t].pc == ToTerminal(true, m)
    ensures TransitionSend(s.mem, t, LastResort(true, m), now).Write? ==>
        MayWrite(s, t, LastResort(true, m), now, WritingTerminal(true))
  {
    FactsOf(s, t);
    hide Inv;
  }

  lemma DoubtMayGo(s: Sys, t: Id, m: Option<Session>, now: Time)
    requires Reading(s, t) && s.runs[t].pc == ToTerminal(true, m)
    requires !TransitionSend(s.mem, t, LastResort(true, m), now).Write?
    ensures MayGo(s, t, Finished)
  {
    if t in s.mem.tickets && Interrupted(s.mem.tickets[t]) { IndeterminateIsNeverRefused(s, t, now); }
    FactsOf(s, t);
    hide Inv, TransitionSend;
  }

  lemma BeginsIndeterminate(s: Sys, t: Id, m: Option<Session>, now: Time)
    requires Reading(s, t) && s.pending.None? && s.runs[t].pc == ToTerminal(true, m)
    ensures Inv(BeginTransition(s, t, LastResort(true, m), now, WritingTerminal(true), Finished, Finished))
  {
    hide Inv, BeginTransition, TransitionSend, MayWrite, MayGo;
    DoubtMayWrite(s, t, m, now);
    if !TransitionSend(s.mem, t, LastResort(true, m), now).Write? { DoubtMayGo(s, t, m, now); }
    LateBegins(s, t, LastResort(true, m), now, WritingTerminal(true), Finished, Finished);
  }

  predicate ToBeginAt(pc: Pc) {
    pc.ToRunning? || pc.ToReady? || pc.ToPrompt? || pc.ToSucceeded? || pc.ToRejected? || pc.ToTerminal?
  }

  // The steps that queue a transition.
  lemma BeginningKeeps(s: Sys, t: Id, answer: Answer)
    requires Reading(s, t) && s.pending.None? && answer.Proceeds? && ToBeginAt(s.runs[t].pc)
    ensures Inv(ExecuteStep(s, t, answer))
  {
    hide Inv, BeginTransition;
    var now := answer.now;
    match s.runs[t].pc
    case ToRunning => BeginsRunning(s, t, now);
    case ToReady(x) => BeginsReady(s, t, x, now);
    case ToPrompt(x) => BeginsPrompt(s, t, x, now);
    case ToSucceeded(x) => BeginsSucceeded(s, t, x, now);
    case ToRejected(x, e) => BeginsRejected(s, t, x, e, now);
    case ToTerminal(ambiguous, m) =>
      if ambiguous { BeginsIndeterminate(s, t, m, now); } else { BeginsFailed(s, t, m, now); }
    case _ =>
  }

  // Without a free queue, or without the clock's answer, such a step waits.
  lemma OtherwiseWaits(s: Sys, t: Id, answer: Answer)
    requires t in s.runs && ToBeginAt(s.runs[t].pc) && !(answer.Proceeds? && s.pending.None?)
    requires !(answer.Throws? && s.runs[t].pc.ToRejected?)
    ensures ExecuteStep(s, t, answer) == s
  {
  }

  predicate ReadsAt(pc: Pc) {
    pc.Loading? || pc.Reloading? || pc.Entering? || pc.OpeningSession? || pc.ReloadingReady? || pc.Acquiring?
    || pc.Releasing?
  }

  lemma ReadsKeep(s: Sys, t: Id, answer: Answer)
    requires Reading(s, t) && ReadsAt(s.runs[t].pc)
    ensures Inv(ExecuteStep(s, t, answer))
  {
    var pc := s.runs[t].pc;
    hide Inv, Reading, ExecuteStep;
    if pc.Loading? || pc.Reloading? { LoadingMoves(s, t, answer); }
    else if pc.Entering? { EnteringMoves(s, t, answer); }
    else if pc.OpeningSession? { OpeningMoves(s, t, answer); }
    else if pc.ReloadingReady? || pc.Acquiring? { ReadyMoves(s, t, answer); }
    else { ReleasingMoves(s, t, answer); }
  }

  predicate OffersAt(pc: Pc) { pc.Checkpointed? || pc.AwaitingAdmission? || pc.ConflictRead? || pc.Catching? }

  lemma OffersKeep(s: Sys, t: Id, answer: Answer)
    requires Reading(s, t) && OffersAt(s.runs[t].pc)
    ensures Inv(ExecuteStep(s, t, answer))
  {
    var pc := s.runs[t].pc;
    hide Inv, Reading, ExecuteStep;
    if pc.Checkpointed? || (pc.AwaitingAdmission? && answer.TakesPrompt?) { AdmissionKeeps(s, t, answer); }
    else if pc.AwaitingAdmission? { AwaitingMoves(s, t, answer); }
    else if pc.ConflictRead? { ConflictMoves(s, t, answer); }
    else { CatchingMoves(s, t, answer); }
  }

  lemma RefusedErrorMoves(s: Sys, t: Id, answer: Answer)
    requires Reading(s, t) && s.runs[t].pc.ToRejected? && answer.Throws?
    ensures Inv(ExecuteStep(s, t, answer))
  {
    assert RunFits(s, t);
    hide Inv, BeginTransition;
    MoveKeeps(s, t, s.runs[t].(pc := Catching(Some(s.runs[t].pc.session))));
  }

  lemma BeginsKeep(s: Sys, t: Id, answer: Answer)
    requires Reading(s, t) && ToBeginAt(s.runs[t].pc)
    ensures Inv(ExecuteStep(s, t, answer))
  {
    if answer.Throws? && s.runs[t].pc.ToRejected? {
      RefusedErrorMoves(s, t, answer);
    } else if s.pending.Some? || !answer.Proceeds? {
      OtherwiseWaits(s, t, answer);
    } else {
      hide Inv, ExecuteStep;
      BeginningKeeps(s, t, answer);
    }
  }

  lemma FinishedKeeps(s: Sys, t: Id, answer: Answer)
    requires t in s.runs && (s.runs[t].pc.Finished? || Writing(s.runs[t].pc))
    ensures ExecuteStep(s, t, answer) == s
  {
  }

  lemma ExecuteKeeps(s: Sys, t: Id, answer: Answer, limits: Limits)
    requires Inv(s)
    ensures Inv(Do(s, Execute(t, answer), limits, false))
  {
    if t in s.runs {
      var pc := s.runs[t].pc;
      if pc.Finished? || Writing(pc) {
        FinishedKeeps(s, t, answer);
      } else {
        assert Reading(s, t);
        hide Inv, Reading, ExecuteStep;
        if ReadsAt(pc) { ReadsKeep(s, t, answer); }
        else if OffersAt(pc) { OffersKeep(s, t, answer); }
        else { BeginsKeep(s, t, answer); }
      }
    }
  }
}
