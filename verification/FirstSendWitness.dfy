/**
 Runs that do happen: a ticket left to its executor can be admitted and succeed, and
 an admission can be left in doubt. They show that the safety theorems are not empty.
 */
module FirstSendWitness {
  import opened Wrappers
  import opened Drafts
  import opened DraftsCoherence
  import opened FirstSend
  import opened FirstSendInvariant
  import opened FirstSendExecutor
  import opened FirstSendSafety

  ghost predicate Leads(s: Sys, n: Sys, limits: Limits, faulty: bool) {
    exists steps :: Runs(s, steps, limits, faulty) == n
  }

  lemma {:induction false} RunsAppend(s: Sys, a: seq<Step>, b: seq<Step>, limits: Limits, faulty: bool)
    ensures Runs(s, a + b, limits, faulty) == Runs(Runs(s, a, limits, faulty), b, limits, faulty)
    decreases |b|
  {
    if b == [] {
      assert a + b == a;
    } else {
      assert (a + b)[..|a + b| - 1] == a + b[..|b| - 1];
      RunsAppend(s, a, b[..|b| - 1], limits, faulty);
    }
  }

  lemma LeadsFromItself(s: Sys, limits: Limits, faulty: bool)
    ensures Leads(s, s, limits, faulty)
  {
    assert Runs(s, [], limits, faulty) == s;
  }

  lemma LeadsByStep(s: Sys, m: Sys, step: Step, limits: Limits, faulty: bool)
    requires Leads(s, m, limits, faulty)
    ensures Leads(s, Do(m, step, limits, faulty), limits, faulty)
  {
    var steps :| Runs(s, steps, limits, faulty) == m;
    assert (steps + [step])[..|steps + [step]| - 1] == steps;
    assert Runs(s, steps + [step], limits, faulty) == Do(m, step, limits, faulty);
  }

  lemma LeadsOn(a: Sys, b: Sys, c: Sys, limits: Limits, faulty: bool)
    requires Leads(a, b, limits, faulty) && Leads(b, c, limits, faulty)
    ensures Leads(a, c, limits, faulty)
  {
    var x :| Runs(a, x, limits, faulty) == b;
    var y :| Runs(b, y, limits, faulty) == c;
    RunsAppend(a, x, y, limits, faulty);
  }

  // ---- One executor left alone --------------------------------------------------------------

  // The queue is idle and the executor of t, not aborted, is at `pc`.
  ghost predicate StandsAt(s: Sys, t: Id, pc: Pc) {
    s.up && s.pending.None? && Coherent(s.mem) && t in s.mem.tickets && t in s.runs && s.runs[t] == Run(pc, false)
  }

  ghost predicate AtPc(s: Sys, t: Id, pc: Pc) { StandsAt(s, t, pc) && !s.draining }

  lemma MoveStep(s: Sys, t: Id, answer: Answer, pc: Pc, pc': Pc, limits: Limits, faulty: bool) returns (n: Sys)
    requires AtPc(s, t, pc) && ActionOf(s.mem, t, Run(pc, false), answer) == GoOn(pc')
    ensures n == Goto(s, t, pc') && AtPc(n, t, pc') && Leads(s, n, limits, faulty)
  {
    hide ActionOf;
    n := Goto(s, t, pc');
    LeadsFromItself(s, limits, faulty);
    LeadsByStep(s, s, Execute(t, answer), limits, faulty);
  }

  lemma WriteStep(s: Sys, t: Id, tr: Transition, writing: Pc, limits: Limits, faulty: bool) returns (n: Sys)
    requires t in s.runs && StandsAt(s, t, s.runs[t].pc) && Writing(writing)
    requires TransitionSend(s.mem, t, tr, 0).Write? && Fits(TransitionSend(s.mem, t, tr, 0).next, limits)
    requires ExecuteStep(s, t, Proceeds(0)) == Begun(s, t, TransitionSend(s.mem, t, tr, 0).next, writing)
    ensures StandsAt(n, t, AfterCommit(writing)) && n.draining == s.draining && Leads(s, n, limits, faulty)
    ensures n.mem == n.disk == TransitionSend(s.mem, t, tr, 0).next
    ensures n.admits == s.admits && n.accepted == s.accepted && n.used == s.used
  {
    var next := TransitionSend(s.mem, t, tr, 0).next;
    TransitionKeeps(s.mem, t, tr, 0);
    assert t in next.tickets;
    hide Coherent, TransitionSend, ExecuteStep, Leads, Fits;
    var b := Begun(s, t, next, writing);
    LeadsFromItself(s, limits, faulty);
    assert Do(s, Execute(t, Proceeds(0)), limits, faulty) == b;
    LeadsByStep(s, s, Execute(t, Proceeds(0)), limits, faulty);
    n := WritesBegun(s, b, t, writing, limits, faulty);
  }

  lemma WritesBegun(s: Sys, b: Sys, t: Id, writing: Pc, limits: Limits, faulty: bool) returns (n: Sys)
    requires Leads(s, b, limits, faulty) && b.pending.Some? && b.pending.value.owner == Executor(t)
    requires b.up && t in b.runs && b.runs[t] == Run(writing, false) && Fits(b.mem, limits)
    requires Coherent(b.mem) && t in b.mem.tickets
    ensures StandsAt(n, t, AfterCommit(writing)) && n.draining == b.draining && Leads(s, n, limits, faulty)
    ensures n.mem == n.disk == b.mem && n.admits == b.admits && n.accepted == b.accepted && n.used == b.used
  {
    hide Coherent, Leads, Fits;
    n := Commit(b);
    assert Do(b, WriteCommits, limits, faulty) == n;
    LeadsByStep(s, b, WriteCommits, limits, faulty);
  }

  // ---- Room in the file -----------------------------------------------------------------

  // Only ticket t and its draft may differ.
  ghost predicate SameButFor(v: Store, w: Store, t: Id)
    requires t in v.tickets
  {
    && w.tickets.Keys == v.tickets.Keys && w.drafts.Keys == v.drafts.Keys
    && w.tickets[t].draftId == v.tickets[t].draftId
    && (forall u | u in v.tickets && u != t :: w.tickets[u] == v.tickets[u])
    && (forall d | d in v.drafts && d != v.tickets[t].draftId :: w.drafts[d] == v.drafts[d])
  }

  // Whatever becomes of ticket t can be written.
  ghost predicate Room(v: Store, t: Id, limits: Limits) {
    t in v.tickets && forall w {:trigger SameButFor(v, w, t)} | SameButFor(v, w, t) :: Fits(w, limits)
  }

  // The limits allow one draft with one ticket.
  ghost predicate Spacious(limits: Limits) {
    && limits.maxDrafts > 0 && limits.maxTickets > 0
    && forall v: Store {:trigger Fits(v, limits)} | |v.drafts| <= 1 && |v.tickets| <= 1 :: Fits(v, limits)
  }

  lemma SpaciousHasRoom(v: Store, t: Id, limits: Limits)
    requires Spacious(limits) && |v.drafts| <= 1 && |v.tickets| <= 1 && t in v.tickets
    ensures Room(v, t, limits)
  {
    forall w | SameButFor(v, w, t) ensures Fits(w, limits) {
      assert |w.drafts.Keys| == |v.drafts.Keys| && |w.tickets.Keys| == |v.tickets.Keys|;
    }
  }

  lemma RoomFor(v: Store, t: Id, tr: Transition, now: Time, limits: Limits)
    requires Coherent(v) && Room(v, t, limits) && TransitionSend(v, t, tr, now).Write?
    ensures Fits(TransitionSend(v, t, tr, now).next, limits) && Room(TransitionSend(v, t, tr, now).next, t, limits)
  {
    assert TicketCoherent(v, t);
    var n := TransitionSend(v, t, tr, now).next;
    assert SameButFor(v, n, t);
    forall w | SameButFor(n, w, t) ensures Fits(w, limits) { assert SameButFor(v, w, t); }
  }

  lemma RoomyStep(s: Sys, t: Id, tr: Transition, writing: Pc, limits: Limits) returns (n: Sys)
    requires t in s.runs && AtPc(s, t, s.runs[t].pc) && Writing(writing)
    requires TransitionSend(s.mem, t, tr, 0).Write? && Room(s.mem, t, limits)
    requires ExecuteStep(s, t, Proceeds(0)) == Begun(s, t, TransitionSend(s.mem, t, tr, 0).next, writing)
    ensures AtPc(n, t, AfterCommit(writing)) && Leads(s, n, limits, false)
    ensures n.mem == n.disk == TransitionSend(s.mem, t, tr, 0).next && Room(n.mem, t, limits)
    ensures n.admits == s.admits && n.accepted == s.accepted && n.used == s.used
  {
    hide Room, TransitionSend, Leads, ExecuteStep;
    RoomFor(s.mem, t, tr, 0, limits);
    n := WriteStep(s, t, tr, writing, limits, false);
  }

  // From its launch to its first checkpoint ...
  lemma WalksToReady(s: Sys, t: Id, limits: Limits) returns (n: Sys)
    requires Room(s.mem, t, limits)
    requires AtPc(s, t, Loading) && s.mem.tickets[t].state.Queued?
    ensures Room(n.mem, t, limits)
    ensures Leads(s, n, limits, false) && n.admits == s.admits && n.accepted == s.accepted && n.used == s.used
    ensures t in n.mem.tickets && AtPc(n, t, ToReady(n.mem.tickets[t].targetSession))
    ensures n.mem.tickets[t].state.Running? && n.mem.tickets[t].phase.Starting?
  {
    assert TicketCoherent(s.mem, t);
    var a := MoveStep(s, t, TakesPrompt, Loading, ToRunning, limits, false);
    var b := RoomyStep(a, t, Transition(Queued, Running, Some(Starting), None, None), WritingRunning, limits);
    LeadsOn(s, a, b, limits, false);
    var w := WorkOf(b.mem.tickets[t]);
    n := OpensSession(b, t, w, limits);
    LeadsOn(s, b, n, limits, false);
  }

  lemma EntersAgain(s: Sys, t: Id, w: Work, limits: Limits) returns (n: Sys)
    requires AtPc(s, t, Reloading) && w == WorkOf(s.mem.tickets[t])
    ensures Leads(s, n, limits, false) && AtPc(n, t, OpeningSession(w))
    ensures n.mem == s.mem && n.admits == s.admits && n.accepted == s.accepted && n.used == s.used
  {
    assert TicketCoherent(s.mem, t);
    var a := MoveStep(s, t, TakesPrompt, Reloading, Entering(w), limits, false);
    n := MoveStep(a, t, TakesPrompt, Entering(w), OpeningSession(w), limits, false);
    LeadsOn(s, a, n, limits, false);
  }

  lemma OpensSession(s: Sys, t: Id, w: Work, limits: Limits) returns (n: Sys)
    requires AtPc(s, t, Reloading) && w == WorkOf(s.mem.tickets[t]) && w.phase.Starting?
    ensures Leads(s, n, limits, false) && AtPc(n, t, ToReady(w.target))
    ensures n.mem == s.mem && n.admits == s.admits && n.accepted == s.accepted && n.used == s.used
  {
    var b := EntersAgain(s, t, w, limits);
    n := MoveStep(b, t, Returns(w.target), OpeningSession(w), ToReady(w.target), limits, false);
    LeadsOn(s, b, n, limits, false);
  }

  lemma AcquiresAgain(s: Sys, t: Id, x: Session, limits: Limits) returns (n: Sys)
    requires AtPc(s, t, ReloadingReady(x))
    ensures Leads(s, n, limits, false) && AtPc(n, t, ToPrompt(x))
    ensures n.mem == s.mem && n.admits == s.admits && n.accepted == s.accepted && n.used == s.used
  {
    hide Coherent, Leads;
    var a := MoveStep(s, t, TakesPrompt, ReloadingReady(x), Acquiring(x), limits, false);
    n := MoveStep(a, t, TakesPrompt, Acquiring(x), ToPrompt(x), limits, false);
    LeadsOn(s, a, n, limits, false);
  }

  // ... on to the second ...
  lemma WalksToPrompt(s: Sys, t: Id, limits: Limits) returns (n: Sys)
    requires Room(s.mem, t, limits)
    requires t in s.mem.tickets && AtPc(s, t, ToReady(s.mem.tickets[t].targetSession))
    requires s.mem.tickets[t].state.Running? && s.mem.tickets[t].phase.Starting?
    ensures Room(n.mem, t, limits)
    ensures Leads(s, n, limits, false) && n.admits == s.admits && n.accepted == s.accepted && n.used == s.used
    ensures t in n.mem.tickets && AtPc(n, t, ToPrompt(n.mem.tickets[t].targetSession))
    ensures n.mem.tickets[t].state.Running? && n.mem.tickets[t].phase.ReadyToPrompt?
  {
    assert TicketCoherent(s.mem, t);
    hide Coherent, Create, SubmitSend, Cancel, Recover, Leads, Room;
    var x := s.mem.tickets[t].targetSession;
    var a := RoomyStep(s, t, Transition(Running, Running, Some(ReadyToPrompt), Some(x), None), WritingReady(x), limits);
    n := AcquiresAgain(a, t, x, limits);
    LeadsOn(s, a, n, limits, false);
  }

  // ... and past the third, to the call of the admission.
  lemma Checkpoints(s: Sys, t: Id, x: Session, limits: Limits) returns (n: Sys)
    requires Room(s.mem, t, limits)
    requires AtPc(s, t, ToPrompt(x)) && x == s.mem.tickets[t].targetSession
    requires s.mem.tickets[t].state.Running? && s.mem.tickets[t].phase.ReadyToPrompt?
    ensures Room(n.mem, t, limits)
    ensures Leads(s, n, limits, false) && AtPc(n, t, Checkpointed(x)) && Interrupted(n.mem.tickets[t])
    ensures n.admits == s.admits && n.accepted == s.accepted && n.used == s.used && x == n.mem.tickets[t].targetSession
  {
    assert TicketCoherent(s.mem, t);
    n := RoomyStep(s, t, Transition(Running, Running, Some(PromptSubmitting), Some(x), None), WritingPrompt(x),
        limits);
  }

  lemma WalksToAdmission(s: Sys, t: Id, limits: Limits) returns (n: Sys)
    requires Room(s.mem, t, limits)
    requires t in s.mem.tickets && AtPc(s, t, ToPrompt(s.mem.tickets[t].targetSession))
    requires s.mem.tickets[t].state.Running? && s.mem.tickets[t].phase.ReadyToPrompt?
    ensures Room(n.mem, t, limits)
    ensures Leads(s, n, limits, false) && n.admits == s.admits + multiset{t} && n.accepted == s.accepted
        && n.used == s.used
    ensures t in n.mem.tickets && AtPc(n, t, AwaitingAdmission(n.mem.tickets[t].targetSession, false))
        && Interrupted(n.mem.tickets[t])
  {
    hide Coherent, Create, SubmitSend, Cancel, Recover, Runs, Room, TransitionSend;
    var a := Checkpoints(s, t, s.mem.tickets[t].targetSession, limits);
    n := Do(a, Execute(t, TakesPrompt), limits, false);
    LeadsByStep(s, a, Execute(t, TakesPrompt), limits, false);
  }

  lemma IsTaken(s: Sys, t: Id, x: Session, limits: Limits) returns (n: Sys)
    requires AtPc(s, t, AwaitingAdmission(x, false))
    ensures Leads(s, n, limits, false) && n.admits == s.admits && n.accepted == s.accepted + multiset{t}
    ensures n.mem == s.mem && AtPc(n, t, ToSucceeded(x))
  {
    hide Coherent, Create, SubmitSend, Cancel, Recover, Runs, Room, TransitionSend;
    var a := Do(s, Execute(t, TakesPrompt), limits, false);
    LeadsFromItself(s, limits, false);
    LeadsByStep(s, s, Execute(t, TakesPrompt), limits, false);
    n := MoveStep(a, t, Proceeds(0), AwaitingAdmission(x, true), ToSucceeded(x), limits, false);
    LeadsOn(s, a, n, limits, false);
  }

  lemma Succeeds(s: Sys, t: Id, x: Session, limits: Limits) returns (n: Sys)
    requires Room(s.mem, t, limits)
    requires AtPc(s, t, ToSucceeded(x)) && Interrupted(s.mem.tickets[t]) && x == s.mem.tickets[t].targetSession
    ensures Leads(s, n, limits, false) && n.admits == s.admits && n.accepted == s.accepted
    ensures t in n.disk.tickets && n.disk.tickets[t].state.Succeeded?
  {
    assert TicketCoherent(s.mem, t);
    n := RoomyStep(s, t, Transition(Running, Succeeded, Some(PromptSubmitting), Some(x), None),
        WritingSucceeded(x), limits);
  }

  lemma WalksToTheEnd(s: Sys, t: Id, limits: Limits) returns (n: Sys)
    requires Room(s.mem, t, limits)
    requires t in s.mem.tickets && AtPc(s, t, AwaitingAdmission(s.mem.tickets[t].targetSession, false))
    requires Interrupted(s.mem.tickets[t])
    ensures Leads(s, n, limits, false) && n.admits == s.admits && n.accepted == s.accepted + multiset{t}
    ensures t in n.disk.tickets && n.disk.tickets[t].state.Succeeded?
  {
    var x := s.mem.tickets[t].targetSession;
    var b := IsTaken(s, t, x, limits);
    n := Succeeds(b, t, x, limits);
    LeadsOn(s, b, n, limits, false);
  }

  lemma IsCaught(s: Sys, t: Id, x: Session, limits: Limits) returns (n: Sys)
    requires AtPc(s, t, AwaitingAdmission(x, false)) && Interrupted(s.mem.tickets[t])
    ensures Leads(s, n, limits, false) && n.mem == s.mem && n.admits == s.admits && n.used == s.used
    ensures AtPc(n, t, ToTerminal(true, Some(x)))
  {
    hide Coherent, Create, SubmitSend, Cancel, Recover, Runs, Room, TransitionSend;
    var a := MoveStep(s, t, Throws, AwaitingAdmission(x, false), Catching(Some(x)), limits, false);
    n := MoveStep(a, t, TakesPrompt, Catching(Some(x)), ToTerminal(true, Some(x)), limits, false);
    LeadsOn(s, a, n, limits, false);
  }

  lemma BeginsToDoubt(s: Sys, t: Id, x: Session, limits: Limits)
    requires AtPc(s, t, ToTerminal(true, Some(x))) && Interrupted(s.mem.tickets[t])
        && x == s.mem.tickets[t].targetSession
    ensures
      var n := Do(s, Execute(t, Proceeds(0)), limits, false);
      n.admits == s.admits && n.used == s.used && RecordingDoubt(n, t) && n.pending.value.saved == s.mem
  {
    assert TicketCoherent(s.mem, t);
    hide Coherent, Create, SubmitSend, Cancel, Recover, Runs, Room;
    assert TransitionSend(s.mem, t, LastResort(true, Some(x)), 0).Write?;
  }

  lemma WalksToDoubt(s: Sys, t: Id, limits: Limits) returns (n: Sys)
    requires t in s.mem.tickets && AtPc(s, t, AwaitingAdmission(s.mem.tickets[t].targetSession, false))
    requires Interrupted(s.mem.tickets[t])
    ensures Leads(s, n, limits, false) && n.admits == s.admits && n.used == s.used && RecordingDoubt(n, t)
    ensures n.pending.value.saved == s.mem
  {
    var x := s.mem.tickets[t].targetSession;
    var b := IsCaught(s, t, x, limits);
    BeginsToDoubt(b, t, x, limits);
    LeadsByStep(s, b, Execute(t, Proceeds(0)), limits, false);
    n := Do(b, Execute(t, Proceeds(0)), limits, false);
  }

  // The executor of ticket t is writing that its outcome is indeterminate.
  ghost predicate RecordingDoubt(s: Sys, t: Id) {
    && s.up && !s.draining && s.pending.Some? && s.pending.value.owner == Executor(t)
    && t in s.runs && s.runs[t].pc == WritingTerminal(true)
    && t in s.pending.value.saved.tickets && Interrupted(s.pending.value.saved.tickets[t])
  }

  // A running ticket is resumed where it stopped: its session is opened again.
  lemma OpensAgain(s: Sys, t: Id, limits: Limits) returns (n: Sys)
    requires AtPc(s, t, Loading) && s.mem.tickets[t].state.Running?
    ensures Leads(s, n, limits, false) && AtPc(n, t, OpeningSession(WorkOf(s.mem.tickets[t])))
    ensures n.mem == s.mem && n.admits == s.admits && n.accepted == s.accepted && n.used == s.used
  {
    assert TicketCoherent(s.mem, t);
    var w := WorkOf(s.mem.tickets[t]);
    hide Coherent, Leads;
    var a := MoveStep(s, t, TakesPrompt, Loading, Entering(w), limits, false);
    n := MoveStep(a, t, TakesPrompt, Entering(w), OpeningSession(w), limits, false);
    LeadsOn(s, a, n, limits, false);
  }

  lemma ResumesStarting(s: Sys, t: Id, limits: Limits) returns (n: Sys)
    requires Room(s.mem, t, limits)
    requires AtPc(s, t, Loading) && s.mem.tickets[t].state.Running? && s.mem.tickets[t].phase.Starting?
    ensures Room(n.mem, t, limits)
    ensures Leads(s, n, limits, false) && n.admits == s.admits && n.accepted == s.accepted && n.used == s.used
    ensures t in n.mem.tickets && AtPc(n, t, ToPrompt(n.mem.tickets[t].targetSession))
    ensures n.mem.tickets[t].state.Running? && n.mem.tickets[t].phase.ReadyToPrompt?
  {
    hide Coherent, Leads, Room;
    var w := WorkOf(s.mem.tickets[t]);
    var a := OpensAgain(s, t, limits);
    var b := MoveStep(a, t, Returns(w.target), OpeningSession(w), ToReady(w.target), limits, false);
    LeadsOn(s, a, b, limits, false);
    n := WalksToPrompt(b, t, limits);
    LeadsOn(s, b, n, limits, false);
  }

  lemma OpensReady(s: Sys, t: Id, w: Work, limits: Limits) returns (n: Sys)
    requires AtPc(s, t, OpeningSession(w)) && w.phase.ReadyToPrompt? && w.session.Some?
    ensures Leads(s, n, limits, false) && n == Goto(s, t, ToPrompt(w.target)) && AtPc(n, t, ToPrompt(w.target))
  {
    var b := MoveStep(s, t, Returns(w.target), OpeningSession(w), Acquiring(w.target), limits, false);
    n := MoveStep(b, t, TakesPrompt, Acquiring(w.target), ToPrompt(w.target), limits, false);
    hide ActionOf, Leads, AtPc;
    LeadsOn(s, b, n, limits, false);
  }

  lemma ResumesReady(s: Sys, t: Id, limits: Limits) returns (n: Sys)
    requires AtPc(s, t, Loading) && s.mem.tickets[t].state.Running? && s.mem.tickets[t].phase.ReadyToPrompt?
    ensures Leads(s, n, limits, false) && n.mem == s.mem && n.admits == s.admits && n.accepted == s.accepted
    ensures n.used == s.used && AtPc(n, t, ToPrompt(s.mem.tickets[t].targetSession))
  {
    assert TicketCoherent(s.mem, t);
    hide Coherent, Leads;
    var a := OpensAgain(s, t, limits);
    n := OpensReady(a, t, WorkOf(s.mem.tickets[t]), limits);
    LeadsOn(s, a, n, limits, false);
  }

  lemma WalksOn(s: Sys, t: Id, limits: Limits) returns (n: Sys)
    requires Room(s.mem, t, limits)
    requires AtPc(s, t, Loading) && Recoverable(s.mem.tickets[t])
    ensures Room(n.mem, t, limits)
    ensures Leads(s, n, limits, false) && n.admits == s.admits && n.accepted == s.accepted && n.used == s.used
    ensures t in n.mem.tickets && AtPc(n, t, ToPrompt(n.mem.tickets[t].targetSession))
    ensures n.mem.tickets[t].state.Running? && n.mem.tickets[t].phase.ReadyToPrompt?
  {
    hide Coherent, Leads, Room;
    if s.mem.tickets[t].state.Queued? {
      var a := WalksToReady(s, t, limits);
      n := WalksToPrompt(a, t, limits);
      LeadsOn(s, a, n, limits, false);
    } else if s.mem.tickets[t].phase.Starting? {
      n := ResumesStarting(s, t, limits);
    } else {
      n := ResumesReady(s, t, limits);
    }
  }

  lemma WalksAlone(s: Sys, t: Id, limits: Limits) returns (n: Sys)
    requires Room(s.mem, t, limits)
    requires AtPc(s, t, Loading) && Recoverable(s.mem.tickets[t])
    ensures Room(n.mem, t, limits)
    ensures Leads(s, n, limits, false) && n.admits == s.admits + multiset{t} && n.accepted == s.accepted
        && n.used == s.used
    ensures t in n.mem.tickets && AtPc(n, t, AwaitingAdmission(n.mem.tickets[t].targetSession, false))
        && Interrupted(n.mem.tickets[t])
  {
    hide Coherent, Leads, Room;
    var a := WalksOn(s, t, limits);
    n := WalksToAdmission(a, t, limits);
    LeadsOn(s, a, n, limits, false);
  }

  // A ticket left to its executor, queued or interrupted before its checkpoint, can succeed
  // with one accepted admission.
  lemma RecoverableCanSucceed(s: Sys, t: Id, limits: Limits)
    requires Room(s.mem, t, limits)
    requires AtPc(s, t, Loading) && Recoverable(s.mem.tickets[t])
    ensures exists n :: Leads(s, n, limits, false)
              && n.admits[t] == s.admits[t] + 1 && n.accepted[t] == s.accepted[t] + 1
              && t in n.disk.tickets && n.disk.tickets[t].state.Succeeded?
  {
    var a := WalksAlone(s, t, limits);
    var n := WalksToTheEnd(a, t, limits);
    LeadsOn(s, a, n, limits, false);
  }

  // ---- The first ticket of an empty store -----------------------------------------------------

  function FirstDraft(): Draft {
    Draft(1, 1, Drafting, 0, 0, 0, None, 0, Sha256(""), None)
  }

  function FirstRequest(): SendRequest { SendRequest(0, 0, 1, 0, Sha256(""), Session(0, 0)) }

  lemma Starts(limits: Limits) returns (n: Sys)
    ensures Leads(InitialSys(), n, limits, false) && n == InitialSys().(up := true)
  {
    var s := InitialSys();
    n := Do(s, Restart(0, false), limits, false);
    assert Recover(EMPTY, 0, limits) == EMPTY;
    assert n.runs == map[];
    LeadsFromItself(s, limits, false);
    LeadsByStep(s, s, Restart(0, false), limits, false);
  }

  lemma CreatesFirst(s: Sys, limits: Limits) returns (n: Sys)
    requires s == InitialSys().(up := true) && Spacious(limits)
    ensures Leads(s, n, limits, false)
    ensures n == s.(mem := Store(map[1 := FirstDraft()], map[]), disk := Store(map[1 := FirstDraft()], map[]))
  {
    var r := CreateRequest(0, None, 0, Sha256(""));
    assert Prune(EMPTY, 0 - limits.terminalRetention) == EMPTY;
    var m := Create(EMPTY, r, 1, 0, limits);
    assert m == Write(Store(map[1 := FirstDraft()], map[]), FirstDraft());
    var a := Do(s, CreateDraft(r, 1, 0), limits, false);
    assert a == s.(mem := m.next, pending := Some(Pending(s.mem, Client)));
    hide Leads, Prune, Create;
    n := Do(a, WriteCommits, limits, false);
    assert n == s.(mem := m.next, disk := m.next);
    hide Do;
    LeadsFromItself(s, limits, false);
    LeadsByStep(s, s, CreateDraft(r, 1, 0), limits, false);
    LeadsByStep(s, a, WriteCommits, limits, false);
  }

  ghost predicate HoldsFirstDraft(s: Sys) {
    s.up && !s.draining && s.pending.None? && s.runs == map[] && s.toLaunch == {} && s.used == {}
    && s.mem == Store(map[1 := FirstDraft()], map[])
  }

  // A send made while the process serves reaches the head of the queue.
  lemma SendsThrough(s: Sys, d: Id, r: SendRequest, id: Id, now: Time, limits: Limits)
    requires s.up && !s.draining && s.pending.None? && id !in s.used
    ensures Leads(s, RunSubmit(s, d, r, id, now, limits), limits, false)
  {
    hide Leads, RunSubmit;
    var one := multiset{(d, r)};
    var a := Do(s, CallSend(d, r), limits, false);
    assert a == s.(waiting := s.waiting + one) && s.waiting + one - one == s.waiting;
    assert Do(a, Submit(d, r, id, now), limits, false) == RunSubmit(s, d, r, id, now, limits) by {
      assert a.(waiting := a.waiting - one) == s;
    }
    LeadsFromItself(s, limits, false);
    LeadsByStep(s, s, CallSend(d, r), limits, false);
    LeadsByStep(s, a, Submit(d, r, id, now), limits, false);
  }

  lemma QueuesFirst(s: Sys, limits: Limits) returns (n: Sys)
    requires HoldsFirstDraft(s) && Spacious(limits)
    ensures Leads(s, n, limits, false)
    ensures n == s.(mem := n.mem, pending := Some(Pending(s.mem, Submitter(7))), used := {7})
    ensures 7 in n.mem.tickets && n.mem.tickets[7].state.Queued? && |n.mem.drafts| == |n.mem.tickets| == 1
  {
    hide Leads;
    assert Prune(s.mem, 0 - limits.terminalRetention) == s.mem;
    var m := SubmitSend(s.mem, 1, FirstRequest(), 7, 0, limits);
    assert m.Write? && m.next.drafts.Keys == {1} && m.next.tickets.Keys == {7};
    assert |m.next.drafts.Keys| == 1 && |m.next.tickets.Keys| == 1;
    n := RunSubmit(s, 1, FirstRequest(), 7, 0, limits);
    SendsThrough(s, 1, FirstRequest(), 7, 0, limits);
  }

  lemma SubmitsFirst(s: Sys, limits: Limits) returns (n: Sys)
    requires HoldsFirstDraft(s) && Spacious(limits)
    ensures Leads(s, n, limits, false) && n.admits == s.admits && n.used == {7}
    ensures n.up && !n.draining && n.pending.None? && n.runs == map[7 := Run(Loading, false)]
    ensures 7 in n.mem.tickets && n.mem.tickets[7].state.Queued? && Room(n.mem, 7, limits)
    ensures n.disk == n.mem && |n.mem.drafts| == |n.mem.tickets| == 1
  {
    var a := QueuesFirst(s, limits);
    hide Leads, Room, Prune, Create, SubmitSend, Cancel, TransitionSend;
    var b := Do(a, WriteCommits, limits, false);
    LeadsByStep(s, a, WriteCommits, limits, false);
    n := Do(b, Launch(7), limits, false);
    LeadsByStep(s, b, Launch(7), limits, false);
    SpaciousHasRoom(n.mem, 7, limits);
  }

  lemma FirstTicketLaunches(limits: Limits) returns (n: Sys)
    requires Spacious(limits)
    ensures Leads(InitialSys(), n, limits, false) && n.admits == multiset{} && n.used == {7}
    ensures AtPc(n, 7, Loading) && n.mem.tickets[7].state.Queued? && Room(n.mem, 7, limits)
    ensures n.disk == n.mem && |n.mem.drafts| == |n.mem.tickets| == 1
  {
    hide Room;
    var a := Starts(limits);
    var b := CreatesFirst(a, limits);
    n := SubmitsFirst(b, limits);
    LeadsOn(InitialSys(), a, b, limits, false);
    LeadsOn(InitialSys(), b, n, limits, false);
    var steps :| Runs(InitialSys(), steps, limits, false) == n;
    RunKeeps(steps, limits);
  }

  // A run without any fault in which an admission was called and is left in doubt.
  lemma DoubtHappens(limits: Limits) returns (n: Sys)
    requires Spacious(limits)
    ensures Leads(InitialSys(), n, limits, false) && RecordingDoubt(n, 7) && n.admits[7] == 1 && n.used == {7}
    ensures Room(n.pending.value.saved, 7, limits)
  {
    var a := FirstTicketLaunches(limits);
    var b := WalksAlone(a, 7, limits);
    n := WalksToDoubt(b, 7, limits);
    LeadsOn(InitialSys(), a, b, limits, false);
    LeadsOn(InitialSys(), b, n, limits, false);
  }

  // ---- A file that prints over the limit ---------------------------------------------------------

  // One draft with one ticket is let through by #write, and its indented text is over the limit.
  ghost predicate Tight(limits: Limits) {
    && Spacious(limits)
    && forall v: Store {:trigger ReadsBack(v, limits)} | |v.drafts| == 1 && |v.tickets| == 1 :: !ReadsBack(v, limits)
  }

  lemma SomeLimitsAreTight()
    ensures exists limits :: Tight(limits)
  {
    var limits := Limits(1, 1, 0, 2000, (v: Store) => 900 * (|v.drafts| + |v.tickets|),
                         (v: Store) => 1100 * (|v.drafts| + |v.tickets|));
    forall v: Store | |v.drafts| <= 1 && |v.tickets| <= 1 ensures Fits(v, limits) { }
    forall v: Store | |v.drafts| == 1 && |v.tickets| == 1 ensures !ReadsBack(v, limits) { }
    assert Tight(limits);
  }

  // A start that finds such a file goes on without it.
  lemma StartsWithout(s: Sys, limits: Limits)
    requires !s.up && s.disk != EMPTY && !ReadsBack(s.disk, limits) && Fits(EMPTY, limits)
    ensures Do(s, Restart(0, true), limits, false) == Start(s, EMPTY, EMPTY)
  {
    assert Recover(EMPTY, 0, limits) == EMPTY;
    hide Recover;
  }

  // A send is written and acknowledged, the process stops, and the next start sets the file
  // aside: the live ticket and its draft are gone.
  lemma WrittenTicketIsLost(limits: Limits)
    requires Tight(limits)
    ensures exists s, n ::
              && Leads(InitialSys(), s, limits, false) && s.up && s.pending.None? && s.mem == s.disk
              && 7 in s.disk.tickets && s.disk.tickets[7].state.Queued?
              && Leads(s, n, limits, false) && n.up && n.mem == EMPTY && n.disk == EMPTY && Gone(n, 7)
  {
    var s := FirstTicketLaunches(limits);
    assert !ReadsBack(s.disk, limits) && Fits(EMPTY, limits);
    hide Leads, Fits, ReadsBack, Room, Tight;
    var a := Do(s, Crash(false), limits, false);
    assert a == Stop(s);
    StartsWithout(a, limits);
    hide Do;
    LeadsFromItself(s, limits, false);
    LeadsByStep(s, s, Crash(false), limits, false);
    LeadsByStep(s, a, Restart(0, true), limits, false);
  }
}
