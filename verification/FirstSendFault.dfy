/**
 Where the code does not keep its at-most-once promise: a write throws without stopping
 the process, and the records that come back have an interrupted ticket whose executor
 is past acting on it (src/dashboard-session-materializer.ts:240-263, 273-287;
 src/dashboard-session-drafts.ts:732-753). An idempotent resubmit then launches an
 executor that admits again (src/dashboard-session-materializer.ts:117-119, 152-162,
 206-219).
 */
module FirstSendFault {
  import opened Wrappers
  import opened Drafts
  import opened DraftsCoherence
  import opened FirstSend
  import opened FirstSendInvariant
  import opened FirstSendClients
  import opened FirstSendControl
  import opened FirstSendExecutor
  import opened FirstSendSafety
  import opened FirstSendWitness

  // An idle queue, and a ticket recorded as interrupted.
  ghost predicate Idle(s: Sys, t: Id) {
    && s.up && s.pending.None? && Coherent(s.mem)
    && t in s.mem.tickets && Interrupted(s.mem.tickets[t])
  }

  ghost predicate Abandoned(s: Sys, t: Id) { Idle(s, t) && t !in s.runs }

  // No executor will record what became of the ticket's admission.
  ghost predicate Unattended(s: Sys, t: Id) { t in s.mem.tickets && !Attended(s.mem, t, s.runs) }

  // A send that repeats the one of ticket k: same draft, same key, same content.
  predicate Repeats(d: Id, r: SendRequest, k: Ticket) {
    d == k.draftId && r.key == k.idempotencyKey && r.fingerprint == k.fingerprint
  }

  function Retry(k: Ticket): SendRequest {
    SendRequest(k.requestId, k.idempotencyKey, k.draftRevision, k.message, k.fingerprint, k.targetSession)
  }

  lemma RetryRelaunches(s: Sys, t: Id, r: SendRequest, id: Id, now: Time, limits: Limits)
    requires Idle(s, t) && Repeats(s.mem.tickets[t].draftId, r, s.mem.tickets[t])
    ensures RunSubmit(s, s.mem.tickets[t].draftId, r, id, now, limits) == s.(toLaunch := s.toLaunch + {t})
  {
    var k := s.mem.tickets[t];
    assert TicketCoherent(s.mem, t);
    LiveTicketExactlyWhileMaterializing(s.mem, k.draftId);
    var m := SubmitSend(s.mem, k.draftId, r, id, now, limits);
    assert m == Reply(k);
  }

  function Place(s: Sys, t: Id, pc: Pc): Sys { s.(runs := s.runs[t := Run(pc, false)]) }

  lemma Walks(s: Sys, t: Id, pc: Pc, answer: Answer, pc': Pc, limits: Limits)
    requires ActionOf(s.mem, t, Run(pc, false), answer) == GoOn(pc')
    ensures Leads(Place(s, t, pc), Place(s, t, pc'), limits, false)
  {
    hide ActionOf, Leads;
    var a := Place(s, t, pc);
    assert Do(a, Execute(t, answer), limits, false) == Place(s, t, pc');
    LeadsFromItself(a, limits, false);
    LeadsByStep(a, a, Execute(t, answer), limits, false);
  }

  // An executor launched for an interrupted ticket walks straight to the checkpoint ...
  lemma WalksBackToPrompt(s: Sys, t: Id, limits: Limits)
    requires Idle(s, t)
    ensures Leads(Place(s, t, Loading), Place(s, t, ToPrompt(s.mem.tickets[t].targetSession)), limits, false)
  {
    assert TicketCoherent(s.mem, t);
    hide Coherent, Leads, Place;
    var w := WorkOf(s.mem.tickets[t]);
    Walks(s, t, Loading, TakesPrompt, Entering(w), limits);
    Walks(s, t, Entering(w), TakesPrompt, OpeningSession(w), limits);
    Walks(s, t, OpeningSession(w), Returns(w.target), Acquiring(w.target), limits);
    Walks(s, t, Acquiring(w.target), TakesPrompt, ToPrompt(w.target), limits);
    hide ActionOf;
    LeadsOn(Place(s, t, Loading), Place(s, t, Entering(w)), Place(s, t, OpeningSession(w)), limits, false);
    LeadsOn(Place(s, t, Loading), Place(s, t, OpeningSession(w)), Place(s, t, Acquiring(w.target)), limits, false);
    LeadsOn(Place(s, t, Loading), Place(s, t, Acquiring(w.target)), Place(s, t, ToPrompt(w.target)), limits, false);
  }

  function PromptAgain(k: Ticket): Transition {
    Transition(Running, Running, Some(PromptSubmitting), Some(k.targetSession), None)
  }

  // ... whose transition the store accepts a second time.
  lemma CheckpointAccepted(s: Sys, t: Id, now: Time)
    requires Idle(s, t)
    ensures TransitionSend(s.mem, t, PromptAgain(s.mem.tickets[t]), now).Write?
  {
    assert TicketCoherent(s.mem, t);
  }

  lemma BeginsAgain(s: Sys, t: Id)
    requires Idle(s, t)
    ensures
      var k := s.mem.tickets[t];
      var m := TransitionSend(s.mem, t, PromptAgain(k), 0);
      && m.Write?
      && ExecuteStep(Place(s, t, ToPrompt(k.targetSession)), t, Proceeds(0))
         == Begun(Place(s, t, ToPrompt(k.targetSession)), t, m.next, WritingPrompt(k.targetSession))
  {
    CheckpointAccepted(s, t, 0);
  }

  lemma {:induction false} AdmitsAtCheckpoint(s: Sys, n: Sys, t: Id, x: Session, limits: Limits)
    requires StandsAt(n, t, Checkpointed(x)) && Leads(s, n, limits, false)
    ensures exists m :: Leads(s, m, limits, false) && m.admits == n.admits + multiset{t}
  {
    hide Leads, Coherent, BeginTransition;
    var m := Do(n, Execute(t, TakesPrompt), limits, false);
    assert m.admits == n.admits + multiset{t};
    hide Do;
    LeadsByStep(s, n, Execute(t, TakesPrompt), limits, false);
  }

  // The checkpoint can be written a second time.
  ghost predicate HasRoom(v: Store, t: Id, limits: Limits)
    requires t in v.tickets
  {
    var m := TransitionSend(v, t, PromptAgain(v.tickets[t]), 0);
    m.Write? ==> Fits(m.next, limits)
  }

  lemma AdmitsAgain(s: Sys, t: Id, limits: Limits)
    requires Idle(s, t) && HasRoom(s.mem, t, limits)
    ensures exists n ::
              Leads(Place(s, t, ToPrompt(s.mem.tickets[t].targetSession)), n, limits, false)
              && n.admits == s.admits + multiset{t}
  {
    var x := s.mem.tickets[t].targetSession;
    var a := Place(s, t, ToPrompt(x));
    BeginsAgain(s, t);
    var b := WriteStep(a, t, PromptAgain(s.mem.tickets[t]), WritingPrompt(x), limits, false);
    AdmitsAtCheckpoint(a, b, t, x, limits);
  }

  lemma LoadingIsAdmittedAgain(s: Sys, t: Id, limits: Limits)
    requires Idle(s, t) && HasRoom(s.mem, t, limits)
    ensures exists n :: Leads(Place(s, t, Loading), n, limits, false) && n.admits[t] == s.admits[t] + 1
  {
    var k := s.mem.tickets[t];
    var a := Place(s, t, Loading);
    WalksBackToPrompt(s, t, limits);
    AdmitsAgain(s, t, limits);
    var n :| Leads(Place(s, t, ToPrompt(k.targetSession)), n, limits, false) && n.admits == s.admits + multiset{t};
    LeadsOn(a, Place(s, t, ToPrompt(k.targetSession)), n, limits, false);
  }

  lemma LaunchIsAdmittedAgain(s: Sys, t: Id, limits: Limits)
    requires Abandoned(s, t) && t in s.toLaunch && HasRoom(s.mem, t, limits)
    ensures exists n :: Leads(s, n, limits, false) && n.admits[t] == s.admits[t] + 1
  {
    var b := s.(toLaunch := s.toLaunch - {t});
    LeadsFromItself(s, limits, false);
    assert Do(s, Launch(t), limits, false) == Place(b, t, Loading);
    LeadsByStep(s, s, Launch(t), limits, false);
    LoadingIsAdmittedAgain(b, t, limits);
    var n :| Leads(Place(b, t, Loading), n, limits, false) && n.admits[t] == b.admits[t] + 1;
    LeadsOn(s, Place(b, t, Loading), n, limits, false);
  }

  // Wherever a ticket is abandoned, a repeated send that is let in, or that was before a
  // drain, is admitted once more.
  lemma AbandonedIsAdmittedAgain(s: Sys, t: Id, r: SendRequest, limits: Limits)
    requires Abandoned(s, t) && HasRoom(s.mem, t, limits)
    requires Repeats(s.mem.tickets[t].draftId, r, s.mem.tickets[t])
    requires !s.draining || (s.mem.tickets[t].draftId, r) in s.waiting
    ensures exists n :: Leads(s, n, limits, false) && n.admits[t] == s.admits[t] + 1
  {
    var d := s.mem.tickets[t].draftId;
    var id := UnusedId(s.used);
    var b := if (d, r) in s.waiting then s.(waiting := s.waiting - multiset{(d, r)}) else s;
    var a := b.(toLaunch := b.toLaunch + {t});
    assert Leads(s, a, limits, false) by {
      RetryRelaunches(b, t, r, id, 0, limits);
      if (d, r) in s.waiting {
        LeadsFromItself(s, limits, false);
        LeadsByStep(s, s, Submit(d, r, id, 0), limits, false);
      } else {
        SendsThrough(s, d, r, id, 0, limits);
      }
    }
    hide Leads, HasRoom;
    LaunchIsAdmittedAgain(a, t, limits);
    var n :| Leads(a, n, limits, false) && n.admits[t] == a.admits[t] + 1;
    LeadsOn(s, a, n, limits, false);
  }

  lemma {:induction false} UnusedId(used: set<Id>) returns (id: Id)
    ensures forall u | u in used :: u < id
    decreases |used|
  {
    id := 0;
    if used != {} {
      var u :| u in used;
      var above := UnusedId(used - {u});
      id := if above > u then above else u + 1;
      forall v | v in used ensures v < id { assert v != u ==> v in used - {u}; }
    }
  }

  // ---- The exact condition ---------------------------------------------------------------

  // Whoever waits for the write and whether or not it was published: its throw leaves
  // some interrupted ticket without an executor exactly when it does not spare them all.
  lemma ThrowAbandons(s: Sys, landed: bool, limits: Limits)
    requires Inv(s) && s.pending.Some? && (landed ==> Fits(s.mem, limits))
    ensures (exists t :: Unattended(Do(s, WriteThrows(landed), limits, true), t)) <==> !Spares(s)
  {
    ThrowWatched(s, landed);
    var n := Do(s, WriteThrows(landed), limits, true);
    if !AllAttended(n.mem, n.runs) {
      var t :| t in n.mem.tickets && !Attended(n.mem, t, n.runs);
      assert Unattended(n, t);
    }
  }

  // While every throw spares the interrupted tickets, none is ever left without an executor.
  lemma {:induction false} NeverAbandoned(steps: seq<Step>, limits: Limits, t: Id)
    ensures
      var s := Runs(InitialSys(), steps, limits, false);
      s.up ==> !Unattended(s, t)
  {
    RunKeeps(steps, limits);
    var s := Runs(InitialSys(), steps, limits, false);
    assert t in s.mem.tickets && s.up ==> Attended(s.mem, t, s.runs);
  }

  // Somebody will act on the unattended ticket once more, or may. An executor that has yet to
  // read it goes on to the admission unless a drain aborted it. Otherwise the ticket needs a
  // launch: one to be made, or one that a repeated send brings, which a process that serves
  // lets in and one that drains may have let in before.
  ghost predicate ComesBack(s: Sys, t: Id)
    requires t in s.mem.tickets
  {
    if t in s.runs && s.runs[t].pc.Loading? then !s.runs[t].aborted
    else !s.draining || t in s.toLaunch || RepeatWaits(s, s.mem.tickets[t])
  }

  ghost predicate RepeatWaits(s: Sys, k: Ticket) {
    exists r :: (k.draftId, r) in s.waiting && Repeats(k.draftId, r, k)
  }

  lemma ReturnedIsAdmittedAgain(s: Sys, t: Id, limits: Limits)
    requires Abandoned(s, t) && HasRoom(s.mem, t, limits) && ComesBack(s, t)
    ensures exists n :: Leads(s, n, limits, false) && n.admits[t] == s.admits[t] + 1
  {
    var k := s.mem.tickets[t];
    if t in s.toLaunch {
      LaunchIsAdmittedAgain(s, t, limits);
    } else if !s.draining {
      AbandonedIsAdmittedAgain(s, t, Retry(k), limits);
    } else {
      var r :| (k.draftId, r) in s.waiting && Repeats(k.draftId, r, k);
      AbandonedIsAdmittedAgain(s, t, r, limits);
    }
  }

  // Its last executor has finished, or will without looking at it, or has yet to start.
  lemma UnattendedIsAdmittedAgain(s: Sys, t: Id, limits: Limits)
    requires InvButWatched(s) && s.pending.None? && Unattended(s, t) && ComesBack(s, t) && HasRoom(s.mem, t, limits)
    ensures exists n :: Leads(s, n, limits, false) && n.admits[t] == 2
  {
    assert Offered(s, s.mem, t);
    if t in s.runs {
      assert RunFits(s, t);
      if s.runs[t].pc.Loading? {
        assert s.runs[t] == Run(Loading, false) && Place(s, t, Loading) == s;
        LoadingIsAdmittedAgain(s, t, limits);
      } else {
        var a := if s.runs[t].pc.Releasing? then Goto(s, t, Finished) else s;
        FinishesIdly(s, t, limits);
        var b := a.(runs := a.runs - {t});
        assert Do(a, Reap(t), limits, false) == b;
        LeadsByStep(s, a, Reap(t), limits, false);
        ReturnedOn(s, b, t, limits);
      }
    } else {
      LeadsFromItself(s, limits, false);
      ReturnedOn(s, s, t, limits);
    }
  }

  lemma FinishesIdly(s: Sys, t: Id, limits: Limits)
    requires t in s.runs && (s.runs[t].pc.Releasing? || s.runs[t].pc.Finished?)
    ensures Leads(s, if s.runs[t].pc.Releasing? then Goto(s, t, Finished) else s, limits, false)
  {
    LeadsFromItself(s, limits, false);
    hide Leads, TransitionSend, BeginTransition;
    if s.runs[t].pc.Releasing? {
      assert Do(s, Execute(t, TakesPrompt), limits, false) == Goto(s, t, Finished);
      LeadsByStep(s, s, Execute(t, TakesPrompt), limits, false);
    }
  }

  lemma ReturnedOn(s: Sys, a: Sys, t: Id, limits: Limits)
    requires Leads(s, a, limits, false) && Abandoned(a, t) && a.admits[t] == 1
    requires ComesBack(a, t) && HasRoom(a.mem, t, limits)
    ensures exists n :: Leads(s, n, limits, false) && n.admits[t] == 2
  {
    ReturnedIsAdmittedAgain(a, t, limits);
    var n :| Leads(a, n, limits, false) && n.admits[t] == a.admits[t] + 1;
    LeadsOn(s, a, n, limits, false);
  }

  ghost predicate AtMostOnceFrom(s: Sys, limits: Limits) {
    forall n, t :: Leads(s, n, limits, false) ==> n.admits[t] <= 1
  }

  // A throw that was not spared breaks the promise wherever a ticket it leaves unattended
  // returns and its checkpoint can be written again.
  lemma ReturnBreaksPromise(s: Sys, t: Id, limits: Limits)
    requires InvButWatched(s) && s.pending.None? && Unattended(s, t) && ComesBack(s, t) && HasRoom(s.mem, t, limits)
    ensures !AtMostOnceFrom(s, limits)
  {
    UnattendedIsAdmittedAgain(s, t, limits);
  }

  // ---- Both families happen --------------------------------------------------------------

  lemma DoubledFrom(s: Sys, t: Id, limits: Limits)
    requires Leads(InitialSys(), s, limits, false) && s.pending.Some? && !s.draining
    requires t in s.pending.value.saved.tickets && Interrupted(s.pending.value.saved.tickets[t]) && !StaysOn(s, t)
    requires Room(s.pending.value.saved, t, limits)
    ensures exists n, u :: Leads(s, n, limits, true) && n.admits[u] == 2
  {
    var steps :| Runs(InitialSys(), steps, limits, false) == s;
    RunKeeps(steps, limits);
    ThrowKeepsMost(s, false);
    ThrowAttends(s, false, t);
    var a := Do(s, WriteThrows(false), limits, true);
    assert a == Throw(s, false);
    if t in a.runs { assert RunFits(a, t); }
    CheckpointAccepted(a, t, 0);
    RoomFor(a.mem, t, PromptAgain(a.mem.tickets[t]), 0, limits);
    hide Leads, Room, Inv, TransitionSend;
    UnattendedIsAdmittedAgain(a, t, limits);
    var n :| Leads(a, n, limits, false) && n.admits[t] == 2;
    LeadsFromItself(s, limits, true);
    LeadsByStep(s, s, WriteThrows(false), limits, true);
    SparingRunsAreRuns(a, n, limits);
    LeadsOn(s, a, n, limits, true);
  }

  // A run of sparing throws is a run of any throws.
  lemma SparingStep(s: Sys, step: Step, limits: Limits)
    ensures Do(s, step, limits, false) == Do(s, step, limits, true) || Do(s, step, limits, false) == s
  {
    hide Spares, Commit, Throw, ExecuteStep, Create, Cancel, SubmitSend, Recover;
  }

  lemma {:induction false} SparingRun(s: Sys, steps: seq<Step>, limits: Limits)
    ensures Leads(s, Runs(s, steps, limits, false), limits, true)
    decreases |steps|
  {
    hide Leads, Do;
    LeadsFromItself(s, limits, true);
    if steps != [] {
      var but, last := steps[..|steps| - 1], steps[|steps| - 1];
      SparingRun(s, but, limits);
      SparingStep(Runs(s, but, limits, false), last, limits);
      LeadsByStep(s, Runs(s, but, limits, false), last, limits, true);
    }
  }

  lemma SparingRunsAreRuns(s: Sys, n: Sys, limits: Limits)
    requires Leads(s, n, limits, false)
    ensures Leads(s, n, limits, true)
  {
    var steps :| Runs(s, steps, limits, false) == n;
    SparingRun(s, steps, limits);
  }

  lemma AdmittedTwice(limits: Limits)
    requires Spacious(limits)
    ensures exists s, n, t ::
              Leads(InitialSys(), s, limits, false) && s.pending.Some? && s.pending.value.owner.Executor?
              && Leads(s, n, limits, true) && n.admits[t] == 2
  {
    var s := DoubtHappens(limits);
    assert !StaysOn(s, 7);
    DoubledFrom(s, 7, limits);
    var n, t :| Leads(s, n, limits, true) && n.admits[t] == 2;
  }

  // The cancel that crosses a prompt, of any draft that is materializing.
  function CancelOf(d: Draft): CancelRequest {
    CancelRequest(if d.cancelled.Some? then d.cancelled.value.0 + 1 else 0, d.revision, Sha256(""))
  }

  lemma CancelCrosses(s: Sys, t: Id, limits: Limits) returns (n: Sys)
    requires Idle(s, t)
    ensures
      var d := s.mem.tickets[t].draftId;
      d in s.mem.drafts && n == Do(s, CancelDraftStep(d, CancelOf(s.mem.drafts[d]), 0), limits, false)
    ensures n == s.(mem := n.mem, pending := Some(Pending(s.mem, Client)))
    ensures t in n.mem.tickets && n.mem.tickets[t].state.Indeterminate?
  {
    assert TicketCoherent(s.mem, t);
    var d := s.mem.tickets[t].draftId;
    LiveTicketExactlyWhileMaterializing(s.mem, d);
    n := Do(s, CancelDraftStep(d, CancelOf(s.mem.drafts[d]), 0), limits, false);
  }

  // A client's write that was just queued spares every ticket, whatever it records:
  // here a cancel that records doubt while the executor waits for its admission.
  lemma CancelIsSpared(limits: Limits)
    requires Spacious(limits)
    ensures exists s ::
              Leads(InitialSys(), s, limits, false) && s.pending.Some? && s.pending.value.owner.Client? && Spares(s)
              && 7 in s.mem.tickets && s.mem.tickets[7].state.Indeterminate?
  {
    var a := FirstTicketLaunches(limits);
    var b := WalksAlone(a, 7, limits);
    LeadsOn(InitialSys(), a, b, limits, false);
    var steps :| Runs(InitialSys(), steps, limits, false) == b;
    RunKeeps(steps, limits);
    var n := CancelCrosses(b, 7, limits);
    var d := b.mem.tickets[7].draftId;
    LeadsByStep(InitialSys(), b, CancelDraftStep(d, CancelOf(b.mem.drafts[d]), 0), limits, false);
    QueuedWriteSpares(b, n);
  }

  lemma QueuedWriteSpares(s: Sys, n: Sys)
    requires Inv(s) && s.up && s.pending.None?
    requires n == s.(mem := n.mem, pending := Some(Pending(s.mem, Client)))
    ensures Spares(n)
  {
    forall t | t in s.mem.tickets && Interrupted(s.mem.tickets[t]) ensures StaysOn(n, t) {
      assert Attended(s.mem, t, s.runs);
      assert RunFits(s, t);
    }
  }

  // The same cancel once the executor has read the doubt it records and gone: the throw of
  // its write brings the interrupted ticket back without an executor.
  lemma CancelAdmitsTwice(limits: Limits)
    requires Spacious(limits)
    ensures exists s, n, t ::
              Leads(InitialSys(), s, limits, false) && s.pending.Some? && s.pending.value.owner.Client?
              && Leads(s, n, limits, true) && n.admits[t] == 2
  {
    var a := FirstTicketLaunches(limits);
    var b := WalksAlone(a, 7, limits);
    LeadsOn(InitialSys(), a, b, limits, false);
    var s := LeavesOnDoubt(b, limits);
    LeadsOn(InitialSys(), b, s, limits, false);
    assert !StaysOn(s, 7);
    DoubledFrom(s, 7, limits);
    var n, t :| Leads(s, n, limits, true) && n.admits[t] == 2;
  }

  lemma LeavesOnDoubt(s: Sys, limits: Limits) returns (n: Sys)
    requires 7 in s.mem.tickets && AtPc(s, 7, AwaitingAdmission(s.mem.tickets[7].targetSession, false))
    requires Interrupted(s.mem.tickets[7])
    ensures Leads(s, n, limits, false) && n.pending == Some(Pending(s.mem, Client)) && !n.draining && 7 !in n.runs
  {
    hide Coherent, Create, SubmitSend, Cancel, Recover, Runs, TransitionSend;
    var x := s.mem.tickets[7].targetSession;
    var c := MoveStep(s, 7, Throws, AwaitingAdmission(x, false), Catching(Some(x)), limits, false);
    var d := CancelCrosses(c, 7, limits);
    var home := c.mem.tickets[7].draftId;
    LeadsByStep(s, c, CancelDraftStep(home, CancelOf(c.mem.drafts[home]), 0), limits, false);
    n := FinishesOnDoubt(d, x, limits);
    LeadsOn(s, d, n, limits, false);
  }

  lemma FinishesOnDoubt(s: Sys, x: Session, limits: Limits) returns (n: Sys)
    requires 7 in s.mem.tickets && Terminal(s.mem.tickets[7].state)
    requires 7 in s.runs && s.runs[7].pc == Catching(Some(x))
    ensures Leads(s, n, limits, false) && n == s.(runs := s.runs - {7})
  {
    hide Coherent, Create, SubmitSend, Cancel, Recover, Runs, TransitionSend, Leads;
    LeadsFromItself(s, limits, false);
    var a := Do(s, Execute(7, TakesPrompt), limits, false);
    LeadsByStep(s, s, Execute(7, TakesPrompt), limits, false);
    n := Do(a, Reap(7), limits, false);
    LeadsByStep(s, a, Reap(7), limits, false);
    assert s.runs[7 := s.runs[7].(pc := Finished)] - {7} == s.runs - {7};
  }

  // ---- A terminal record taken back ------------------------------------------------------

  // The write of a success throws after it was published, and the executor then records
  // doubt: the file says succeeded, and later indeterminate.
  lemma SuccessTakenBack(limits: Limits)
    requires Spacious(limits)
    ensures exists s, n ::
              Leads(InitialSys(), s, limits, false) && Leads(s, n, limits, false)
              && 7 in s.disk.tickets && s.disk.tickets[7].state.Succeeded?
              && 7 in n.disk.tickets && n.disk.tickets[7].state.Indeterminate?
  {
    var a := FirstTicketLaunches(limits);
    var b := WalksAlone(a, 7, limits);
    LeadsOn(InitialSys(), a, b, limits, false);
    var x := b.mem.tickets[7].targetSession;
    var c := IsTaken(b, 7, x, limits);
    LeadsOn(InitialSys(), b, c, limits, false);
    var s := SuccessThrown(c, x, limits);
    LeadsOn(InitialSys(), c, s, limits, false);
    var n := DoubtWritten(s, x, limits);
  }

  // The executor's own write before its last resort spares every ticket.
  lemma OwnWriteSpares(s: Sys, n: Sys, t: Id)
    requires Inv(s) && s.up && s.pending.None? && t in s.runs && t in n.runs
    requires n == s.(mem := n.mem, pending := Some(Pending(s.mem, Executor(t))), runs := s.runs[t := n.runs[t]])
    requires PastCheckpoint(n.runs[t].pc) && !n.runs[t].pc.WritingTerminal?
    ensures Spares(n)
  {
    forall u | u in s.mem.tickets && Interrupted(s.mem.tickets[u]) ensures StaysOn(n, u) {
      assert Attended(s.mem, u, s.runs);
      assert RunFits(s, u);
    }
  }

  lemma SuccessBegins(s: Sys, x: Session)
    requires AtPc(s, 7, ToSucceeded(x)) && Interrupted(s.mem.tickets[7]) && x == s.mem.tickets[7].targetSession
    ensures
      var m := TransitionSend(s.mem, 7, Transition(Running, Succeeded, Some(PromptSubmitting), Some(x), None), 0);
      m.Write? && ExecuteStep(s, 7, Proceeds(0)) == Begun(s, 7, m.next, WritingSucceeded(x))
      && 7 in m.next.tickets && m.next.tickets[7].state.Succeeded?
  {
    assert TicketCoherent(s.mem, 7);
  }

  lemma SuccessQueued(s: Sys, x: Session, limits: Limits) returns (n: Sys)
    requires Leads(InitialSys(), s, limits, false)
    requires AtPc(s, 7, ToSucceeded(x)) && Interrupted(s.mem.tickets[7]) && x == s.mem.tickets[7].targetSession
    requires Room(s.mem, 7, limits)
    ensures Leads(s, n, limits, false) && Spares(Begun(s, 7, n.mem, WritingSucceeded(x))) && Fits(n.mem, limits)
    ensures n == Begun(s, 7, n.mem, WritingSucceeded(x)) && 7 in n.mem.tickets && n.mem.tickets[7].state.Succeeded?
  {
    var steps :| Runs(InitialSys(), steps, limits, false) == s;
    RunKeeps(steps, limits);
    SuccessBegins(s, x);
    RoomFor(s.mem, 7, Transition(Running, Succeeded, Some(PromptSubmitting), Some(x), None), 0, limits);
    hide Inv, Coherent, Room, Create, SubmitSend, Cancel, Recover, Runs, TransitionSend, Leads, Spares;
    n := Do(s, Execute(7, Proceeds(0)), limits, false);
    OwnWriteSpares(s, n, 7);
    LeadsFromItself(s, limits, false);
    LeadsByStep(s, s, Execute(7, Proceeds(0)), limits, false);
  }

  lemma SuccessThrown(s: Sys, x: Session, limits: Limits) returns (n: Sys)
    requires Leads(InitialSys(), s, limits, false)
    requires AtPc(s, 7, ToSucceeded(x)) && Interrupted(s.mem.tickets[7]) && x == s.mem.tickets[7].targetSession
    requires Room(s.mem, 7, limits)
    ensures Leads(s, n, limits, false) && n.mem == s.mem && AtPc(n, 7, Catching(Some(x)))
    ensures 7 in n.disk.tickets && n.disk.tickets[7].state.Succeeded?
  {
    hide Coherent, Runs, Leads, Spares, Room, Fits;
    var b := SuccessQueued(s, x, limits);
    n := Throw(b, true);
    assert Do(b, WriteThrows(true), limits, false) == n;
    LeadsByStep(s, b, WriteThrows(true), limits, false);
  }

  lemma DoubtBegins(s: Sys, x: Session)
    requires AtPc(s, 7, ToTerminal(true, Some(x))) && Interrupted(s.mem.tickets[7])
    requires x == s.mem.tickets[7].targetSession
    ensures
      var m := TransitionSend(s.mem, 7, LastResort(true, Some(x)), 0);
      m.Write? && ExecuteStep(s, 7, Proceeds(0)) == Begun(s, 7, m.next, WritingTerminal(true))
      && 7 in m.next.tickets && m.next.tickets[7].state.Indeterminate?
  {
    assert TicketCoherent(s.mem, 7);
  }

  lemma DoubtWritten(s: Sys, x: Session, limits: Limits) returns (n: Sys)
    requires AtPc(s, 7, Catching(Some(x))) && Interrupted(s.mem.tickets[7]) && x == s.mem.tickets[7].targetSession
    requires Room(s.mem, 7, limits)
    ensures Leads(s, n, limits, false) && 7 in n.disk.tickets && n.disk.tickets[7].state.Indeterminate?
  {
    hide Room, Coherent, Create, SubmitSend, Cancel, Recover, Runs, TransitionSend, Leads;
    var a := MoveStep(s, 7, TakesPrompt, Catching(Some(x)), ToTerminal(true, Some(x)), limits, false);
    DoubtBegins(a, x);
    n := RoomyStep(a, 7, LastResort(true, Some(x)), WritingTerminal(true), limits);
    LeadsOn(s, a, n, limits, false);
  }

  // ---- A live ticket without an executor -------------------------------------------------

  ghost predicate Live(s: Sys, t: Id) { t in s.mem.tickets && !Terminal(s.mem.tickets[t].state) }

  // The store refuses a last resort exactly when it names another session than the target.
  lemma LastResortRefused(s: Sys, t: Id, now: Time)
    requires Inv(s) && s.up && t in s.runs && s.runs[t].pc.ToTerminal? && s.pending.None? && Live(s, t)
    ensures
      var pc := s.runs[t].pc;
      !TransitionSend(s.mem, t, LastResort(pc.ambiguous, pc.materialized), now).Write?
      <==> !pc.ambiguous && pc.materialized.Some? && pc.materialized.value != s.mem.tickets[t].targetSession
  {
    FactsOf(s, t);
    if Interrupted(s.mem.tickets[t]) { IndeterminateIsNeverRefused(s, t, now); }
    hide Inv;
  }

  lemma LastResortBegins(s: Sys, t: Id, answer: Answer)
    requires t in s.runs && s.runs[t].pc.ToTerminal?
    ensures
      var pc := s.runs[t].pc;
      ExecuteStep(s, t, answer)
      == if answer.Proceeds?
         then BeginTransition(s, t, LastResort(pc.ambiguous, pc.materialized), answer.now,
                              WritingTerminal(pc.ambiguous), Finished, Finished)
         else s
  {
    hide BeginTransition, LastResort;
  }

  lemma LastResortFinishesLive(s: Sys, t: Id, answer: Answer)
    requires Inv(s) && s.up && t in s.runs && s.runs[t].pc.ToTerminal?
    ensures
      var n := ExecuteStep(s, t, answer);
      var pc := s.runs[t].pc;
      n.runs[t].pc.Finished? && Live(n, t)
      <==> !pc.ambiguous && answer.Proceeds? && s.pending.None? && Live(s, t)
           && pc.materialized.Some? && pc.materialized.value != s.mem.tickets[t].targetSession
  {
    hide Inv, TransitionSend, ExecuteStep, LastResort;
    var pc := s.runs[t].pc;
    LastResortBegins(s, t, answer);
    if answer.Proceeds? && s.pending.None? {
      if Live(s, t) { LastResortRefused(s, t, answer.now); }
      BeginGoes(s, t, LastResort(pc.ambiguous, pc.materialized), answer.now, WritingTerminal(pc.ambiguous),
                Finished, Finished);
    }
  }

  // An executor that releases its prompt controller has no live ticket.
  lemma NotDeserted(s: Sys, t: Id)
    requires Inv(s) && s.up && t in s.runs && s.runs[t].pc.Releasing?
    ensures !Live(s, t)
  {
    assert RunFits(s, t);
    if t in s.mem.tickets { assert Attended(s.mem, t, s.runs); }
  }

  // No other action ends the executor of a live ticket ...
  lemma NothingElseFinishes(s: Sys, t: Id, answer: Answer)
    requires t in s.runs && !s.runs[t].pc.Finished? && !s.runs[t].pc.ToTerminal? && !s.runs[t].pc.ToRunning?
    requires s.runs[t].pc.Releasing? ==> !Live(s, t)
    ensures
      match ActionOf(s.mem, t, s.runs[t], answer)
      case Begin(_, _, writing, conflict, refused) => !writing.Finished? && !conflict.Finished? && !refused.Finished?
      case Wait => true
      case GoOn(to) => to.Finished? ==> !Live(s, t)
      case Offer(to) => !to.Finished?
      case Take(to) => !to.Finished?
  {
  }

  // ... but the refusal of its first write, which a ticket that is not queued any more meets.
  lemma FirstWriteNeverFinishesLive(s: Sys, t: Id, now: Time)
    requires Inv(s) && s.up && t in s.runs && s.runs[t].pc.ToRunning? && s.pending.None? && Live(s, t)
    ensures TransitionSend(s.mem, t, Transition(Queued, Running, Some(Starting), None, None), now).Write?
  {
    FactsOf(s, t);
    hide Inv;
  }

  lemma EarlierNeverFinishesLive(s: Sys, t: Id, answer: Answer)
    requires Inv(s) && s.up && t in s.runs && !s.runs[t].pc.Finished? && !s.runs[t].pc.ToTerminal?
    ensures ExecuteStep(s, t, answer).runs[t].pc.Finished? ==> !Live(ExecuteStep(s, t, answer), t)
  {
    if s.runs[t].pc.ToRunning? {
      if answer.Proceeds? && s.pending.None? {
        var tr := Transition(Queued, Running, Some(Starting), None, None);
        if Live(s, t) { FirstWriteNeverFinishesLive(s, t, answer.now); }
        hide Inv, TransitionSend, BeginTransition;
        BeginGoes(s, t, tr, answer.now, WritingRunning, Finished, Finished);
      }
    } else {
      if s.runs[t].pc.Releasing? { NotDeserted(s, t); }
      hide Inv, TransitionSend, ActionOf;
      NothingElseFinishes(s, t, answer);
    }
  }

  // An executor's step finishes it with its ticket still live exactly when the runtime
  // returned another session than the target: the store refuses the failure that names it.
  lemma FinishesLive(s: Sys, t: Id, answer: Answer)
    requires Inv(s) && s.up && t in s.runs && !s.runs[t].pc.Finished?
    ensures
      var n := ExecuteStep(s, t, answer);
      var pc := s.runs[t].pc;
      n.runs[t].pc.Finished? && Live(n, t)
      <==> pc.ToTerminal? && !pc.ambiguous && answer.Proceeds? && s.pending.None? && Live(s, t)
           && pc.materialized.Some? && pc.materialized.value != s.mem.tickets[t].targetSession
  {
    hide Inv, ExecuteStep;
    if s.runs[t].pc.ToTerminal? { LastResortFinishesLive(s, t, answer); }
        else { EarlierNeverFinishesLive(s, t, answer); }
  }

  // A throw does so exactly for the two writes whose failure the executor swallows.
  lemma ThrowFinishesLive(s: Sys, t: Id, landed: bool)
    requires Inv(s) && s.pending.Some? && s.pending.value.owner == Executor(t)
    ensures
      var n := Throw(s, landed);
      t in s.runs && t in n.runs && Live(n, t)
      && (n.runs[t].pc.Finished? <==> s.runs[t].pc.WritingRunning? || s.runs[t].pc.WritingTerminal?)
  {
    assert InFlight(s, t);
  }
}
