/**
 No live ticket is left behind: as long as no write throws and the runtime opens the target
 session, every ticket that has not ended has an executor at work, or one to come
 (src/dashboard-session-materializer.ts:92-122, 152-289).
 */
module FirstSendProgress {
  import opened Wrappers
  import opened Drafts
  import opened DraftsCoherence
  import opened FirstSend
  import opened FirstSendInvariant
  import opened FirstSendControl
  import opened FirstSendExecutor
  import opened FirstSendSafety

  // The session that an executor has in hand.
  function Holding(pc: Pc): Option<Session> {
    match pc
    case Entering(w) => w.session
    case OpeningSession(w) => w.session
    case ToReady(x) => Some(x)
    case WritingReady(x) => Some(x)
    case ReloadingReady(x) => Some(x)
    case Acquiring(x) => Some(x)
    case ToPrompt(x) => Some(x)
    case _ => SessionAt(pc)
  }

  function TargetOf(pc: Pc): Option<Session> {
    match pc
    case Entering(w) => Some(w.target)
    case OpeningSession(w) => Some(w.target)
    case _ => None
  }

  // It is the ticket's target.
  predicate HoldsTarget(pc: Pc, k: Ticket) {
    (Holding(pc).Some? ==> Holding(pc).value == k.targetSession)
    && (TargetOf(pc).Some? ==> TargetOf(pc).value == k.targetSession)
  }

  predicate AtWork(pc: Pc) { !pc.Finished? && !pc.Releasing? }

  // The ticket has ended, or has an executor at work, or will get one.
  ghost predicate Served(s: Sys, t: Id)
    requires t in s.mem.tickets
  {
    || Terminal(s.mem.tickets[t].state)
    || (if t in s.runs then AtWork(s.runs[t].pc)
        else t in s.toLaunch || (s.pending.Some? && s.pending.value.owner == Submitter(t)))
  }

  ghost predicate OnTarget(s: Sys, t: Id)
    requires t in s.runs
  {
    t in s.mem.tickets ==> HoldsTarget(s.runs[t].pc, s.mem.tickets[t])
  }

  ghost predicate AllServed(s: Sys) {
    s.up ==>
      && (forall t {:trigger Served(s, t)} | t in s.mem.tickets :: Served(s, t))
      && (forall t {:trigger OnTarget(s, t)} | t in s.runs :: OnTarget(s, t))
  }

  // A write throws, or the runtime opens another session than the executor asked for.
  ghost predicate Fails(s: Sys, step: Step) {
    || step.WriteThrows?
    || (step.Execute? && step.answer.Returns? && step.ticketId in s.runs && s.runs[step.ticketId].pc.OpeningSession?
        && step.answer.session != s.runs[step.ticketId].pc.work.target)
  }

  // ---- An executor's own step -----------------------------------------------------------------

  // Where an executor may go: to another place with its target in hand, and to its end only when
  // its ticket has ended.
  ghost predicate MayGoTo(mem: Store, t: Id, to: Pc) {
    t in mem.tickets ==>
      HoldsTarget(to, mem.tickets[t]) && (AtWork(to) || Terminal(mem.tickets[t].state))
  }

  // What an executor knows of the ticket that it reads.
  predicate KnowsTarget(mem: Store, t: Id, pc: Pc) {
    t in mem.tickets ==>
      && HoldsTarget(pc, mem.tickets[t])
      && (mem.tickets[t].session.Some? ==> mem.tickets[t].session.value == mem.tickets[t].targetSession)
      && (AtWork(pc) || Terminal(mem.tickets[t].state))
  }

  ghost predicate ActionGoesOn(mem: Store, t: Id, a: Action) {
    match a
    case GoOn(to) => MayGoTo(mem, t, to)
    case Offer(to) => MayGoTo(mem, t, to)
    case Take(to) => MayGoTo(mem, t, to)
    case _ => true
  }

  lemma ReadingGoesOn(mem: Store, t: Id, run: Run, answer: Answer)
    requires KnowsTarget(mem, t, run.pc) && ReadsAt(run.pc)
    requires run.pc.OpeningSession? && answer.Returns? ==> answer.session == run.pc.work.target
    ensures ActionGoesOn(mem, t, ActionOf(mem, t, run, answer))
  {
    hide LastResort;
  }

  lemma OfferingGoesOn(mem: Store, t: Id, run: Run, answer: Answer)
    requires KnowsTarget(mem, t, run.pc) && !ReadsAt(run.pc) && !run.pc.Finished?
    ensures ActionGoesOn(mem, t, ActionOf(mem, t, run, answer))
  {
    hide LastResort;
  }

  lemma GoesOn(s: Sys, t: Id, answer: Answer)
    requires Reading(s, t) && OnTarget(s, t) && (t in s.mem.tickets ==> Served(s, t)) && !Fails(s, Execute(t, answer))
    requires !s.runs[t].pc.Finished?
    ensures ActionGoesOn(s.mem, t, ActionOf(s.mem, t, s.runs[t], answer))
  {
    if t in s.mem.tickets { assert TicketCoherent(s.mem, t); }
    hide Inv, ActionOf, HoldsTarget;
    if ReadsAt(s.runs[t].pc) { ReadingGoesOn(s.mem, t, s.runs[t], answer); }
    else { OfferingGoesOn(s.mem, t, s.runs[t], answer); }
  }

  // Only a first transition or a last resort ends an executor that is refused, and only because
  // its ticket has ended.
  lemma FirstIsTaken(s: Sys, t: Id, now: Time)
    requires Reading(s, t) && s.runs[t].pc.ToRunning? && t in s.mem.tickets && !Terminal(s.mem.tickets[t].state)
    ensures TransitionSend(s.mem, t, Transition(Queued, Running, Some(Starting), None, None), now).Write?
  {
    assert RunFits(s, t) && TicketCoherent(s.mem, t);
    hide Inv;
  }

  lemma LastIsTaken(s: Sys, t: Id, now: Time)
    requires Reading(s, t) && s.runs[t].pc.ToTerminal? && t in s.mem.tickets && !Terminal(s.mem.tickets[t].state)
    requires OnTarget(s, t)
    ensures TransitionSend(s.mem, t, LastResort(s.runs[t].pc.ambiguous, s.runs[t].pc.materialized), now).Write?
  {
    assert RunFits(s, t) && TicketCoherent(s.mem, t);
    hide Inv;
  }

  // What an executor that begins a transition will do with its answer.
  lemma BeginsWith(s: Sys, t: Id, answer: Answer)
    requires Reading(s, t) && OnTarget(s, t) && t in s.mem.tickets && ActionOf(s.mem, t, s.runs[t], answer).Begin?
    ensures
      var a, k, pc := ActionOf(s.mem, t, s.runs[t], answer), s.mem.tickets[t], s.runs[t].pc;
      && HoldsTarget(a.writing, k) && AtWork(a.writing) && HoldsTarget(a.conflict, k) && HoldsTarget(a.refused, k)
      && ((AtWork(a.conflict) && AtWork(a.refused))
          || (pc.ToRunning? && a.tr == Transition(Queued, Running, Some(Starting), None, None))
          || (pc.ToTerminal? && a.tr == LastResort(pc.ambiguous, pc.materialized)))
  {
    hide Inv, TransitionSend;
  }

  // A transition that an executor begins is taken, or its ticket has ended, or it goes on.
  lemma BeginsOrGoes(s: Sys, t: Id, answer: Answer)
    requires Reading(s, t) && OnTarget(s, t) && t in s.mem.tickets && ActionOf(s.mem, t, s.runs[t], answer).Begin?
    ensures
      var a := ActionOf(s.mem, t, s.runs[t], answer);
      !TransitionSend(s.mem, t, a.tr, a.now).Write? ==> MayGoTo(s.mem, t, a.conflict) && MayGoTo(s.mem, t, a.refused)
  {
    var a := ActionOf(s.mem, t, s.runs[t], answer);
    BeginsWith(s, t, answer);
    if !Terminal(s.mem.tickets[t].state) {
      if s.runs[t].pc.ToRunning? { FirstIsTaken(s, t, a.now); }
      if s.runs[t].pc.ToTerminal? { LastIsTaken(s, t, a.now); }
    }
    hide Inv, TransitionSend, ActionOf, HoldsTarget;
  }

  lemma TransitionChanges(v: Store, t: Id, tr: Transition, now: Time)
    ensures
      var m := TransitionSend(v, t, tr, now);
      m.Write? ==>
        && t in v.tickets && t in m.next.tickets && m.next.tickets == v.tickets[t := m.next.tickets[t]]
        && m.next.tickets[t].targetSession == v.tickets[t].targetSession
  {
  }

  // ---- Every step ---------------------------------------------------------------------------------

  // The step changes no ticket but `t`, and no other executor.
  ghost predicate OnlyOf(s: Sys, n: Sys, t: Id) {
    && n.up == s.up && n.toLaunch == s.toLaunch
    && (s.pending.Some? && s.pending.value.owner.Submitter? ==> n.pending == s.pending)
    && (forall u | u in n.mem.tickets :: u in s.mem.tickets && (u != t ==> n.mem.tickets[u] == s.mem.tickets[u]))
    && (forall u | u in n.runs :: u in s.runs) && (forall u | u in s.runs :: u in n.runs)
    && (forall u | u in n.runs && u != t :: n.runs[u].pc == s.runs[u].pc)
  }

  lemma OnlyOneServes(s: Sys, n: Sys, t: Id)
    requires AllServed(s) && OnlyOf(s, n, t) && t in s.runs
    requires t in n.mem.tickets ==>
               HoldsTarget(n.runs[t].pc, n.mem.tickets[t])
               && (AtWork(n.runs[t].pc) || Terminal(n.mem.tickets[t].state))
    ensures AllServed(n)
  {
    if n.up {
      forall u | u in n.mem.tickets ensures Served(n, u) { assert Served(s, u); }
      forall u | u in n.runs ensures OnTarget(n, u) { assert OnTarget(s, u); }
    }
  }

  lemma ExecuteServes(s: Sys, t: Id, answer: Answer)
    requires Inv(s) && AllServed(s) && s.up && t in s.runs && !Fails(s, Execute(t, answer))
    ensures AllServed(ExecuteStep(s, t, answer))
  {
    var n, pc := ExecuteStep(s, t, answer), s.runs[t].pc;
    assert OnTarget(s, t) && (t in s.mem.tickets ==> Served(s, t));
    if pc.Finished? || Writing(pc) {
      FinishedKeeps(s, t, answer);
    } else {
      var a := ActionOf(s.mem, t, s.runs[t], answer);
      assert Reading(s, t);
      GoesOn(s, t, answer);
      hide Inv, Reading, ActionOf, TransitionSend, HoldsTarget, Fails;
      if a.Begin? {
        BeginServes(s, t, answer);
      } else if a != Wait {
        assert OnlyOf(s, n, t);
        OnlyOneServes(s, n, t);
      }
    }
  }

  lemma BeginServes(s: Sys, t: Id, answer: Answer)
    requires Reading(s, t) && AllServed(s) && OnTarget(s, t) && ActionOf(s.mem, t, s.runs[t], answer).Begin?
    ensures AllServed(ExecuteStep(s, t, answer))
  {
    var a := ActionOf(s.mem, t, s.runs[t], answer);
    var n := ExecuteStep(s, t, answer);
    TransitionChanges(s.mem, t, a.tr, a.now);
    if t in s.mem.tickets {
      BeginsWith(s, t, answer);
      BeginsOrGoes(s, t, answer);
    }
    hide Inv, ActionOf, TransitionSend, AllServed;
    if s.pending.None? {
      BeginGoes(s, t, a.tr, a.now, a.writing, a.conflict, a.refused);
      assert OnlyOf(s, n, t);
      OnlyOneServes(s, n, t);
    }
  }

  // A write lands: the submission's ticket will be launched, and an executor goes on.
  lemma CommitServes(s: Sys)
    requires Inv(s) && AllServed(s) && s.up && s.pending.Some?
    ensures AllServed(Commit(s))
  {
    var n, o := Commit(s), s.pending.value.owner;
    if o.Executor? && o.ticketId in s.runs && o.ticketId in s.mem.tickets { CommitEnds(s, o.ticketId); }
    hide Inv;
    forall u | u in n.mem.tickets ensures Served(n, u) { assert Served(s, u); }
    forall u | u in n.runs ensures OnTarget(n, u) { assert OnTarget(s, u); }
  }

  // An executor whose last write landed has a ticket that ended.
  lemma CommitEnds(s: Sys, t: Id)
    requires Inv(s) && s.pending.Some? && s.pending.value.owner == Executor(t) && t in s.runs && t in s.mem.tickets
    ensures AtWork(AfterCommit(s.runs[t].pc)) || Terminal(s.mem.tickets[t].state)
    ensures HoldsTarget(s.runs[t].pc, s.mem.tickets[t]) ==>
        HoldsTarget(AfterCommit(s.runs[t].pc), s.mem.tickets[t])
  {
    assert InFlight(s, t);
    hide Inv;
  }

  // A client's mutation leaves every old ticket live only if it was, and adds one at most, which
  // is the submission's.
  ghost predicate OnlyAdds(s: Sys, n: Sys) {
    && n.up == s.up && n.runs == s.runs && s.toLaunch <= n.toLaunch
    && (n.pending == s.pending || (s.pending.None? && n.pending.Some?))
    && forall u | u in n.mem.tickets ::
         if u in s.mem.tickets then
           && (!Terminal(n.mem.tickets[u].state) ==> !Terminal(s.mem.tickets[u].state))
           && n.mem.tickets[u].targetSession == s.mem.tickets[u].targetSession
         else u !in s.runs && n.pending.Some? && n.pending.value.owner == Submitter(u)
  }

  lemma AddingServes(s: Sys, n: Sys)
    requires AllServed(s) && OnlyAdds(s, n)
    ensures AllServed(n)
  {
    if n.up {
      forall u | u in n.mem.tickets ensures Served(n, u) { if u in s.mem.tickets { assert Served(s, u); } }
      forall u | u in n.runs ensures OnTarget(n, u) { assert OnTarget(s, u); }
    }
  }

  lemma CreateAdds(v: Store, r: CreateRequest, id: Id, now: Time, limits: Limits)
    ensures Create(v, r, id, now, limits).Write? ==>
              forall u | u in Create(v, r, id, now, limits).next.tickets ::
                u in v.tickets && Create(v, r, id, now, limits).next.tickets[u] == v.tickets[u]
  {
  }

  lemma CancelAdds(v: Store, d: Id, r: CancelRequest, now: Time)
    ensures Cancel(v, d, r, now).Write? ==>
              forall u | u in Cancel(v, d, r, now).next.tickets ::
                && u in v.tickets
                && (Cancel(v, d, r, now).next.tickets[u] == v.tickets[u]
                    || Cancel(v, d, r, now).next.tickets[u] == CancelTicket(v.tickets[u], now))
  {
  }

  lemma SubmitAdds(v: Store, d: Id, r: SendRequest, id: Id, now: Time, limits: Limits)
    ensures SubmitSend(v, d, r, id, now, limits).Write? ==>
              forall u | u in SubmitSend(v, d, r, id, now, limits).next.tickets && u != id ::
                u in v.tickets && SubmitSend(v, d, r, id, now, limits).next.tickets[u] == v.tickets[u]
  {
  }

  lemma CreateOnlyAdds(s: Sys, r: CreateRequest, id: Id, now: Time, limits: Limits)
    ensures OnlyAdds(s, Do(s, CreateDraft(r, id, now), limits, false))
  {
    CreateAdds(s.mem, r, id, now, limits);
    hide Create;
  }

  lemma CancelOnlyAdds(s: Sys, d: Id, r: CancelRequest, now: Time, limits: Limits)
    ensures OnlyAdds(s, Do(s, CancelDraftStep(d, r, now), limits, false))
  {
    CancelAdds(s.mem, d, r, now);
    hide Cancel;
  }

  lemma RunSubmitAdds(s: Sys, d: Id, r: SendRequest, id: Id, now: Time, limits: Limits)
    requires s.pending.None? && id !in s.runs && id !in s.mem.tickets
    ensures OnlyAdds(s, RunSubmit(s, d, r, id, now, limits))
  {
    SubmitAdds(s.mem, d, r, id, now, limits);
    hide SubmitSend;
  }

  lemma SubmitOnlyAdds(s: Sys, d: Id, r: SendRequest, id: Id, now: Time, limits: Limits)
    requires Inv(s)
    ensures OnlyAdds(s, Do(s, Submit(d, r, id, now), limits, false))
  {
    hide RunSubmit;
    if id !in s.used && s.pending.None? {
      NotYetRunning(s, id);
      RunSubmitAdds(s.(waiting := s.waiting - multiset{(d, r)}), d, r, id, now, limits);
    }
    hide Inv;
  }

  lemma ClientServes(s: Sys, step: Step, limits: Limits)
    requires Inv(s) && AllServed(s)
    requires step.CreateDraft? || step.CancelDraftStep? || step.CallSend? || step.Submit?
    ensures AllServed(Do(s, step, limits, false))
  {
    hide Inv, AllServed, OnlyAdds;
    match step {
      case CreateDraft(r, id, now) => CreateOnlyAdds(s, r, id, now, limits);
      case CancelDraftStep(d, r, now) => CancelOnlyAdds(s, d, r, now, limits);
      case Submit(d, r, id, now) => SubmitOnlyAdds(s, d, r, id, now, limits);
      case CallSend(_, _) => CallOnlyAdds(s, step, limits);
    }
    hide Do;
    AddingServes(s, Do(s, step, limits, false));
  }

  lemma CallOnlyAdds(s: Sys, step: Step, limits: Limits)
    requires step.CallSend?
    ensures OnlyAdds(s, Do(s, step, limits, false))
  {
  }

  lemma NotYetRunning(s: Sys, id: Id)
    requires Inv(s) && id !in s.used
    ensures id !in s.runs && id !in s.mem.tickets
  {
    assert id in s.runs ==> RunFits(s, id);
    assert FreshTicketId(s.mem, id);
  }

  // A start launches an executor for every ticket that it leaves live.
  lemma RestartServes(s: Sys, now: Time, writes: bool, limits: Limits)
    requires Inv(s) && !s.up
    ensures
      var n := Do(s, Restart(now, writes), limits, false);
      && AllServed(n)
      && (n.up ==> forall t | t in n.mem.tickets && !Terminal(n.mem.tickets[t].state) ::
            t in n.runs && n.runs[t] == Run(Loading, false))
  {
    var n := Do(s, Restart(now, writes), limits, false);
    RestartGives(s, now, writes, limits);
    RestartRuns(s, now, writes, limits);
    var found := Found(s, limits);
    forall t | t in Recover(found, now, limits).tickets ensures !Interrupted(Recover(found, now, limits).tickets[t]) {
      RecoveredTicket(found, now, limits, t);
    }
    hide Inv, Recover, Do;
    if n.up {
      assert forall t | t in n.mem.tickets :: !Interrupted(n.mem.tickets[t]);
      forall t | t in n.mem.tickets ensures Served(n, t) { }
    }
  }

  lemma RestartRuns(s: Sys, now: Time, writes: bool, limits: Limits)
    requires !s.up
    ensures
      var n := Do(s, Restart(now, writes), limits, false);
      n.up ==> n.mem == Recover(Found(s, limits), now, limits)
               && n.runs == map t | t in n.mem.tickets && Recoverable(n.mem.tickets[t]) :: Run(Loading, false)
  {
    hide Recover, AnyInterrupted;
  }

  lemma QuietServes(s: Sys, step: Step, limits: Limits)
    requires AllServed(s) && s.up && (step.Launch? || step.Reap? || step.BeginDrain?)
    ensures AllServed(Do(s, step, limits, false))
  {
    var n := Do(s, step, limits, false);
    forall u | u in n.mem.tickets ensures Served(n, u) { assert Served(s, u); }
    forall u | u in n.runs ensures OnTarget(n, u) { if u in s.runs { assert OnTarget(s, u); } }
  }

  lemma DownServes(s: Sys, step: Step, limits: Limits)
    requires Inv(s) && !s.up && !step.Restart?
    ensures AllServed(Do(s, step, limits, false))
  {
    hide Recover, SubmitSend;
  }

  lemma {:induction false} StepServes(s: Sys, step: Step, limits: Limits)
    requires Inv(s) && AllServed(s) && !Fails(s, step)
    ensures AllServed(Do(s, step, limits, false))
  {
    hide Inv, AllServed, ExecuteStep, Fails;
    if !s.up && !step.Restart? {
      DownServes(s, step, limits);
    } else {
      match step
      case Execute(t, answer) => if t in s.runs { ExecuteServes(s, t, answer); }
      case WriteCommits => if s.pending.Some? { CommitServes(s); }
      case Crash(_) => CrashServes(s, step, limits);
      case Restart(now, writes) => if !s.up { RestartServes(s, now, writes, limits); }
      case Launch(_) => QuietServes(s, step, limits);
      case Reap(_) => QuietServes(s, step, limits);
      case BeginDrain => QuietServes(s, step, limits);
      case WriteThrows(_) => ThrowFails(s, step);
      case _ => ClientServes(s, step, limits);
    }
  }

  lemma ThrowFails(s: Sys, step: Step)
    ensures step.WriteThrows? ==> Fails(s, step)
  {
  }

  lemma CrashServes(s: Sys, step: Step, limits: Limits)
    requires step.Crash? && s.up
    ensures AllServed(Do(s, step, limits, false))
  {
  }

  ghost predicate NeverFails(steps: seq<Step>, limits: Limits) {
    forall k | 0 <= k < |steps| :: !Fails(Reached([], steps, limits, k), steps[k])
  }

  // In every run of clients, executors, drains, crashes and restarts in which no write throws and
  // the runtime opens the target sessions: every ticket in memory has ended, or has an executor at
  // work on it, or is about to get one.
  lemma {:induction false} NeverStuck(steps: seq<Step>, limits: Limits)
    requires NeverFails(steps, limits)
    ensures AllServed(Runs(InitialSys(), steps, limits, false))
    decreases |steps|
  {
    if steps != [] {
      hide Inv, Do, Fails, AllServed;
      var but := steps[..|steps| - 1];
      forall k | 0 <= k < |but| ensures !Fails(Reached([], but, limits, k), but[k]) {
        ReachedBefore([], steps, limits, k);
        assert !Fails(Reached([], steps, limits, k), steps[k]);
      }
      assert [] + steps[..|but|] == but;
      assert !Fails(Reached([], steps, limits, |but|), steps[|but|]);
      NeverStuck(but, limits);
      RunKeeps(but, limits);
      StepServes(Runs(InitialSys(), but, limits, false), steps[|steps| - 1], limits);
    }
  }

  // ---- Only the target session is worked on ---------------------------------------------------------

  // The session that an executor works on: prepares, acquires, offers the prompt to.
  function WorksOn(pc: Pc): Option<Session> {
    if pc.Catching? || pc.ToTerminal? then None else Holding(pc)
  }

  predicate Aims(pc: Pc, k: Ticket) {
    && (WorksOn(pc).Some? ==> WorksOn(pc).value == k.targetSession)
    && (TargetOf(pc).Some? ==> TargetOf(pc).value == k.targetSession)
  }

  ghost predicate AimsIn(v: Store, t: Id, pc: Pc) { t in v.tickets ==> Aims(pc, v.tickets[t]) }

  ghost predicate RunAims(s: Sys, t: Id)
    requires t in s.runs
  {
    AimsIn(s.mem, t, s.runs[t].pc) && (s.pending.Some? ==> AimsIn(s.pending.value.saved, t, s.runs[t].pc))
  }

  ghost predicate AllAim(s: Sys) { forall t {:trigger RunAims(s, t)} | t in s.runs :: RunAims(s, t) }

  predicate ActionAimsAt(a: Action, k: Ticket) {
    match a
    case GoOn(to) => Aims(to, k)
    case Offer(to) => Aims(to, k)
    case Take(to) => Aims(to, k)
    case Begin(_, _, writing, conflict, refused) => Aims(writing, k) && Aims(conflict, k) && Aims(refused, k)
    case Wait => true
  }

  // Where an executor goes it still aims at the target of any record of its ticket that agrees
  // with what it reads.
  lemma AimGoesOn(mem: Store, t: Id, run: Run, answer: Answer, k: Ticket)
    requires Aims(run.pc, k)
    requires t in mem.tickets ==>
               && mem.tickets[t].targetSession == k.targetSession
               && (mem.tickets[t].session.Some? ==> mem.tickets[t].session.value == k.targetSession)
    ensures ActionAimsAt(ActionOf(mem, t, run, answer), k)
  {
    hide LastResort;
  }

  // What it reads agrees with every version that has its ticket.
  lemma ReadsAgree(s: Sys, t: Id)
    requires Reading(s, t) && t in s.mem.tickets
    ensures s.mem.tickets[t].session.Some? ==> s.mem.tickets[t].session.value == s.mem.tickets[t].targetSession
    ensures s.pending.Some? && t in s.pending.value.saved.tickets ==>
              s.pending.value.saved.tickets[t].targetSession == s.mem.tickets[t].targetSession
  {
    assert TicketCoherent(s.mem, t);
    if s.pending.Some? { WhatAReadSees(s, t); }
    hide Inv;
  }

  lemma ActionAims(s: Sys, t: Id, answer: Answer)
    requires Reading(s, t) && RunAims(s, t)
    ensures
      var a := ActionOf(s.mem, t, s.runs[t], answer);
      && (t in s.mem.tickets ==> ActionAimsAt(a, s.mem.tickets[t]))
      && (s.pending.Some? && t in s.pending.value.saved.tickets ==>
            ActionAimsAt(a, s.pending.value.saved.tickets[t]))
  {
    if t in s.mem.tickets {
      ReadsAgree(s, t);
      AimGoesOn(s.mem, t, s.runs[t], answer, s.mem.tickets[t]);
    }
    if s.pending.Some? && t in s.pending.value.saved.tickets {
      AimGoesOn(s.mem, t, s.runs[t], answer, s.pending.value.saved.tickets[t]);
    }
    hide Reading, ActionOf, Aims;
  }

  // The executor moves, or queues a transition of its ticket.
  lemma MovedAims(s: Sys, n: Sys, t: Id)
    requires AllAim(s) && OnlyOf(s, n, t) && t in n.runs
    requires || (n.mem == s.mem && n.pending == s.pending)
             || (n.pending.Some? && n.pending.value.saved == s.mem
                 && (t in n.mem.tickets ==> n.mem.tickets[t].targetSession == s.mem.tickets[t].targetSession))
    requires t in s.mem.tickets ==> Aims(n.runs[t].pc, s.mem.tickets[t])
    requires n.pending == s.pending && s.pending.Some? && t in s.pending.value.saved.tickets ==>
               Aims(n.runs[t].pc, s.pending.value.saved.tickets[t])
    ensures AllAim(n)
  {
    SameTargetAims();
    hide Aims;
    forall u | u in n.runs ensures RunAims(n, u) { assert RunAims(s, u); }
  }

  lemma SameTargetAims()
    ensures forall pc, k: Ticket, k': Ticket {:trigger Aims(pc, k), Aims(pc, k')} | k.targetSession == k'.targetSession ::
              Aims(pc, k) ==> Aims(pc, k')
  {
  }

  lemma MoveAims(s: Sys, t: Id, answer: Answer)
    requires t in s.runs && AllAim(s) && !ActionOf(s.mem, t, s.runs[t], answer).Begin?
    requires
      var a := ActionOf(s.mem, t, s.runs[t], answer);
      && (t in s.mem.tickets ==> ActionAimsAt(a, s.mem.tickets[t]))
      && (s.pending.Some? && t in s.pending.value.saved.tickets ==>
            ActionAimsAt(a, s.pending.value.saved.tickets[t]))
    ensures AllAim(ExecuteStep(s, t, answer))
  {
    var n, a := ExecuteStep(s, t, answer), ActionOf(s.mem, t, s.runs[t], answer);
    hide ActionOf, Aims, AllAim;
    if a != Wait {
      assert OnlyOf(s, n, t);
      MovedAims(s, n, t);
    }
  }

  lemma ExecuteAims(s: Sys, t: Id, answer: Answer)
    requires Inv(s) && AllAim(s) && s.up && t in s.runs
    ensures AllAim(ExecuteStep(s, t, answer))
  {
    var pc := s.runs[t].pc;
    if pc.Finished? || Writing(pc) {
      FinishedKeeps(s, t, answer);
    } else {
      assert Reading(s, t) && RunAims(s, t);
      ActionAims(s, t, answer);
      hide Inv, Reading, ActionOf, AllAim, ExecuteStep, ActionAimsAt;
      if !ActionOf(s.mem, t, s.runs[t], answer).Begin? { MoveAims(s, t, answer); }
      else if s.pending.None? { BeginAims(s, t, answer); }
      else { BeginWaits(s, t, answer); }
    }
  }

  lemma BeginWaits(s: Sys, t: Id, answer: Answer)
    requires t in s.runs && s.pending.Some? && ActionOf(s.mem, t, s.runs[t], answer).Begin?
    ensures ExecuteStep(s, t, answer) == s
  {
    hide ActionOf;
  }

  lemma BeginAims(s: Sys, t: Id, answer: Answer)
    requires t in s.runs && s.pending.None? && AllAim(s) && ActionOf(s.mem, t, s.runs[t], answer).Begin?
    requires t in s.mem.tickets ==> ActionAimsAt(ActionOf(s.mem, t, s.runs[t], answer), s.mem.tickets[t])
    ensures AllAim(ExecuteStep(s, t, answer))
  {
    var n, a := ExecuteStep(s, t, answer), ActionOf(s.mem, t, s.runs[t], answer);
    TransitionChanges(s.mem, t, a.tr, a.now);
    BeginGoes(s, t, a.tr, a.now, a.writing, a.conflict, a.refused);
    hide ActionOf, TransitionSend, Aims, AllAim, BeginTransition;
    assert OnlyOf(s, n, t);
    MovedAims(s, n, t);
  }

  lemma SettlingAims(pc: Pc, k: Ticket)
    requires Aims(pc, k)
    ensures Aims(AfterCommit(pc), k) && Aims(AfterThrow(pc), k)
  {
  }

  lemma SettleAims(s: Sys, n: Sys)
    requires AllAim(s) && n.pending.None? && s.pending.Some?
    requires n.mem == s.mem || n.mem == s.pending.value.saved
    requires forall u | u in n.runs ::
               u in s.runs && (n.runs[u].pc == s.runs[u].pc || n.runs[u].pc == AfterCommit(s.runs[u].pc)
                               || n.runs[u].pc == AfterThrow(s.runs[u].pc))
    ensures AllAim(n)
  {
    hide Aims, AfterCommit, AfterThrow;
    forall u | u in n.runs ensures RunAims(n, u) {
      assert RunAims(s, u);
      if u in n.mem.tickets { SettlingAims(s.runs[u].pc, n.mem.tickets[u]); }
    }
  }

  lemma ClientAims(s: Sys, step: Step, limits: Limits)
    requires Inv(s) && AllAim(s)
    requires step.CreateDraft? || step.CancelDraftStep? || step.CallSend? || step.Submit?
    ensures AllAim(Do(s, step, limits, false))
  {
    hide Inv, AllAim, OnlyAdds;
    match step {
      case CreateDraft(r, id, now) => CreateOnlyAdds(s, r, id, now, limits);
      case CancelDraftStep(d, r, now) => CancelOnlyAdds(s, d, r, now, limits);
      case Submit(d, r, id, now) => SubmitOnlyAdds(s, d, r, id, now, limits);
      case CallSend(_, _) => CallOnlyAdds(s, step, limits);
    }
    ClientSaves(s, step, limits);
    hide Do;
    AddingAims(s, Do(s, step, limits, false));
  }

  lemma ClientSaves(s: Sys, step: Step, limits: Limits)
    requires step.CreateDraft? || step.CancelDraftStep? || step.CallSend? || step.Submit?
    ensures
      var n := Do(s, step, limits, false);
      if n.pending == s.pending then n.mem == s.mem else n.pending.Some? && n.pending.value.saved == s.mem
  {
    hide Create, Cancel, SubmitSend;
  }

  lemma AddingAims(s: Sys, n: Sys)
    requires AllAim(s) && OnlyAdds(s, n)
    requires if n.pending == s.pending then n.mem == s.mem else n.pending.Some? && n.pending.value.saved == s.mem
    ensures AllAim(n)
  {
    forall u | u in n.runs ensures RunAims(n, u) { assert RunAims(s, u); }
  }

  lemma QuietAims(s: Sys, step: Step, limits: Limits)
    requires AllAim(s) && (step.Launch? || step.Reap? || step.BeginDrain? || step.Crash? || step.Restart?)
    requires step.Restart? ==> !s.up && s.runs == map[]
    ensures AllAim(Do(s, step, limits, false))
  {
    hide Recover, Fits, ReadsBack, AnyInterrupted;
    var n := Do(s, step, limits, false);
    forall u | u in n.runs ensures RunAims(n, u) { if u in s.runs { assert RunAims(s, u); } }
  }

  lemma {:induction false} StepAims(s: Sys, step: Step, limits: Limits)
    requires Inv(s) && AllAim(s)
    ensures AllAim(Do(s, step, limits, false))
  {
    hide Inv, AllAim, ExecuteStep, Spares;
    match step
    case Execute(t, answer) => if t in s.runs { RunsUp(s, t); ExecuteAims(s, t, answer); }
    case WriteCommits => if s.pending.Some? { SettleAims(s, Commit(s)); }
    case WriteThrows(landed) => if s.pending.Some? { SettleAims(s, Throw(s, landed)); }
    case CreateDraft(_, _, _) => ClientAims(s, step, limits);
    case CancelDraftStep(_, _, _) => ClientAims(s, step, limits);
    case CallSend(_, _) => ClientAims(s, step, limits);
    case Submit(_, _, _, _) => ClientAims(s, step, limits);
    case Restart(_, _) => if !s.up { DownRunsNothing(s); QuietAims(s, step, limits); }
    case _ => QuietAims(s, step, limits);
  }

  lemma DownRunsNothing(s: Sys)
    requires Inv(s) && !s.up
    ensures s.runs == map[]
  {
  }

  lemma RunsUp(s: Sys, t: Id)
    requires Inv(s) && t in s.runs
    ensures s.up
  {
  }

  // In every run an executor works on no session but its ticket's target, whatever session the
  // runtime gave it: it prepares, acquires and offers the prompt to no other.
  lemma {:induction false} OnlyTheTarget(steps: seq<Step>, limits: Limits)
    ensures
      var s := Runs(InitialSys(), steps, limits, false);
      && AllAim(s)
      && forall t | t in s.runs && t in s.mem.tickets && WorksOn(s.runs[t].pc).Some? ::
           WorksOn(s.runs[t].pc).value == s.mem.tickets[t].targetSession
    decreases |steps|
  {
    var s := Runs(InitialSys(), steps, limits, false);
    if steps != [] {
      hide Inv, Do, AllAim;
      var but := steps[..|steps| - 1];
      OnlyTheTarget(but, limits);
      RunKeeps(but, limits);
      StepAims(Runs(InitialSys(), but, limits, false), steps[|steps| - 1], limits);
      AimsGives(s);
    }
  }

  lemma AimsGives(s: Sys)
    requires AllAim(s)
    ensures forall t | t in s.runs && t in s.mem.tickets && WorksOn(s.runs[t].pc).Some? ::
              WorksOn(s.runs[t].pc).value == s.mem.tickets[t].targetSession
  {
    forall t | t in s.runs && t in s.mem.tickets && WorksOn(s.runs[t].pc).Some?
      ensures WorksOn(s.runs[t].pc).value == s.mem.tickets[t].targetSession
    {
      assert RunAims(s, t);
    }
  }
}
