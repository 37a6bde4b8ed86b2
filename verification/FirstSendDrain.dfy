/**
 When a throw keeps the promise of at most one admission, for a process that serves and for
 one that drains (src/dashboard-session-materializer.ts:105-162). A draining process may
 leave an interrupted ticket without an executor and still be safe: nobody starts it again
 before the next start has recorded the doubt. The proof gives each such ticket a phantom
 executor that never steps; the state with the phantoms meets the invariant.
 */
module FirstSendDrain {
  import opened Wrappers
  import opened Drafts
  import opened DraftsCoherence
  import opened FirstSend
  import opened FirstSendInvariant
  import opened FirstSendClients
  import opened FirstSendControl
  import opened FirstSendExecutor
  import opened FirstSendSafety
  import opened FirstSendWitness
  import opened FirstSendFault

  predicate SameSend(a: Ticket, b: Ticket) {
    a.draftId == b.draftId && a.idempotencyKey == b.idempotencyKey && a.fingerprint == b.fingerprint
    && a.targetSession == b.targetSession
  }

  predicate Expects(m: Option<Session>, k: Ticket) { m.Some? ==> m.value == k.targetSession }

  // Nobody will take ticket t to its admission: its executor is gone, or on its way out, and
  // no other will be launched; or a drain aborted it before it looked.
  ghost predicate Dormant(s: Sys, t: Id, k: Ticket) {
    if t in s.runs && (s.runs[t].pc.Loading? || s.runs[t].pc.Entering?)
    then s.runs[t].aborted && (s.runs[t].pc.Entering? ==> Expects(s.runs[t].pc.work.session, k))
    else
      && t !in s.toLaunch && !RepeatWaits(s, k)
      && (t in s.runs ==>
            s.runs[t].pc.Finished? || (s.runs[t].pc.Releasing? && s.runs[t].pc.session == k.targetSession))
  }

  // The dormant tickets, as they were.
  type Dead = map<Id, Ticket>

  ghost function Phantoms(dead: Dead): map<Id, Run> { map t | t in dead :: Run(Catching(None), true) }

  ghost function Haunt(s: Sys, dead: Dead): Sys { s.(runs := s.runs + Phantoms(dead)) }

  // A real executor moves among the phantoms as it would alone.
  lemma MovesAmongPhantoms(s: Sys, dead: Dead, t: Id, pc: Pc)
    requires t in s.runs && t !in dead
    ensures Goto(Haunt(s, dead), t, pc) == Haunt(Goto(s, t, pc), dead) && Haunt(s, dead).runs[t] == s.runs[t]
  {
    assert Goto(Haunt(s, dead), t, pc).runs == Haunt(Goto(s, t, pc), dead).runs;
  }

  ghost predicate KeepsSend(v: Store, dead: Dead, t: Id)
    requires t in dead
  {
    t in v.tickets ==> SameSend(v.tickets[t], dead[t])
  }

  ghost predicate AllKeepSend(v: Store, dead: Dead) {
    forall t {:trigger KeepsSend(v, dead, t)} | t in dead :: KeepsSend(v, dead, t)
  }

  ghost predicate AllDormant(s: Sys, dead: Dead) {
    forall t {:trigger Dormant(s, t, dead[t])} | t in dead :: Dormant(s, t, dead[t])
  }

  ghost predicate Haunted(s: Sys, dead: Dead) {
    && s.up && s.draining && dead.Keys <= s.used
    && Inv(Haunt(s, dead))
    && AllDormant(s, dead)
    && AllKeepSend(s.mem, dead)
    && (s.pending.Some? ==>
          && AllKeepSend(s.pending.value.saved, dead)
          && (s.pending.value.owner.Submitter? ==> s.pending.value.owner.ticketId !in dead))
  }

  ghost predicate Calm(s: Sys) { Inv(s) || exists dead :: Haunted(s, dead) }

  // ---- The state after the throw ----------------------------------------------------------

  ghost predicate NoneComesBack(s: Sys) { forall t :: Unattended(s, t) ==> !ComesBack(s, t) }

  ghost function Unwatched(s: Sys): Dead { map t | t in s.mem.tickets && Unattended(s, t) :: s.mem.tickets[t] }

  lemma UnattendedIsDormant(s: Sys, t: Id)
    requires InvButWatched(s) && s.pending.None? && s.draining && Unattended(s, t) && !ComesBack(s, t)
    ensures Dormant(s, t, s.mem.tickets[t])
  {
    if t in s.runs { assert RunFits(s, t); }
  }

  lemma PhantomFits(s: Sys, t: Id)
    requires InvButWatched(s) && s.pending.None? && s.draining && Unattended(s, t)
    ensures t in s.used && RunFits(Haunt(s, Unwatched(s)), t)
  {
    KnownIsUsed(s.mem, s.used, t);
  }

  lemma HauntedFits(s: Sys)
    requires InvButWatched(s) && s.pending.None? && s.draining
    ensures Inv(Haunt(s, Unwatched(s)))
  {
    var h := Haunt(s, Unwatched(s));
    forall t | t in h.runs ensures RunFits(h, t) {
      if t in Unwatched(s) { PhantomFits(s, t); } else { assert RunFits(s, t); }
    }
    forall t | t in h.mem.tickets ensures Attended(h.mem, t, h.runs) && Offered(h, h.mem, t) {
      assert Offered(s, s.mem, t);
    }
    forall t | t in Settled(h).tickets ensures OnDisk(h, t) { assert OnDisk(s, t); }
    forall t | t in h.disk.tickets ensures EndedIfDropped(h, t) { assert EndedIfDropped(s, t); }
    forall t ensures CountsFit(h, t) { assert CountsFit(s, t); }
  }

  lemma BeginsHaunted(s: Sys)
    requires InvButWatched(s) && s.pending.None? && s.draining && NoneComesBack(s)
    ensures Haunted(s, Unwatched(s))
  {
    var dead := Unwatched(s);
    HauntedFits(s);
    forall t | t in dead ensures Dormant(s, t, dead[t]) && t in s.used && KeepsSend(s.mem, dead, t) {
      UnattendedIsDormant(s, t);
      PhantomFits(s, t);
    }
  }

  // ---- Sends stay what they are -----------------------------------------------------------

  // Every ticket of `b` is one of `a` that sends the same, or has a new id.
  ghost predicate SendsKept(a: Store, b: Store, used: set<Id>) {
    forall t | t in b.tickets :: if t in a.tickets then SameSend(b.tickets[t], a.tickets[t]) else t !in used
  }

  lemma KeptSends(a: Store, b: Store, used: set<Id>, dead: Dead)
    requires SendsKept(a, b, used) && AllKeepSend(a, dead) && dead.Keys <= used
    ensures AllKeepSend(b, dead)
  {
    forall t | t in dead ensures KeepsSend(b, dead, t) { assert KeepsSend(a, dead, t); }
  }

  lemma CreateKeepsSends(s: Store, r: CreateRequest, id: Id, now: Time, limits: Limits, used: set<Id>)
    requires Create(s, r, id, now, limits).Write?
    ensures SendsKept(s, Create(s, r, id, now, limits).next, used)
  {
  }

  lemma CancelKeepsSends(s: Store, d: Id, r: CancelRequest, now: Time, used: set<Id>)
    requires Cancel(s, d, r, now).Write?
    ensures SendsKept(s, Cancel(s, d, r, now).next, used)
  {
  }

  lemma SubmitKeepsSends(s: Store, d: Id, r: SendRequest, id: Id, now: Time, limits: Limits, used: set<Id>)
    requires SubmitSend(s, d, r, id, now, limits).Write? && id !in used && id !in s.tickets
    ensures SendsKept(s, SubmitSend(s, d, r, id, now, limits).next, used)
  {
  }

  lemma TransitionKeepsSends(s: Store, t: Id, tr: Transition, now: Time, used: set<Id>)
    requires TransitionSend(s, t, tr, now).Write?
    ensures SendsKept(s, TransitionSend(s, t, tr, now).next, used)
  {
  }

  // ---- Steps that do not concern a phantom ------------------------------------------------------

  // The step is the same with and without the phantoms.
  ghost predicate Parallel(s: Sys, n: Sys, dead: Dead) {
    && n.up && n.draining && s.used <= n.used
    && n.waiting <= s.waiting
    && (forall t | t in dead :: (t in n.runs <==> t in s.runs) && (t in s.runs ==> n.runs[t] == s.runs[t]))
    && (forall t | t in dead && t in n.toLaunch && t !in s.toLaunch ::
          t in s.runs && (s.runs[t].pc.Loading? || s.runs[t].pc.Entering?))
    && (n.mem == s.mem || SendsKept(s.mem, n.mem, s.used) || (s.pending.Some? && n.mem == s.pending.value.saved))
    && (n.pending.Some? ==>
          if s.pending.Some? then n.pending == s.pending
          else
            n.pending.value.saved == s.mem
            && (n.pending.value.owner.Submitter? ==> n.pending.value.owner.ticketId !in s.used))
  }

  lemma ParallelHaunted(s: Sys, n: Sys, dead: Dead)
    requires Haunted(s, dead) && Parallel(s, n, dead) && Inv(Haunt(n, dead))
    ensures Haunted(n, dead)
  {
    hide Inv, Haunt;
    if SendsKept(s.mem, n.mem, s.used) { KeptSends(s.mem, n.mem, s.used, dead); }
    forall t | t in dead ensures Dormant(n, t, dead[t]) {
      assert Dormant(s, t, dead[t]);
      if RepeatWaits(n, dead[t]) {
        var r :| (dead[t].draftId, r) in n.waiting && Repeats(dead[t].draftId, r, dead[t]);
        assert (dead[t].draftId, r) in s.waiting;
      }
    }
  }

  // The owner of the write in flight is no phantom.
  lemma OwnerIsReal(s: Sys, dead: Dead)
    requires Haunted(s, dead) && s.pending.Some? && s.pending.value.owner.Executor?
    ensures s.pending.value.owner.ticketId in s.runs && s.pending.value.owner.ticketId !in dead
  {
    OwnerRuns(Haunt(s, dead));
  }

  lemma ClientIsParallel(s: Sys, step: Step, limits: Limits, dead: Dead)
    requires s.up && s.draining && (step.CreateDraft? || step.CancelDraftStep?)
    ensures Parallel(s, Do(s, step, limits, false), dead)
    ensures Do(Haunt(s, dead), step, limits, false) == Haunt(Do(s, step, limits, false), dead)
  {
    hide Create, Cancel, SendsKept;
    match step
    case CreateDraft(r, id, now) =>
      if Create(s.mem, r, id, now, limits).Write? { CreateKeepsSends(s.mem, r, id, now, limits, s.used); }
    case CancelDraftStep(d, r, now) =>
      if Cancel(s.mem, d, r, now).Write? { CancelKeepsSends(s.mem, d, r, now, s.used); }
    case _ =>
  }

  lemma ClientParallel(s: Sys, step: Step, limits: Limits, dead: Dead)
    requires Haunted(s, dead) && (step.CreateDraft? || step.CancelDraftStep?)
    ensures Haunted(Do(s, step, limits, false), dead)
  {
    hide Inv, AllDormant, AllKeepSend, Do, Haunt, Parallel;
    ClientIsParallel(s, step, limits, dead);
    ClientStepsKeep(Haunt(s, dead), step, limits);
    ParallelHaunted(s, Do(s, step, limits, false), dead);
  }

  // A repeated send adds a launch only for a ticket whose aborted executor is still about.
  lemma ReplyIsNotDormant(s: Sys, d: Id, r: SendRequest, id: Id, now: Time, limits: Limits, dead: Dead, t: Id)
    requires Haunted(s, dead) && (d, r) in s.waiting && t in dead
    requires SubmitSend(s.mem, d, r, id, now, limits).Reply?
        && SubmitSend(s.mem, d, r, id, now, limits).answer.ticketId == t
    ensures t in s.runs && (s.runs[t].pc.Loading? || s.runs[t].pc.Entering?)
  {
    assert Dormant(s, t, dead[t]) && KeepsSend(s.mem, dead, t);
    var u :| u in s.mem.tickets && s.mem.tickets[u] == SubmitSend(s.mem, d, r, id, now, limits).answer
             && s.mem.tickets[u].draftId == d && s.mem.tickets[u].idempotencyKey == r.key;
    assert TicketCoherent(s.mem, u);
    assert Repeats(dead[t].draftId, r, dead[t]);
  }

  lemma FreshUnderPhantoms(s: Sys, dead: Dead, id: Id)
    requires Haunted(s, dead) && id !in s.used
    ensures id !in s.mem.tickets
  {
    assert FreshTicketId(Haunt(s, dead).mem, id);
  }

  lemma SubmitIsParallel(s: Sys, d: Id, r: SendRequest, id: Id, now: Time, limits: Limits, dead: Dead)
    requires Haunted(s, dead) && (d, r) in s.waiting && s.pending.None? && id !in s.used
    ensures Parallel(s, RunSubmit(s.(waiting := s.waiting - multiset{(d, r)}), d, r, id, now, limits), dead)
  {
    hide Inv, AllDormant, AllKeepSend, SubmitSend, Haunt;
    var m := SubmitSend(s.mem, d, r, id, now, limits);
    if m.Write? {
      FreshUnderPhantoms(s, dead, id);
      SubmitKeepsSends(s.mem, d, r, id, now, limits, s.used);
    }
    if m.Reply? && m.answer.ticketId in dead { ReplyIsNotDormant(s, d, r, id, now, limits, dead, m.answer.ticketId); }
  }

  lemma SubmitKeepsHaunted(s: Sys, d: Id, r: SendRequest, id: Id, now: Time, limits: Limits, dead: Dead)
    requires Haunted(s, dead) && (d, r) in s.waiting && s.pending.None? && id !in s.used
    ensures Haunted(RunSubmit(s.(waiting := s.waiting - multiset{(d, r)}), d, r, id, now, limits), dead)
  {
    assert s.toLaunch <= s.used;
    hide Inv, AllDormant, AllKeepSend, SubmitSend, Parallel;
    var a := s.(waiting := s.waiting - multiset{(d, r)});
    var h := Haunt(s, dead);
    var n := RunSubmit(a, d, r, id, now, limits);
    SubmitIsParallel(s, d, r, id, now, limits, dead);
    SameFacts(h, h.(waiting := a.waiting));
    SubmitKeepsInv(h.(waiting := a.waiting), d, r, id, now, limits);
    assert RunSubmit(h.(waiting := a.waiting), d, r, id, now, limits) == Haunt(n, dead);
    hide RunSubmit;
    ParallelHaunted(s, n, dead);
  }

  lemma SubmitParallel(s: Sys, step: Step, limits: Limits, dead: Dead)
    requires Haunted(s, dead) && step.Submit?
    ensures Haunted(Do(s, step, limits, false), dead)
  {
    hide Haunted, RunSubmit;
    var d, r, id, now := step.draftId, step.sendRequest, step.newTicketId, step.now;
    if s.up && (d, r) in s.waiting && s.pending.None? && id !in s.used {
      SubmitKeepsHaunted(s, d, r, id, now, limits, dead);
    }
  }

  lemma AddedAmongPhantoms(runs: map<Id, Run>, phantoms: map<Id, Run>, t: Id, run: Run)
    requires t !in phantoms
    ensures (runs + phantoms)[t := run] == runs[t := run] + phantoms
  {
  }

  lemma LaunchCommutes(s: Sys, t: Id, limits: Limits, dead: Dead)
    requires t in dead && t in s.toLaunch ==> t in s.runs
    ensures Do(Haunt(s, dead), Launch(t), limits, false) == Haunt(Do(s, Launch(t), limits, false), dead)
  {
    assert t in Phantoms(dead) <==> t in dead;
    hide Phantoms;
    if t !in dead { AddedAmongPhantoms(s.runs, Phantoms(dead), t, Run(Loading, false)); }
  }

  lemma LaunchIsParallel(s: Sys, t: Id, limits: Limits, dead: Dead)
    requires s.up && s.draining && (t in dead && t in s.toLaunch ==> t in s.runs)
    ensures Parallel(s, Do(s, Launch(t), limits, false), dead)
  {
  }

  lemma LaunchParallel(s: Sys, t: Id, limits: Limits, dead: Dead)
    requires Haunted(s, dead)
    ensures Haunted(Do(s, Launch(t), limits, false), dead)
  {
    if t in dead { assert Dormant(s, t, dead[t]); }
    hide Inv, AllDormant, AllKeepSend, Haunt, Do, Parallel, Dormant;
    LaunchCommutes(s, t, limits, dead);
    LaunchIsParallel(s, t, limits, dead);
    LaunchKeeps(Haunt(s, dead), t, limits);
    ParallelHaunted(s, Do(s, Launch(t), limits, false), dead);
  }

  lemma CommitCommutes(s: Sys, dead: Dead)
    requires s.pending.Some?
    requires s.pending.value.owner.Executor? ==>
               s.pending.value.owner.ticketId in s.runs && s.pending.value.owner.ticketId !in dead
    ensures Commit(Haunt(s, dead)) == Haunt(Commit(s), dead)
  {
    if s.pending.value.owner.Executor? {
      var t := s.pending.value.owner.ticketId;
      var c := s.(disk := s.mem, pending := None, commits := s.commits + multiset{t});
      MovesAmongPhantoms(c, dead, t, AfterCommit(s.runs[t].pc));
      hide AfterCommit, Phantoms;
    }
  }

  lemma CommitIsParallel(s: Sys, dead: Dead)
    requires Haunted(s, dead) && s.pending.Some?
    requires s.pending.value.owner.Executor? ==>
               s.pending.value.owner.ticketId in s.runs && s.pending.value.owner.ticketId !in dead
    requires s.pending.value.owner.Submitter? ==> s.pending.value.owner.ticketId !in dead
    ensures Parallel(s, Commit(s), dead)
  {
    hide Inv, AllDormant, AllKeepSend, AfterCommit;
  }

  lemma CommitParallel(s: Sys, dead: Dead)
    requires Haunted(s, dead) && s.pending.Some?
    ensures Haunted(Commit(s), dead)
  {
    if s.pending.value.owner.Executor? { OwnerIsReal(s, dead); }
    hide Inv, AllDormant, AllKeepSend, Haunt, Parallel, Commit;
    CommitCommutes(s, dead);
    CommitIsParallel(s, dead);
    CommitKeeps(Haunt(s, dead));
    ParallelHaunted(s, Commit(s), dead);
  }

  lemma ThrowCommutes(s: Sys, landed: bool, dead: Dead)
    requires s.pending.Some?
    requires s.pending.value.owner.Executor? ==>
               s.pending.value.owner.ticketId in s.runs && s.pending.value.owner.ticketId !in dead
    ensures Throw(Haunt(s, dead), landed) == Haunt(Throw(s, landed), dead)
  {
    var p := s.pending.value;
    if p.owner.Executor? {
      var t := p.owner.ticketId;
      var back := s.(mem := p.saved, disk := if landed then s.mem else s.disk, pending := None);
      MovesAmongPhantoms(back, dead, t, AfterThrow(s.runs[t].pc));
      hide AfterThrow, Phantoms;
    }
  }

  lemma ThrowParallel(s: Sys, landed: bool, dead: Dead)
    requires Haunted(s, dead) && s.pending.Some? && Spares(s)
    ensures Haunted(Throw(s, landed), dead)
  {
    SparesHaunted(s, dead);
    hide Inv, AllDormant, AllKeepSend, Spares;
    if s.pending.value.owner.Executor? { OwnerIsReal(s, dead); }
    ThrowCommutes(s, landed, dead);
    ThrowKeeps(Haunt(s, dead), landed);
    assert Parallel(s, Throw(s, landed), dead);
    hide Throw;
    ParallelHaunted(s, Throw(s, landed), dead);
  }

  lemma SparesHaunted(s: Sys, dead: Dead)
    requires Haunted(s, dead) && s.pending.Some? && Spares(s)
    ensures Spares(Haunt(s, dead))
  {
    var h := Haunt(s, dead);
    var saved := s.pending.value.saved;
    forall t | t in saved.tickets && Interrupted(saved.tickets[t]) ensures StaysOn(h, t) {
      assert StaysOn(s, t);
    }
  }

  lemma RemovedAmongPhantoms(runs: map<Id, Run>, phantoms: map<Id, Run>, t: Id)
    requires t !in phantoms
    ensures (runs + phantoms) - {t} == (runs - {t}) + phantoms
  {
  }

  lemma ReapCommutes(s: Sys, t: Id, limits: Limits, dead: Dead)
    requires t !in dead
    ensures Do(Haunt(s, dead), Reap(t), limits, false) == Haunt(Do(s, Reap(t), limits, false), dead)
  {
    assert t !in Phantoms(dead);
    hide Phantoms;
    RemovedAmongPhantoms(s.runs, Phantoms(dead), t);
    assert t in Haunt(s, dead).runs <==> t in s.runs;
    assert t in s.runs ==> Haunt(s, dead).runs[t] == s.runs[t];
  }

  // Replacing the run of a dormant ticket by a dormant one.
  lemma StaysDormant(s: Sys, n: Sys, dead: Dead, t: Id)
    requires Haunted(s, dead) && t in dead && n == s.(runs := n.runs)
    requires forall u | u != t :: (u in n.runs <==> u in s.runs) && (u in s.runs ==> n.runs[u] == s.runs[u])
    requires Dormant(n, t, dead[t])
    ensures Haunted(n, dead)
  {
    hide Inv;
    assert Haunt(n, dead).runs == Haunt(s, dead).runs;
    forall u | u in dead ensures Dormant(n, u, dead[u]) {
      assert Dormant(s, u, dead[u]);
      assert RepeatWaits(n, dead[u]) == RepeatWaits(s, dead[u]);
    }
  }

  lemma DormantReaps(s: Sys, t: Id, limits: Limits, dead: Dead)
    requires Haunted(s, dead) && t in dead
    ensures Haunted(Do(s, Reap(t), limits, false), dead)
  {
    assert Dormant(s, t, dead[t]);
    hide Haunted;
    var n := Do(s, Reap(t), limits, false);
    if n != s {
      assert RepeatWaits(n, dead[t]) == RepeatWaits(s, dead[t]);
      StaysDormant(s, n, dead, t);
    }
  }

  lemma ReapIsParallel(s: Sys, t: Id, limits: Limits, dead: Dead)
    requires s.up && s.draining && t !in dead
    ensures Parallel(s, Do(s, Reap(t), limits, false), dead)
  {
  }

  lemma ReapParallel(s: Sys, t: Id, limits: Limits, dead: Dead)
    requires Haunted(s, dead)
    ensures Haunted(Do(s, Reap(t), limits, false), dead)
  {
    if t in dead {
      DormantReaps(s, t, limits, dead);
    } else {
      hide Inv, AllDormant, AllKeepSend, Do, Haunt, Parallel;
      ReapCommutes(s, t, limits, dead);
      ReapAndDrainKeep(Haunt(s, dead), Reap(t), limits);
      ReapIsParallel(s, t, limits, dead);
      ParallelHaunted(s, Do(s, Reap(t), limits, false), dead);
    }
  }

  lemma CrashEnds(s: Sys, written: bool, limits: Limits, dead: Dead)
    requires Haunted(s, dead)
    ensures Inv(Do(s, Crash(written), limits, false))
  {
    var h := Haunt(s, dead);
    if s.pending.Some? && s.pending.value.owner.Executor? { OwnerIsReal(s, dead); }
    assert Do(h, Crash(written), limits, false) == Do(s, Crash(written), limits, false);
    CrashKeeps(h, written, limits);
  }

  // ---- An executor's step ----------------------------------------------------------------------

  lemma BeginCommutes(s: Sys, t: Id, tr: Transition, now: Time, a: Pc, b: Pc, c: Pc, dead: Dead)
    requires t in s.runs && t !in dead
    ensures BeginTransition(Haunt(s, dead), t, tr, now, a, b, c) == Haunt(BeginTransition(s, t, tr, now, a, b, c), dead)
  {
    hide TransitionSend, Phantoms;
    match TransitionSend(s.mem, t, tr, now)
    case Write(next, _) =>
      MovesAmongPhantoms(s.(mem := next, pending := Some(Pending(s.mem, Executor(t)))), dead, t, a);
    case Reject(reason) => MovesAmongPhantoms(s, dead, t, if reason.StateConflict? then b else c);
    case Reply(_) =>
  }

  lemma ExecuteCommutes(s: Sys, t: Id, answer: Answer, dead: Dead)
    requires t in s.runs && t !in dead
    ensures ExecuteStep(Haunt(s, dead), t, answer) == Haunt(ExecuteStep(s, t, answer), dead)
  {
    hide TransitionSend, Phantoms, BeginTransition, ActionOf;
    MovesAmongPhantoms(s, dead, t, s.runs[t].pc);
    match ActionOf(s.mem, t, s.runs[t], answer)
    case Wait =>
    case GoOn(to) => MovesAmongPhantoms(s, dead, t, to);
    case Offer(to) => MovesAmongPhantoms(s.(admits := s.admits + multiset{t}), dead, t, to);
    case Take(to) => MovesAmongPhantoms(s.(accepted := s.accepted + multiset{t}), dead, t, to);
    case Begin(tr, now, a, b, c) => BeginCommutes(s, t, tr, now, a, b, c, dead);
  }

  // A step that moves one real executor, and may queue its write.
  ghost predicate MovesOne(s: Sys, n: Sys, t: Id) {
    && t in s.runs && t in n.runs
    && n == s.(runs := s.runs[t := n.runs[t]], mem := n.mem, pending := n.pending, admits := n.admits,
               accepted := n.accepted)
    && (if n.pending == s.pending then n.mem == s.mem
        else
          && s.pending.None? && n.pending == Some(Pending(s.mem, Executor(t)))
          && SendsKept(s.mem, n.mem, s.used))
  }

  lemma MovingIsParallel(s: Sys, n: Sys, t: Id, dead: Dead)
    requires s.up && s.draining && t !in dead && MovesOne(s, n, t)
    ensures Parallel(s, n, dead)
  {
    hide SendsKept;
  }

  lemma BeginMovesOne(s: Sys, t: Id, tr: Transition, now: Time, a: Pc, b: Pc, c: Pc)
    requires t in s.runs
    ensures MovesOne(s, BeginTransition(s, t, tr, now, a, b, c), t)
  {
    hide TransitionSend, SendsKept;
    assert s.runs == s.runs[t := s.runs[t]];
    if TransitionSend(s.mem, t, tr, now).Write? { TransitionKeepsSends(s.mem, t, tr, now, s.used); }
  }

  lemma ExecuteMovesOne(s: Sys, t: Id, answer: Answer)
    requires t in s.runs
    ensures MovesOne(s, ExecuteStep(s, t, answer), t)
  {
    hide BeginTransition, ActionOf, SendsKept;
    assert s.runs == s.runs[t := s.runs[t]];
    match ActionOf(s.mem, t, s.runs[t], answer)
    case Begin(tr, now, a, b, c) => BeginMovesOne(s, t, tr, now, a, b, c);
    case _ =>
  }

  lemma ExecuteIsParallel(s: Sys, t: Id, answer: Answer, dead: Dead)
    requires Haunted(s, dead) && t in s.runs && t !in dead
    ensures Parallel(s, ExecuteStep(s, t, answer), dead)
  {
    assert s.up && s.draining;
    hide Haunted, ExecuteStep, Parallel, MovesOne;
    ExecuteMovesOne(s, t, answer);
    MovingIsParallel(s, ExecuteStep(s, t, answer), t, dead);
  }

  lemma ExecuteParallel(s: Sys, t: Id, answer: Answer, limits: Limits, dead: Dead)
    requires Haunted(s, dead) && t !in dead
    ensures Haunted(Do(s, Execute(t, answer), limits, false), dead)
  {
    if t in s.runs {
      var n, h := ExecuteStep(s, t, answer), Haunt(s, dead);
      ExecuteCommutes(s, t, answer, dead);
      assert t in h.runs;
      hide Inv, ExecuteStep, Haunt, AllDormant, AllKeepSend, Parallel;
      ExecuteKeeps(h, t, answer, limits);
      ExecuteIsParallel(s, t, answer, dead);
      ParallelHaunted(s, n, dead);
    }
  }

  // A dormant executor that looks at its ticket after all attends to it again, or leaves for
  // good: in place of its phantom.
  lemma Wakes(s: Sys, dead: Dead, t: Id, to: Pc)
    requires Haunted(s, dead) && t in dead && t in s.runs
    requires Inv(Haunt(s, dead).(runs := Haunt(s, dead).runs[t := Run(to, s.runs[t].aborted)]))
    ensures Haunted(Goto(s, t, to), dead - {t})
  {
    var n, alive := Goto(s, t, to), dead - {t};
    assert Haunt(n, alive) == Haunt(s, dead).(runs := Haunt(s, dead).runs[t := Run(to, s.runs[t].aborted)]) by {
      assert Haunt(n, alive).runs == Haunt(s, dead).runs[t := Run(to, s.runs[t].aborted)];
    }
    forall u | u in alive ensures Dormant(n, u, alive[u]) && KeepsSend(n.mem, alive, u) {
      assert Dormant(s, u, dead[u]) && KeepsSend(s.mem, dead, u);
      assert RepeatWaits(n, dead[u]) == RepeatWaits(s, dead[u]);
    }
    if s.pending.Some? {
      forall u | u in alive ensures KeepsSend(s.pending.value.saved, alive, u) {
        assert KeepsSend(s.pending.value.saved, dead, u);
      }
    }
    hide Inv;
  }

  // The phantom may attend with the session its ticket expects.
  lemma AttendsAgain(s: Sys, dead: Dead, t: Id, m: Option<Session>)
    requires Haunted(s, dead) && t in dead && t in s.runs && Expects(m, dead[t])
    ensures Haunted(Goto(s, t, Catching(m)), dead - {t})
  {
    var h := Haunt(s, dead);
    assert RunFits(h, t) && KeepsSend(s.mem, dead, t);
    if s.pending.Some? { assert KeepsSend(s.pending.value.saved, dead, t); }
    assert h.runs[t] == Run(Catching(None), true);
    MoveKeeps(h, t, Run(Catching(m), s.runs[t].aborted));
    hide Inv;
    Wakes(s, dead, t, Catching(m));
  }

  // It may also find that its ticket has ended.
  lemma LeavesForGood(s: Sys, dead: Dead, t: Id, limits: Limits)
    requires Haunted(s, dead) && t in dead && t in s.runs && s.runs[t].aborted
    requires t !in s.mem.tickets || Terminal(s.mem.tickets[t].state)
    ensures Haunted(Goto(s, t, Finished), dead - {t})
  {
    var h := Haunt(s, dead);
    assert h.runs[t] == Run(Catching(None), true);
    hide Inv, AllDormant, AllKeepSend;
    ExecuteKeeps(h, t, TakesPrompt, limits);
    assert ExecuteStep(h, t, TakesPrompt) == Goto(h, t, Finished);
    hide Haunted;
    Wakes(s, dead, t, Finished);
  }

  // What an aborted executor reads names no other session than the target.
  lemma ReadsTarget(s: Sys, dead: Dead, t: Id)
    requires Haunted(s, dead) && t in dead && t in s.mem.tickets && !Terminal(s.mem.tickets[t].state)
    ensures !s.mem.tickets[t].state.Queued? && Expects(s.mem.tickets[t].session, dead[t])
  {
    var h := Haunt(s, dead);
    assert RunFits(h, t) && KeepsSend(s.mem, dead, t) && TicketCoherent(h.mem, t);
    assert h.runs[t] == Run(Catching(None), true);
  }

  lemma LoadingStep(s: Sys, t: Id, answer: Answer, limits: Limits, dead: Dead)
    requires Haunted(s, dead) && t in dead && t in s.runs && s.runs[t].pc.Loading?
    ensures
      var n := ExecuteStep(s, t, answer);
      Haunted(n, dead) || Haunted(n, dead - {t})
  {
    assert Dormant(s, t, dead[t]);
    hide Inv, AllDormant, AllKeepSend, RepeatWaits, BeginTransition;
    if t !in s.mem.tickets || Terminal(s.mem.tickets[t].state) {
      LeavesForGood(s, dead, t, limits);
    } else {
      ReadsTarget(s, dead, t);
      hide Haunted;
      StaysDormant(s, ExecuteStep(s, t, answer), dead, t);
    }
  }

  lemma ReleasingStep(s: Sys, t: Id, answer: Answer, dead: Dead)
    requires Haunted(s, dead) && t in dead && t in s.runs && s.runs[t].pc.Releasing?
    ensures
      var n := ExecuteStep(s, t, answer);
      Haunted(n, dead) || Haunted(n, dead - {t})
  {
    assert Dormant(s, t, dead[t]);
    hide Haunted, BeginTransition;
    var n := ExecuteStep(s, t, answer);
    if answer.Throws? {
      AttendsAgain(s, dead, t, Some(s.runs[t].pc.session));
    } else {
      assert RepeatWaits(n, dead[t]) == RepeatWaits(s, dead[t]);
      StaysDormant(s, n, dead, t);
    }
  }

  lemma DormantPlaces(s: Sys, t: Id, k: Ticket)
    requires Dormant(s, t, k) && t in s.runs
    ensures
      var pc := s.runs[t].pc;
      pc.Finished? || pc.Loading? || pc.Releasing? || (pc.Entering? && s.runs[t].aborted && Expects(pc.work.session, k))
  {
  }

  lemma EnteringStep(s: Sys, t: Id, answer: Answer, dead: Dead)
    requires Haunted(s, dead) && t in dead && t in s.runs
    requires s.runs[t].pc.Entering? && s.runs[t].aborted && Expects(s.runs[t].pc.work.session, dead[t])
    ensures Haunted(ExecuteStep(s, t, answer), dead - {t})
  {
    hide Haunted, Expects, BeginTransition;
    AttendsAgain(s, dead, t, s.runs[t].pc.work.session);
  }

  lemma FinishedStays(s: Sys, t: Id, answer: Answer)
    requires t in s.runs && s.runs[t].pc.Finished?
    ensures ExecuteStep(s, t, answer) == s
  {
  }

  lemma DormantStep(s: Sys, t: Id, answer: Answer, limits: Limits, dead: Dead)
    requires Haunted(s, dead) && t in dead && t in s.runs
    ensures
      var n := ExecuteStep(s, t, answer);
      Haunted(n, dead) || Haunted(n, dead - {t})
  {
    assert Dormant(s, t, dead[t]);
    DormantPlaces(s, t, dead[t]);
    hide Haunted, Dormant, ExecuteStep, Expects;
    if s.runs[t].pc.Loading? { LoadingStep(s, t, answer, limits, dead); }
    else if s.runs[t].pc.Releasing? { ReleasingStep(s, t, answer, dead); }
    else if s.runs[t].pc.Entering? { EnteringStep(s, t, answer, dead); }
    else { FinishedStays(s, t, answer); }
  }

  // ---- Every step, and every run -------------------------------------------------------------

  lemma CalmStep(s: Sys, step: Step, limits: Limits)
    requires Calm(s)
    ensures Calm(Do(s, step, limits, false))
  {
    hide Inv, Haunted, ExecuteStep, Commit, Throw, Spares;
    if Inv(s) {
      StepKeeps(s, step, limits);
    } else {
      var dead :| Haunted(s, dead);
      HauntedStep(s, step, limits, dead);
    }
  }

  lemma HauntedStep(s: Sys, step: Step, limits: Limits, dead: Dead)
    requires Haunted(s, dead)
    ensures Calm(Do(s, step, limits, false))
  {
    assert s.up && s.draining;
    hide Inv, Haunted, ExecuteStep, Commit, Throw, Spares;
    match step
    case CreateDraft(_, _, _) => ClientParallel(s, step, limits, dead);
    case CancelDraftStep(_, _, _) => ClientParallel(s, step, limits, dead);
    case CallSend(_, _) =>
    case Submit(_, _, _, _) => SubmitParallel(s, step, limits, dead);
    case Launch(t) => LaunchParallel(s, t, limits, dead);
    case Execute(t, answer) =>
      if t !in dead { ExecuteParallel(s, t, answer, limits, dead); }
      else if t in s.runs { DormantStep(s, t, answer, limits, dead); }
    case WriteCommits => if s.pending.Some? && Fits(s.mem, limits) { CommitParallel(s, dead); }
    case WriteThrows(landed) => if s.pending.Some? && Spares(s) { ThrowParallel(s, landed, dead); }
    case Reap(t) => ReapParallel(s, t, limits, dead);
    case BeginDrain =>
    case Crash(written) => CrashEnds(s, written, limits, dead);
    case Restart(_, _) =>
  }

  lemma {:induction false} CalmRun(s: Sys, steps: seq<Step>, limits: Limits)
    requires Calm(s)
    ensures Calm(Runs(s, steps, limits, false))
    decreases |steps|
  {
    hide Calm;
    if steps != [] {
      CalmRun(s, steps[..|steps| - 1], limits);
      CalmStep(Runs(s, steps[..|steps| - 1], limits, false), steps[|steps| - 1], limits);
    }
  }

  lemma CalmIsAtMostOnce(s: Sys, limits: Limits)
    requires Calm(s)
    ensures AtMostOnceFrom(s, limits)
  {
    forall n, t | Leads(s, n, limits, false) ensures n.admits[t] <= 1 {
      var steps :| Runs(s, steps, limits, false) == n;
      CalmRun(s, steps, limits);
      if Inv(n) {
        assert CountsFit(n, t);
      } else {
        var dead :| Haunted(n, dead);
        assert CountsFit(Haunt(n, dead), t);
      }
    }
  }

  // ---- When a throw keeps the promise --------------------------------------------------------

  // The tickets it leaves unattended could be checkpointed once more.
  ghost predicate AllHaveRoom(s: Sys, limits: Limits) {
    forall t :: Unattended(s, t) ==> HasRoom(s.mem, t, limits)
  }

  // A throw keeps the promise of at most one admission in every continuation if no ticket
  // that it leaves unattended comes back; and, where the file has room for another checkpoint,
  // only then. In a process that serves, every unattended ticket comes back.
  lemma ThrowKeepsPromise(s: Sys, landed: bool, limits: Limits)
    requires Inv(s) && s.pending.Some? && (landed ==> Fits(s.mem, limits))
    ensures
      var n := Do(s, WriteThrows(landed), limits, true);
      && (NoneComesBack(n) ==> AtMostOnceFrom(n, limits))
      && (AllHaveRoom(n, limits) ==> (AtMostOnceFrom(n, limits) <==> NoneComesBack(n)))
      && (!s.draining ==> (NoneComesBack(n) <==> Spares(s)))
  {
    var n := Throw(s, landed);
    assert Do(s, WriteThrows(landed), limits, true) == n;
    ThrowKeepsMost(s, landed);
    ThrowAbandons(s, landed, limits);
    if Spares(s) { ThrowKeeps(s, landed); }
    if NoneComesBack(n) {
      if n.draining { BeginsHaunted(n); } else { ServingComesBack(n); }
      CalmIsAtMostOnce(n, limits);
    } else {
      var t :| Unattended(n, t) && ComesBack(n, t);
      if HasRoom(n.mem, t, limits) { ReturnBreaksPromise(n, t, limits); }
    }
    if !s.draining { ServingComesBack(n); }
  }

  lemma ServingComesBack(s: Sys)
    requires InvButWatched(s) && !s.draining
    ensures forall t :: Unattended(s, t) ==> ComesBack(s, t)
  {
    forall t | Unattended(s, t) ensures ComesBack(s, t) {
      if t in s.runs { assert RunFits(s, t); }
    }
  }
}
