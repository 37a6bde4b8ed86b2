/**
 What holds in every run of the first-send protocol: any interleaving of clients,
 executors, drains, failing writes, crashes and restarts.
 */
module FirstSendSafety {
  import opened Wrappers
  import opened Drafts
  import opened DraftsCoherence
  import opened FirstSend
  import opened FirstSendInvariant
  import opened FirstSendClients
  import opened FirstSendControl
  import opened FirstSendExecutor

  lemma StepKeeps(s: Sys, step: Step, limits: Limits)
    requires Inv(s)
    ensures Inv(Do(s, step, limits, false))
  {
    match step
    case CreateDraft(_, _, _) => ClientStepsKeep(s, step, limits);
    case CancelDraftStep(_, _, _) => ClientStepsKeep(s, step, limits);
    case CallSend(_, _) => ClientStepsKeep(s, step, limits);
    case Submit(_, _, _, _) => ClientStepsKeep(s, step, limits);
    case Launch(t) => LaunchKeeps(s, t, limits);
    case Execute(t, answer) => ExecuteKeeps(s, t, answer, limits);
    case WriteCommits => if s.pending.Some? && Fits(s.mem, limits) { CommitKeeps(s); }
    case WriteThrows(landed) => if s.pending.Some? && Spares(s) { ThrowKeeps(s, landed); }
    case Reap(_) => ReapAndDrainKeep(s, step, limits);
    case BeginDrain => ReapAndDrainKeep(s, step, limits);
    case Crash(written) => CrashKeeps(s, written, limits);
    case Restart(now, writes) => RestartKeeps(s, now, writes, limits);
  }

  lemma InitialHolds()
    ensures Inv(InitialSys())
  {
    var s := InitialSys();
    forall t ensures CountsFit(s, t) { }
  }

  lemma {:induction false} RunKeeps(steps: seq<Step>, limits: Limits)
    ensures Inv(Runs(InitialSys(), steps, limits, false))
    decreases |steps|
  {
    if steps == [] {
      InitialHolds();
    } else {
      var before := steps[..|steps| - 1];
      RunKeeps(before, limits);
      StepKeeps(Runs(InitialSys(), before, limits, false), steps[|steps| - 1], limits);
    }
  }

  // ---- At most one admission -------------------------------------------------------------

  // However often the process crashes and clients retry, a ticket's prompt is
  // admitted at most once, its executors commit at most four transitions, and no
  // prompt is admitted before its checkpoint is on disk.
  lemma {:induction false} AdmittedAtMostOnce(steps: seq<Step>, limits: Limits, t: Id)
    ensures
      var s := Runs(InitialSys(), steps, limits, false);
      && s.accepted[t] <= s.admits[t] <= 1
      && s.commits[t] <= 4
      && (s.admits[t] == 1 && t in s.disk.tickets ==> s.disk.tickets[t].phase.PromptSubmitting?)
      && (s.admits[t] == 1 && t in s.mem.tickets ==> s.mem.tickets[t].phase.PromptSubmitting?)
  {
    RunKeeps(steps, limits);
    var s := Runs(InitialSys(), steps, limits, false);
    assert CountsFit(s, t);
    assert t in s.disk.tickets ==> TicketTrue(s.disk, t, s.admits, s.accepted);
    assert t in s.mem.tickets ==> TicketTrue(s.mem, t, s.admits, s.accepted);
  }

  // ---- Outcomes are truthful ---------------------------------------------------------------

  // What a record of a ticket says of its prompt.
  predicate Tells(k: Ticket, admits: nat, accepted: nat) {
    && (k.state.Succeeded? ==> admits == 1 && accepted == 1)
    && (k.state.Failed? ==> accepted == 0)
    && (accepted > 0 ==> k.state.Succeeded? || k.state.Indeterminate? || Interrupted(k))
    && (k.state.Queued? ==> admits == 0)
  }

  lemma TicketsTell(s: Store, t: Id, used: set<Id>, admits: multiset<Id>, accepted: multiset<Id>)
    requires Sound(s, used, admits, accepted) && t in s.tickets && accepted[t] <= admits[t]
    ensures Tells(s.tickets[t], admits[t], accepted[t])
  {
    assert TicketTrue(s, t, admits, accepted) && TicketCoherent(s, t);
  }

  // In memory and on disk: success means one accepted admission, failure none,
  // cancellation none even called, and only an indeterminate record may hide one.
  lemma {:induction false} OutcomesAreTruthful(steps: seq<Step>, limits: Limits)
    ensures
      var s := Runs(InitialSys(), steps, limits, false);
      && (forall t | t in s.disk.tickets :: Tells(s.disk.tickets[t], s.admits[t], s.accepted[t]))
      && (forall t | t in s.mem.tickets :: Tells(s.mem.tickets[t], s.admits[t], s.accepted[t]))
      && (forall d | d in s.disk.drafts && s.disk.drafts[d].materialization.Some? ::
            var t := s.disk.drafts[d].materialization.value.ticketId;
            DraftTruth(s.disk.drafts[d], s.admits[t], s.accepted[t]))
      && (forall d | d in s.mem.drafts && s.mem.drafts[d].materialization.Some? ::
            var t := s.mem.drafts[d].materialization.value.ticketId;
            DraftTruth(s.mem.drafts[d], s.admits[t], s.accepted[t]))
  {
    RunKeeps(steps, limits);
    var s := Runs(InitialSys(), steps, limits, false);
    forall t | t in s.disk.tickets ensures Tells(s.disk.tickets[t], s.admits[t], s.accepted[t]) {
      assert CountsFit(s, t);
      TicketsTell(s.disk, t, s.used, s.admits, s.accepted);
    }
    forall t | t in s.mem.tickets ensures Tells(s.mem.tickets[t], s.admits[t], s.accepted[t]) {
      assert CountsFit(s, t);
      TicketsTell(s.mem, t, s.used, s.admits, s.accepted);
    }
    forall d | d in s.disk.drafts && s.disk.drafts[d].materialization.Some?
      ensures var t := s.disk.drafts[d].materialization.value.ticketId;
              DraftTruth(s.disk.drafts[d], s.admits[t], s.accepted[t])
    {
      assert DraftTrue(s.disk, d, s.admits, s.accepted);
    }
    forall d | d in s.mem.drafts && s.mem.drafts[d].materialization.Some?
      ensures var t := s.mem.drafts[d].materialization.value.ticketId;
              DraftTruth(s.mem.drafts[d], s.admits[t], s.accepted[t])
    {
      assert DraftTrue(s.mem, d, s.admits, s.accepted);
    }
  }

  // ---- Coherence ------------------------------------------------------------------------------

  lemma {:induction false} AlwaysCoherent(steps: seq<Step>, limits: Limits)
    ensures
      var s := Runs(InitialSys(), steps, limits, false);
      && Coherent(s.mem) && Coherent(s.disk)
      && (forall d | d in s.disk.drafts ::
            s.disk.drafts[d].state.Materializing?
            <==> exists t ::
                   t in s.disk.tickets && s.disk.tickets[t].draftId == d && !Terminal(s.disk.tickets[t].state))
  {
    RunKeeps(steps, limits);
    var s := Runs(InitialSys(), steps, limits, false);
    forall d | d in s.disk.drafts
      ensures s.disk.drafts[d].state.Materializing?
              <==> exists t ::
                     t in s.disk.tickets && s.disk.tickets[t].draftId == d && !Terminal(s.disk.tickets[t].state)
    {
      LiveTicketExactlyWhileMaterializing(s.disk, d);
    }
  }

  // ---- History: what the file says of a ticket never goes back ----------------------------------

  predicate Later(a: Ticket, b: Ticket) {
    && (Terminal(a.state) ==> b == a)
    && Progress(a) <= Progress(b)
    && PhaseRank(a.phase) <= PhaseRank(b.phase)
    && a.targetSession == b.targetSession
  }

  // An issued ticket that no version has any more.
  ghost predicate Gone(s: Sys, t: Id) {
    t in s.used && t !in s.disk.tickets && t !in s.mem.tickets
    && (s.pending.Some? ==> t !in s.pending.value.saved.tickets)
  }

  ghost predicate Moves(s: Sys, n: Sys, t: Id) {
    && (t in s.disk.tickets && t in n.disk.tickets ==> Later(s.disk.tickets[t], n.disk.tickets[t]))
    && (t in s.disk.tickets && t !in n.disk.tickets ==> Terminal(s.disk.tickets[t].state) && Gone(n, t))
    && (t in n.disk.tickets && t !in s.disk.tickets ==> t !in Settled(s).tickets)
    && (Gone(s, t) ==> Gone(n, t))
  }

  // The file says of a ticket what memory settled on, or has kept an ended one longer.
  ghost predicate Level(s: Sys, t: Id) {
    var v := Settled(s);
    && (t in v.tickets ==> t in s.disk.tickets && s.disk.tickets[t] == v.tickets[t])
    && (t in s.disk.tickets && t !in v.tickets ==> Terminal(s.disk.tickets[t].state))
  }

  // The write in flight changes, prunes or issues ticket t.
  ghost predicate Touches(s: Sys, t: Id) {
    s.pending.Some?
    && !((t in s.mem.tickets <==> t in s.pending.value.saved.tickets)
         && (t in s.mem.tickets && t in s.pending.value.saved.tickets ==>
               s.mem.tickets[t] == s.pending.value.saved.tickets[t]))
  }

  // A start sets the file aside unread, with the live ticket in it.
  ghost predicate Drops(s: Sys, step: Step, limits: Limits, t: Id) {
    && step.Restart? && !s.up && !ReadsBack(s.disk, limits)
    && t in s.disk.tickets && !Terminal(s.disk.tickets[t].state)
  }

  // A write that touches the ticket throws although its file was published.
  ghost predicate Tears(s: Sys, step: Step, t: Id) { step.WriteThrows? && step.landed && Touches(s, t) }

  lemma KnownIsUsed(s: Store, used: set<Id>, t: Id)
    requires Issued(s, used) && t in s.tickets
    ensures t in used
  {
    assert t !in used ==> FreshTicketId(s, t);
  }

  lemma CommitMoves(s: Sys, t: Id)
    requires Inv(s) && s.pending.Some? && Level(s, t)
    ensures Moves(s, Commit(s), t) && Level(Commit(s), t)
  {
    if t in s.disk.tickets {
      KnownIsUsed(s.disk, s.used, t);
      DiskAhead(s, t);
    }
  }

  // With a write in flight, memory is at least as late as the file.
  lemma DiskAhead(s: Sys, t: Id)
    requires Inv(s) && s.pending.Some? && t in s.disk.tickets && Level(s, t)
    ensures t in s.mem.tickets ==> Later(s.disk.tickets[t], s.mem.tickets[t])
    ensures t !in s.mem.tickets ==> Terminal(s.disk.tickets[t].state)
  {
    if t in s.pending.value.saved.tickets {
      assert InFlight(s, t);
    } else {
      assert t in s.mem.tickets ==> NewlyIssued(s, t);
    }
  }

  lemma ThrowMoves(s: Sys, landed: bool, t: Id)
    requires Inv(s) && s.pending.Some? && Level(s, t) && !(landed && Touches(s, t))
    ensures Moves(s, Throw(s, landed), t) && Level(Throw(s, landed), t)
  {
    if t in s.disk.tickets { KnownIsUsed(s.disk, s.used, t); }
  }

  lemma RecoveredTicket(v: Store, now: Time, limits: Limits, t: Id)
    ensures t in Recover(v, now, limits).tickets ==>
              t in v.tickets && Recover(v, now, limits).tickets[t] == MarkTicket(v.tickets[t], now)
    ensures t in v.tickets && t !in Recover(v, now, limits).tickets ==>
        Terminal(MarkTicket(v.tickets[t], now).state) && (Interrupted(v.tickets[t]) || Terminal(v.tickets[t].state))
  {
  }

  // What a start makes of file and memory.
  lemma RestartGives(s: Sys, now: Time, writes: bool, limits: Limits)
    requires !s.up && s.pending.None?
    ensures
      var n := Do(s, Restart(now, writes), limits, false);
      var found := Found(s, limits);
      var recovered := Recover(found, now, limits);
      && n.used == s.used && n.pending.None?
      && (n.mem == recovered || (n.mem == found && n.disk == found))
      && (n.disk == recovered || (n.disk == found && (n.mem == recovered ==> n.mem == found || !AnyInterrupted(found))))
  {
    hide Recover, AnyInterrupted;
  }

  lemma {:induction false} RestartMoves(s: Sys, now: Time, writes: bool, limits: Limits, t: Id)
    requires Inv(s) && !s.up
    ensures
      var n := Do(s, Restart(now, writes), limits, false);
      Level(n, t) && (Moves(s, n, t) <==> !Drops(s, Restart(now, writes), limits, t))
  {
    var found := Found(s, limits);
    assert s.mem == s.disk && s.pending.None?;
    if t in s.disk.tickets { KnownIsUsed(s.disk, s.used, t); }
    RestartGives(s, now, writes, limits);
    RecoveredTicket(found, now, limits, t);
    assert t in found.tickets && !AnyInterrupted(found) ==> !Interrupted(found.tickets[t]);
    hide Inv, Recover, AnyInterrupted, Do;
  }

  // A client's step reaches the file only through a commit, and puts a ticket into memory
  // only with a fresh id.
  ghost predicate OnlyAsks(s: Sys, n: Sys, t: Id) {
    && n.disk == s.disk && s.used <= n.used
    && (if n.pending == s.pending then n.mem == s.mem
        else s.pending.None? && n.pending.Some? && n.pending.value.saved == s.mem)
    && (t in n.mem.tickets ==> t in s.mem.tickets || t !in s.used)
  }

  lemma AskMoves(s: Sys, n: Sys, t: Id)
    requires OnlyAsks(s, n, t)
    ensures Moves(s, n, t) && (Level(s, t) ==> Level(n, t))
  {
  }

  lemma SubmitAsks(s: Sys, d: Id, r: SendRequest, id: Id, now: Time, limits: Limits, t: Id)
    requires s.pending.None? && id !in s.used
    ensures OnlyAsks(s, RunSubmit(s, d, r, id, now, limits), t)
  {
  }

  lemma {:induction false} ClientMoves(s: Sys, step: Step, limits: Limits, t: Id)
    requires step.CreateDraft? || step.CancelDraftStep? || step.CallSend? || step.Submit?
    ensures
      var n := Do(s, step, limits, false);
      Moves(s, n, t) && (Level(s, t) ==> Level(n, t))
  {
    var n := Do(s, step, limits, false);
    assert OnlyAsks(s, n, t) by {
      hide RunSubmit;
      if step.Submit? && n != s {
        var d, r := step.draftId, step.sendRequest;
        SubmitAsks(s.(waiting := s.waiting - multiset{(d, r)}), d, r, step.newTicketId, step.now, limits, t);
      }
    }
    hide Do;
    AskMoves(s, n, t);
  }

  // An executor's step reaches the file only through a commit.
  ghost predicate OnlyQueues(s: Sys, n: Sys, t: Id) {
    && n.disk == s.disk && n.used == s.used && (t in n.mem.tickets <==> t in s.mem.tickets)
    && (if n.pending == s.pending then n.mem == s.mem
        else s.pending.None? && n.pending.Some? && n.pending.value.saved == s.mem)
  }

  lemma TransitionKeepsTickets(v: Store, u: Id, tr: Transition, now: Time, t: Id)
    ensures TransitionSend(v, u, tr, now).Write? ==>
              (t in TransitionSend(v, u, tr, now).next.tickets <==> t in v.tickets)
    ensures !TransitionSend(v, u, tr, now).Reply?
  {
  }

  lemma {:induction false} TransitionOnlyQueues(s: Sys, u: Id, tr: Transition, now: Time, a: Pc, b: Pc, c: Pc, t: Id)
    requires u in s.runs
    ensures OnlyQueues(s, BeginTransition(s, u, tr, now, a, b, c), t)
  {
    TransitionKeepsTickets(s.mem, u, tr, now, t);
  }

  lemma {:induction false} ExecutorOnlyQueues(s: Sys, u: Id, answer: Answer, t: Id)
    requires u in s.runs
    ensures OnlyQueues(s, ExecuteStep(s, u, answer), t)
  {
    hide ActionOf, BeginTransition;
    var action := ActionOf(s.mem, u, s.runs[u], answer);
    if action.Begin? {
      TransitionOnlyQueues(s, u, action.tr, action.now, action.writing, action.conflict, action.refused, t);
    }
  }

  lemma QueuingMoves(s: Sys, n: Sys, t: Id)
    requires OnlyQueues(s, n, t)
    ensures Moves(s, n, t) && (Level(s, t) ==> Level(n, t))
  {
  }

  lemma {:induction false} ExecutorMoves(s: Sys, u: Id, answer: Answer, limits: Limits, t: Id)
    ensures
      var n := Do(s, Execute(u, answer), limits, false);
      Moves(s, n, t) && (Level(s, t) ==> Level(n, t))
  {
    hide ExecuteStep, OnlyQueues, Moves, Level;
    if u in s.runs {
      ExecutorOnlyQueues(s, u, answer, t);
      QueuingMoves(s, ExecuteStep(s, u, answer), t);
    } else {
      QuietlyMoves(s, t);
    }
  }

  lemma QuietlyMoves(s: Sys, t: Id)
    ensures Moves(s, s, t)
  {
  }

  lemma {:induction false} StepMoves(s: Sys, step: Step, limits: Limits, t: Id)
    requires Inv(s) && Level(s, t) && !Tears(s, step, t)
    ensures
      var n := Do(s, step, limits, false);
      Level(n, t) && (Moves(s, n, t) <==> !Drops(s, step, limits, t))
  {
    hide Inv;
    match step
    case CreateDraft(_, _, _) => ClientMoves(s, step, limits, t);
    case CancelDraftStep(_, _, _) => ClientMoves(s, step, limits, t);
    case CallSend(_, _) => ClientMoves(s, step, limits, t);
    case Submit(_, _, _, _) => ClientMoves(s, step, limits, t);
    case Execute(u, answer) => ExecutorMoves(s, u, answer, limits, t);
    case WriteCommits => if s.pending.Some? { CommitMoves(s, t); }
    case WriteThrows(landed) => if s.pending.Some? { ThrowMoves(s, landed, t); }
    case Crash(written) => CrashMoves(s, written, limits, t);
    case Restart(now, writes) => if !s.up { RestartMoves(s, now, writes, limits, t); }
    case _ => QuietMoves(s, step, limits, t);
  }

  lemma CrashMoves(s: Sys, written: bool, limits: Limits, t: Id)
    requires Inv(s) && Level(s, t)
    ensures
      var n := Do(s, Crash(written), limits, false);
      Moves(s, n, t) && Level(n, t)
  {
    if s.pending.Some? { CommitMoves(s, t); }
    hide Inv;
  }

  // Steps that touch no record.
  lemma QuietMoves(s: Sys, step: Step, limits: Limits, t: Id)
    requires Level(s, t) && (step.Launch? || step.Reap? || step.BeginDrain?)
    ensures
      var n := Do(s, step, limits, false);
      Moves(s, n, t) && Level(n, t)
  {
    hide Moves, Level;
    var n := Do(s, step, limits, false);
    assert n == s.(runs := n.runs, toLaunch := n.toLaunch, draining := n.draining);
    hide Do;
    QueuingMoves(s, n, t);
  }

  // What has become of a file record: a later one, or none for good.
  ghost predicate Since(k: Ticket, s: Sys, t: Id) {
    if t in s.disk.tickets then Later(k, s.disk.tickets[t]) else Gone(s, t)
  }

  // The state after `steps` and the first k of `more`.
  ghost function Reached(steps: seq<Step>, more: seq<Step>, limits: Limits, k: nat): Sys
    requires k <= |more|
  {
    Runs(InitialSys(), steps + more[..k], limits, false)
  }

  // No step of `more`, run after `steps`, tears the ticket.
  ghost predicate NeverTorn(steps: seq<Step>, more: seq<Step>, limits: Limits, t: Id) {
    forall k | 0 <= k < |more| :: !Tears(Reached(steps, more, limits, k), more[k], t)
  }

  // None drops it.
  ghost predicate NeverDropped(steps: seq<Step>, more: seq<Step>, limits: Limits, t: Id) {
    forall k | 0 <= k < |more| :: !Drops(Reached(steps, more, limits, k), more[k], limits, t)
  }

  ghost predicate Ended(s: Sys, t: Id) { t in s.disk.tickets && Terminal(s.disk.tickets[t].state) }

  // At some time the file said that the ticket has ended.
  ghost predicate EverEnded(steps: seq<Step>, more: seq<Step>, limits: Limits, t: Id) {
    exists k | 0 <= k <= |more| :: Ended(Reached(steps, more, limits, k), t)
  }

  lemma ReachedBefore(steps: seq<Step>, more: seq<Step>, limits: Limits, k: nat)
    requires k < |more|
    ensures Reached(steps, more[..|more| - 1], limits, k) == Reached(steps, more, limits, k)
  {
    assert more[..|more| - 1][..k] == more[..k];
  }

  lemma TornBefore(steps: seq<Step>, more: seq<Step>, limits: Limits, t: Id)
    requires more != []
    ensures NeverTorn(steps, more, limits, t) <==>
        NeverTorn(steps, more[..|more| - 1], limits, t)
        && !Tears(Reached(steps, more, limits, |more| - 1), more[|more| - 1], t)
  {
    hide Tears, Reached;
    forall k | 0 <= k < |more|
      ensures Reached(steps, more[..|more| - 1], limits, k) == Reached(steps, more, limits, k)
    {
      ReachedBefore(steps, more, limits, k);
    }
  }

  lemma DroppedBefore(steps: seq<Step>, more: seq<Step>, limits: Limits, t: Id)
    requires more != []
    ensures NeverDropped(steps, more, limits, t) <==>
        NeverDropped(steps, more[..|more| - 1], limits, t)
        && !Drops(Reached(steps, more, limits, |more| - 1), more[|more| - 1], limits, t)
  {
    hide Drops, Reached;
    forall k | 0 <= k < |more|
      ensures Reached(steps, more[..|more| - 1], limits, k) == Reached(steps, more, limits, k)
    {
      ReachedBefore(steps, more, limits, k);
    }
  }

  lemma EndedBefore(steps: seq<Step>, more: seq<Step>, limits: Limits, t: Id)
    requires more != []
    ensures EverEnded(steps, more, limits, t) <==>
        EverEnded(steps, more[..|more| - 1], limits, t) || Ended(Reached(steps, more, limits, |more|), t)
  {
    hide Ended, Reached;
    var but := more[..|more| - 1];
    if EverEnded(steps, but, limits, t) {
      var k :| 0 <= k <= |but| && Ended(Reached(steps, but, limits, k), t);
      ReachedBefore(steps, more, limits, k);
      assert Ended(Reached(steps, more, limits, k), t);
    }
    if EverEnded(steps, more, limits, t) {
      var k :| 0 <= k <= |more| && Ended(Reached(steps, more, limits, k), t);
      if k < |more| {
        ReachedBefore(steps, more, limits, k);
        assert Ended(Reached(steps, but, limits, k), t);
      }
    }
  }

  // The state before the last step of a run, and after it.
  lemma LastStep(steps: seq<Step>, more: seq<Step>, limits: Limits)
    requires more != []
    ensures
      var last := |more| - 1;
      var s := Reached(steps, more, limits, last);
      && s == Runs(InitialSys(), steps + more[..last], limits, false)
      && Reached(steps, more, limits, |more|) == Do(s, more[last], limits, false)
      && Runs(InitialSys(), steps + more, limits, false) == Do(s, more[last], limits, false)
  {
    hide Do;
    assert more[..|more|] == more;
    assert (steps + more)[..|steps + more| - 1] == steps + more[..|more| - 1];
  }

  // A record in the file moves on, or is pruned, or is dropped; a missing one stays so.
  lemma HistoryStep(k: Ticket, s: Sys, n: Sys, t: Id, dropped: bool)
    requires Since(k, s, t)
    requires if dropped then t in s.disk.tickets && !Terminal(s.disk.tickets[t].state) && Gone(n, t) else Moves(s, n, t)
    ensures Since(k, n, t)
    ensures t in n.disk.tickets ==> t in s.disk.tickets && !dropped && (Ended(s, t) ==> Ended(n, t))
    ensures t in s.disk.tickets && t !in n.disk.tickets ==> (Ended(s, t) <==> !dropped)
  {
  }

  lemma DropIsGone(s: Sys, step: Step, limits: Limits, t: Id)
    requires Inv(s) && Drops(s, step, limits, t)
    ensures Gone(Do(s, step, limits, false), t)
  {
    KnownIsUsed(s.disk, s.used, t);
  }

  // A ticket's file record only moves forward, a terminal record never changes, and a
  // ticket that left the file never comes back, along every run from a state in which file
  // and memory agree on the ticket, as long as no published write that touches it throws.
  // One that has left had ended first if and only if no start set aside a file that
  // prints over the limit with the live ticket in it.
  lemma {:induction false} HistoryMovesForward(steps: seq<Step>, more: seq<Step>, limits: Limits, t: Id)
    requires t in Runs(InitialSys(), steps, limits, false).disk.tickets
    requires Level(Runs(InitialSys(), steps, limits, false), t) && NeverTorn(steps, more, limits, t)
    ensures
      var n := Runs(InitialSys(), steps + more, limits, false);
      && Level(n, t) && Since(Runs(InitialSys(), steps, limits, false).disk.tickets[t], n, t)
      && (t in n.disk.tickets ==> NeverDropped(steps, more, limits, t)
                                  && (EverEnded(steps, more, limits, t) <==> Ended(n, t)))
      && (t !in n.disk.tickets ==> (EverEnded(steps, more, limits, t) <==> NeverDropped(steps, more, limits, t)))
    decreases |more|
  {
    if more == [] {
      assert steps + more == steps && more[..0] == more;
      assert Reached(steps, more, limits, 0) == Runs(InitialSys(), steps, limits, false);
    } else {
      var but, step := more[..|more| - 1], more[|more| - 1];
      var s := Runs(InitialSys(), steps + but, limits, false);
      var n := Do(s, step, limits, false);
      var k := Runs(InitialSys(), steps, limits, false).disk.tickets[t];
      hide Level, Tears, Do, Moves, NeverTorn, NeverDropped, EverEnded, Inv, Runs;
      LastStep(steps, more, limits);
      TornBefore(steps, more, limits, t);
      DroppedBefore(steps, more, limits, t);
      EndedBefore(steps, more, limits, t);
      HistoryMovesForward(steps, but, limits, t);
      RunKeeps(steps + but, limits);
      StepMoves(s, step, limits, t);
      if Drops(s, step, limits, t) { DropIsGone(s, step, limits, t); }
      HistoryStep(k, s, n, t, Drops(s, step, limits, t));
    }
  }

  // Without such a throw file and memory agree in every state, so the condition above is
  // about the run alone.
  lemma {:induction false} AlwaysLevel(steps: seq<Step>, limits: Limits, t: Id)
    requires NeverTorn([], steps, limits, t)
    ensures Level(Runs(InitialSys(), steps, limits, false), t)
    decreases |steps|
  {
    if steps != [] {
      hide Tears, Do, NeverTorn, Inv, Moves, Level;
      var but := steps[..|steps| - 1];
      LastStep([], steps, limits);
      TornBefore([], steps, limits, t);
      assert [] + but == but && [] + steps == steps;
      AlwaysLevel(but, limits, t);
      RunKeeps(but, limits);
      StepMoves(Runs(InitialSys(), but, limits, false), steps[|steps| - 1], limits, t);
    }
  }

  // Exactly such a throw lets file and memory disagree ...
  lemma LandedThrowTears(s: Sys, limits: Limits, t: Id)
    requires Inv(s) && s.pending.Some? && Level(s, t) && Fits(s.mem, limits)
    ensures Level(Do(s, WriteThrows(true), limits, true), t) <==> !Touches(s, t)
  {
    if t in s.mem.tickets && t !in s.pending.value.saved.tickets { assert NewlyIssued(s, t); }
  }

  // ... and then the next write that lands and leaves the ticket alone takes the file's
  // record back, exactly when they disagree.
  lemma NextWriteTakesBack(s: Sys, limits: Limits, t: Id)
    requires Inv(s) && s.pending.Some? && !Touches(s, t) && Fits(s.mem, limits)
    ensures Moves(s, Do(s, WriteCommits, limits, false), t) <==> Level(s, t)
  {
    if t in s.disk.tickets { KnownIsUsed(s.disk, s.used, t); }
    if t in s.mem.tickets { assert OnDisk(s, t); }
  }
}
