/**
 Launching, reaping, draining, settling a write, crashing and restarting keep the
 first-send invariant.
 */
module FirstSendControl {
  import opened Wrappers
  import opened Drafts
  import opened DraftsCoherence
  import opened FirstSend
  import opened FirstSendInvariant
  import opened FirstSendClients

  // ---- Changing one executor's place ---------------------------------------------------

  ghost predicate MayMove(s: Sys, t: Id, run: Run) {
    && Inv(s) && s.up && t in s.used
    && (t in s.runs ==> !Writing(s.runs[t].pc))
    && !Writing(run.pc)
    && Counted(run.pc, s.admits[t], s.accepted[t])
    && PcFits(run.pc, s.mem, t)
    && (InWindow(run.pc) ==> Undecided(s.disk, t))
    && (s.pending.Some? ==> PcFits(run.pc, s.pending.value.saved, t))
    && (run.aborted ==> s.draining)
    && (t in s.runs && PastCheckpoint(s.runs[t].pc) && !PastCheckpoint(run.pc) ==>
          !(t in s.mem.tickets && Interrupted(s.mem.tickets[t])))
    && (t in s.runs ==> !s.runs[t].pc.Checkpointed?)
  }

  // Only the executors' places changed.
  lemma NewRunsKeep(s: Sys, n: Sys)
    requires Inv(s) && s.up && n == s.(runs := n.runs, draining := n.draining)
    requires AllRunsFit(n) && Watched(n)
    requires s.pending.Some? && s.pending.value.owner.Executor? && s.pending.value.owner.ticketId in s.runs ==>
               s.pending.value.owner.ticketId in n.runs
               && n.runs[s.pending.value.owner.ticketId].pc == s.runs[s.pending.value.owner.ticketId].pc
    ensures Inv(n)
  {
    forall u | n.pending.Some? && u in n.pending.value.saved.tickets ensures InFlight(n, u) { assert InFlight(s, u); }
    forall u | n.pending.Some? && u in n.mem.tickets && u !in n.pending.value.saved.tickets ensures NewlyIssued(n, u) {
      assert NewlyIssued(s, u);
    }
    forall u | u in Settled(n).tickets ensures OnDisk(n, u) { assert OnDisk(s, u); }
    forall u | u in n.disk.tickets ensures EndedIfDropped(n, u) { assert EndedIfDropped(s, u); }
    forall u ensures CountsFit(n, u) { assert CountsFit(s, u); }
  }

  lemma OwnerRuns(s: Sys)
    requires Inv(s) && s.pending.Some? && s.pending.value.owner.Executor?
    ensures s.pending.value.owner.ticketId in s.runs && Writing(s.runs[s.pending.value.owner.ticketId].pc)
  {
    assert InFlight(s, s.pending.value.owner.ticketId);
  }

  // No executor left the place before its admission.
  lemma OffersStay(s: Sys, n: Sys)
    requires n.admits == s.admits
    requires forall t | t in s.runs && (s.runs[t].pc.WritingPrompt? || s.runs[t].pc.Checkpointed?) ::
               t in n.runs && n.runs[t].pc == s.runs[t].pc
    ensures forall v | AllOffered(s, v) :: AllOffered(n, v)
  {
    forall v | AllOffered(s, v) ensures AllOffered(n, v) {
      forall t | t in v.tickets ensures Offered(n, v, t) { assert Offered(s, v, t); }
    }
  }

  lemma MoveKeeps(s: Sys, t: Id, run: Run)
    requires MayMove(s, t, run)
    ensures Inv(s.(runs := s.runs[t := run]))
  {
    var n := s.(runs := s.runs[t := run]);
    forall u | u in n.runs ensures RunFits(n, u) {
      if u != t { assert RunFits(s, u); }
    }
    forall u | u in n.mem.tickets ensures Attended(n.mem, u, n.runs) { assert Attended(s.mem, u, s.runs); }
    OffersStay(s, n);
    if s.pending.Some? && s.pending.value.owner.Executor? { OwnerRuns(s); }
    NewRunsKeep(s, n);
  }

  lemma LaunchKeeps(s: Sys, t: Id, limits: Limits)
    requires Inv(s)
    ensures Inv(Do(s, Launch(t), limits, false))
  {
    if t in s.toLaunch {
      var n := s.(toLaunch := s.toLaunch - {t});
      SameFacts(s, n);
      if t !in s.runs { MoveKeeps(n, t, Run(Loading, false)); }
    }
  }

  // Executors keep their places, or leave once they have finished.
  lemma KeepingPlaces(s: Sys, n: Sys)
    requires Inv(s) && s.up && n == s.(runs := n.runs, draining := n.draining)
    requires forall t | t in n.runs :: t in s.runs && n.runs[t].pc == s.runs[t].pc && (n.runs[t].aborted ==> n.draining)
    requires forall t | t in s.runs && t !in n.runs :: s.runs[t].pc.Finished?
    ensures Inv(n)
  {
    forall u | u in n.runs ensures RunFits(n, u) { assert RunFits(s, u); }
    forall u | u in n.mem.tickets ensures Attended(n.mem, u, n.runs) { assert Attended(s.mem, u, s.runs); }
    OffersStay(s, n);
    if s.pending.Some? && s.pending.value.owner.Executor? { OwnerRuns(s); }
    NewRunsKeep(s, n);
  }

  lemma ReapAndDrainKeep(s: Sys, step: Step, limits: Limits)
    requires Inv(s) && (step.Reap? || step.BeginDrain?)
    ensures Inv(Do(s, step, limits, false))
  {
    if s.up {
      forall t | t in s.runs ensures s.runs[t].aborted ==> s.draining { assert RunFits(s, t); }
      KeepingPlaces(s, Do(s, step, limits, false));
    }
  }

  // ---- A write commits ------------------------------------------------------------------------

  lemma CommitRuns(s: Sys)
    requires Inv(s) && s.up && s.pending.Some?
    ensures AllRunsFit(Commit(s)) && Watched(Commit(s))
  {
    var n := Commit(s);
    var p := s.pending.value;
    forall t | t in n.runs ensures RunFits(n, t) {
      assert RunFits(s, t);
      if p.owner == Executor(t) { CommitOwner(s, t); }
    }
    forall t | t in n.mem.tickets ensures Attended(n.mem, t, n.runs) && Offered(n, n.mem, t) {
      assert Attended(s.mem, t, s.runs) && Offered(s, s.mem, t);
      if p.owner == Executor(t) { assert InFlight(s, t); }
    }
  }

  lemma CommitOwner(s: Sys, t: Id)
    requires Inv(s) && s.up && s.pending.Some? && s.pending.value.owner == Executor(t) && t in s.runs
    ensures RunFits(Commit(s), t)
  {
    assert InFlight(s, t) && RunFits(s, t);
    var pc := s.runs[t].pc;
    if pc.WritingPrompt? {
      UncalledBeforeCheckpoint(s, t);
    } else {
      assert PcFits(AfterCommit(pc), s.mem, t) && Counted(AfterCommit(pc), s.admits[t], s.accepted[t]);
    }
  }

  lemma UncalledBeforeCheckpoint(s: Sys, t: Id)
    requires Inv(s) && s.pending.Some? && s.pending.value.owner == Executor(t) && t in s.runs
    requires s.runs[t].pc.WritingPrompt?
    ensures s.admits[t] == 0 && s.accepted[t] == 0
    ensures PcFits(AfterCommit(s.runs[t].pc), s.mem, t)
  {
    assert InFlight(s, t) && RunFits(s, t) && CountsFit(s, t);
    assert TicketTrue(s.pending.value.saved, t, s.admits, s.accepted);
  }

  lemma CommitCounts(s: Sys, t: Id)
    requires Inv(s) && s.up && s.pending.Some?
    ensures CountsFit(Commit(s), t)
  {
    hide Versions, Durable, Watched, PcFits, Undecided;
    var p := s.pending.value;
    assert CountsFit(s, t);
    if t in s.mem.tickets {
      if t in p.saved.tickets { assert InFlight(s, t); } else { assert NewlyIssued(s, t); }
    }
    if p.owner == Executor(t) { assert InFlight(s, t) && RunFits(s, t); }
  }

  lemma CommitKeeps(s: Sys)
    requires Inv(s) && s.up && s.pending.Some?
    ensures Inv(Commit(s))
  {
    var n := Commit(s);
    CommitRuns(s);
    forall t ensures CountsFit(n, t) { CommitCounts(s, t); }
  }

  // ---- A write throws, and #serialize restores both maps -----------------------------------------

  lemma ThrowOwner(s: Sys, t: Id)
    requires Inv(s) && s.up && s.pending.Some? && t in s.runs && s.pending.value.owner == Executor(t)
    ensures PcFits(AfterThrow(s.runs[t].pc), s.pending.value.saved, t)
    ensures AfterThrow(s.runs[t].pc).Finished? || AfterThrow(s.runs[t].pc).Catching?
  {
    assert RunFits(s, t) && InFlight(s, t);
  }

  lemma ThrowRun(s: Sys, landed: bool, t: Id)
    requires Inv(s) && s.up && s.pending.Some? && t in s.runs
    ensures RunFits(Throw(s, landed), t)
  {
    if s.pending.value.owner == Executor(t) { ThrowOwner(s, t); }
    assert RunFits(s, t);
  }

  lemma ThrowOffered(s: Sys, landed: bool)
    requires Inv(s) && s.up && s.pending.Some?
    ensures AllOffered(Throw(s, landed), s.pending.value.saved)
  {
    var v, n := s.pending.value.saved, Throw(s, landed);
    forall t | t in v.tickets ensures Offered(n, v, t) {
      assert Offered(s, v, t);
      if s.pending.value.owner == Executor(t) { assert InFlight(s, t); }
    }
  }

  // What the file says once the write in flight threw.
  lemma ThrowDurable(s: Sys, landed: bool)
    requires Inv(s) && s.up && s.pending.Some?
    ensures Durable(Throw(s, landed))
  {
    var v, n := s.pending.value.saved, Throw(s, landed);
    forall t | t in v.tickets ensures OnDisk(n, t) { assert OnDisk(s, t) && InFlight(s, t); }
    forall t | t in n.disk.tickets ensures EndedIfDropped(n, t) {
      if landed { assert t !in v.tickets ==> NewlyIssued(s, t); } else { assert EndedIfDropped(s, t); }
    }
  }

  lemma ThrowCounts(s: Sys, landed: bool, t: Id)
    requires Inv(s) && s.up && s.pending.Some?
    ensures CountsFit(Throw(s, landed), t)
  {
    assert CountsFit(s, t);
    if t in s.mem.tickets {
      if t in s.pending.value.saved.tickets { assert InFlight(s, t); } else { assert NewlyIssued(s, t); }
    }
  }

  // All but the attendance of interrupted tickets survives any throw ...
  ghost predicate InvButWatched(s: Sys) {
    && Versions(s) && Flight(s) && Durable(s) && AllRunsFit(s) && AllCountsFit(s)
    && s.toLaunch <= s.used && s.up && AllOffered(s, s.mem)
  }

  lemma ThrowKeepsMost(s: Sys, landed: bool)
    requires Inv(s) && s.up && s.pending.Some?
    ensures InvButWatched(Throw(s, landed)) && Throw(s, landed).pending.None?
  {
    var n := Throw(s, landed);
    forall t | t in n.runs ensures RunFits(n, t) { ThrowRun(s, landed, t); }
    ThrowOffered(s, landed);
    ThrowDurable(s, landed);
    forall t ensures CountsFit(n, t) { ThrowCounts(s, landed, t); }
  }

  // ... and that does exactly when the write spares every interrupted ticket.
  lemma ThrowAttends(s: Sys, landed: bool, t: Id)
    requires Inv(s) && s.up && s.pending.Some? && t in s.pending.value.saved.tickets
    ensures
      var saved := s.pending.value.saved;
      Attended(saved, t, Throw(s, landed).runs) <==> (Interrupted(saved.tickets[t]) ==> StaysOn(s, t))
  {
    if t in s.runs { assert RunFits(s, t); }
    if s.pending.value.owner == Executor(t) { assert InFlight(s, t); }
  }

  lemma ThrowWatched(s: Sys, landed: bool)
    requires Inv(s) && s.up && s.pending.Some?
    ensures AllAttended(s.pending.value.saved, Throw(s, landed).runs) <==> Spares(s)
  {
    var saved := s.pending.value.saved;
    forall t | t in saved.tickets
      ensures Attended(saved, t, Throw(s, landed).runs) <==> (Interrupted(saved.tickets[t]) ==> StaysOn(s, t))
    {
      ThrowAttends(s, landed, t);
    }
    hide Inv, Throw;
  }

  lemma ThrowKeeps(s: Sys, landed: bool)
    requires Inv(s) && s.up && s.pending.Some? && Spares(s)
    ensures Inv(Throw(s, landed))
  {
    ThrowKeepsMost(s, landed);
    ThrowWatched(s, landed);
  }

  // ---- Crash and restart ------------------------------------------------------------------------------

  lemma StopKeeps(s: Sys)
    requires Inv(s)
    ensures Inv(Stop(s))
  {
    var n := Stop(s);
    forall t ensures CountsFit(n, t) { assert CountsFit(s, t); }
  }

  lemma CrashKeeps(s: Sys, written: bool, limits: Limits)
    requires Inv(s)
    ensures Inv(Do(s, Crash(written), limits, false))
  {
    if s.up {
      if written && s.pending.Some? && Fits(s.mem, limits) {
        CommitKeeps(s);
        StopKeeps(Commit(s));
      } else {
        StopKeeps(s);
      }
    }
  }

  lemma RecoveredSound(d: Store, now: Time, limits: Limits, used: set<Id>, admits: multiset<Id>, accepted: multiset<Id>)
    requires Sound(d, used, admits, accepted)
    ensures Sound(Recover(d, now, limits), used, admits, accepted)
  {
    RecoverKeeps(d, now, limits);
    var m := Recover(d, now, limits);
    forall t | t in m.tickets ensures TicketTrue(m, t, admits, accepted) {
      assert TicketTrue(d, t, admits, accepted);
    }
    forall x | x in m.drafts ensures DraftTrue(m, x, admits, accepted) {
      assert DraftTrue(d, x, admits, accepted);
    }
    forall id | id !in used ensures FreshTicketId(m, id) {
      RecoveredFresh(d, now, limits, id, used);
    }
  }

  lemma RecoveredFresh(d: Store, now: Time, limits: Limits, id: Id, used: set<Id>)
    requires Coherent(d) && Issued(d, used) && id !in used
    ensures FreshTicketId(Recover(d, now, limits), id)
  {
    assert FreshTicketId(d, id);
    var m := Recover(d, now, limits);
    forall x | x in m.drafts && m.drafts[x].materialization.Some?
      ensures m.drafts[x].materialization.value.ticketId != id
    {
      LiveTicketExactlyWhileMaterializing(d, x);
    }
  }

  lemma NothingMarked(d: Store, now: Time, t: Id)
    requires !AnyInterrupted(d) && t in d.tickets
    ensures MarkInterrupted(d, now).tickets[t] == d.tickets[t]
  {
  }

  // What a restart finds: the records of the file, unless it was set aside.
  ghost function Found(s: Sys, limits: Limits): Store { if ReadsBack(s.disk, limits) then s.disk else EMPTY }

  lemma FoundSound(s: Sys, limits: Limits)
    requires Inv(s)
    ensures Sound(Found(s, limits), s.used, s.admits, s.accepted)
  {
  }

  lemma RecoveredUninterrupted(d: Store, now: Time, limits: Limits)
    ensures !AnyInterrupted(Recover(d, now, limits))
  {
  }

  lemma StartFresh(s: Sys, mem: Store, disk: Store)
    requires s.pending.None? && Sound(mem, s.used, s.admits, s.accepted) && !AnyInterrupted(mem)
    ensures AllRunsFit(Start(s, mem, disk)) && Watched(Start(s, mem, disk))
  {
    var n := Start(s, mem, disk);
    hide Coherent, Truthful;
    forall t | t in n.runs ensures RunFits(n, t) { assert t !in s.used ==> FreshTicketId(mem, t); }
    forall t | t in mem.tickets ensures Attended(mem, t, n.runs) && Offered(n, mem, t) { }
  }

  // The records in memory are those of the file, or those of the file before a prune.
  lemma StartKeeps(s: Sys, mem: Store, disk: Store)
    requires Inv(s) && !s.up && !AnyInterrupted(mem)
    requires Sound(mem, s.used, s.admits, s.accepted) && Sound(disk, s.used, s.admits, s.accepted)
    requires forall t | t in mem.tickets :: t in disk.tickets && disk.tickets[t] == mem.tickets[t]
    requires forall t | t in disk.tickets ::
               t in s.disk.tickets && Progress(s.disk.tickets[t]) <= Progress(disk.tickets[t])
    requires forall t | t in disk.tickets && t !in mem.tickets :: Terminal(disk.tickets[t].state)
    ensures Inv(Start(s, mem, disk))
  {
    StartFresh(s, mem, disk);
    var n := Start(s, mem, disk);
    forall t | t in n.mem.tickets ensures OnDisk(n, t) { }
    forall t ensures CountsFit(n, t) { assert CountsFit(s, t); }
  }

  lemma RestartKeeps(s: Sys, now: Time, writes: bool, limits: Limits)
    requires Inv(s)
    ensures Inv(Do(s, Restart(now, writes), limits, false))
  {
    if !s.up {
      var found := Found(s, limits);
      var recovered := Recover(found, now, limits);
      FoundSound(s, limits);
      RecoveredSound(found, now, limits, s.used, s.admits, s.accepted);
      RecoveredUninterrupted(found, now, limits);
      if found == s.disk && !AnyInterrupted(found) {
        forall t | t in recovered.tickets ensures recovered.tickets[t] == found.tickets[t] {
          NothingMarked(found, now, t);
        }
        StartKeeps(s, recovered, found);
      } else if writes && Fits(recovered, limits) {
        StartKeeps(s, recovered, recovered);
      } else {
        forall t ensures CountsFit(s.(mem := found, disk := found), t) { assert CountsFit(s, t); }
      }
    }
  }
}
