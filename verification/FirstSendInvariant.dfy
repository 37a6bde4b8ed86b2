/** What every reachable state of the first-send protocol keeps. */
module FirstSendInvariant {
  import opened Wrappers
  import opened Drafts
  import opened DraftsCoherence
  import opened FirstSend

  // ---- Outcomes are truthful -------------------------------------------------------

  // `a` admissions of a ticket were called, `c` of them taken.
  predicate TicketTruth(k: Ticket, a: nat, c: nat) {
    && (a > 0 ==> k.phase.PromptSubmitting?)
    && (k.state.Succeeded? ==> a == 1 && c == 1)
    && (k.state.Failed? ==> c == 0)
  }

  predicate DraftTruth(d: Draft, a: nat, c: nat) {
    && (d.state.Cancelled? ==> a == 0)
    && (d.state.Live? ==> a == 1 && c == 1)
    && (d.state.DraftFailed? ==> c == 0)
  }

  ghost predicate TicketTrue(s: Store, t: Id, admits: multiset<Id>, accepted: multiset<Id>)
    requires t in s.tickets
  {
    TicketTruth(s.tickets[t], admits[t], accepted[t])
  }

  ghost predicate DraftTrue(s: Store, d: Id, admits: multiset<Id>, accepted: multiset<Id>)
    requires d in s.drafts
  {
    s.drafts[d].materialization.Some? ==>
      var t := s.drafts[d].materialization.value.ticketId;
      DraftTruth(s.drafts[d], admits[t], accepted[t])
  }

  ghost predicate Truthful(s: Store, admits: multiset<Id>, accepted: multiset<Id>) {
    && (forall t {:trigger TicketTrue(s, t, admits, accepted)} | t in s.tickets :: TicketTrue(s, t, admits, accepted))
    && (forall d {:trigger DraftTrue(s, d, admits, accepted)} | d in s.drafts :: DraftTrue(s, d, admits, accepted))
  }

  // ---- One version of the records ------------------------------------------------------

  // Ticket ids are issued once.
  ghost predicate Issued(s: Store, used: set<Id>) {
    forall id {:trigger FreshTicketId(s, id)} | id !in used :: FreshTicketId(s, id)
  }

  ghost predicate Sound(s: Store, used: set<Id>, admits: multiset<Id>, accepted: multiset<Id>) {
    Coherent(s) && Issued(s, used) && Truthful(s, admits, accepted)
  }

  ghost predicate Remembers(s: Store, d: Id, t: Id) {
    d in s.drafts && s.drafts[d].materialization.Some? && s.drafts[d].materialization.value.ticketId == t
  }

  // This version has not decided the outcome of ticket t.
  ghost predicate Undecided(s: Store, t: Id) {
    && (t in s.tickets ==>
          s.tickets[t].phase.PromptSubmitting? && (s.tickets[t].state.Running? || s.tickets[t].state.Indeterminate?))
    && (forall d {:trigger Remembers(s, d, t)} | Remembers(s, d, t) ::
          s.drafts[d].state.Materializing? || s.drafts[d].state.DraftIndeterminate?)
  }

  // ---- Program counters ------------------------------------------------------------------

  // The admission is called or about to be, and its outcome not yet recorded.
  predicate InWindow(pc: Pc) {
    pc.Checkpointed? || pc.AwaitingAdmission? || pc.ToSucceeded? || pc.ToRejected?
  }

  function SessionAt(pc: Pc): Option<Session> {
    match pc
    case WritingPrompt(x) => Some(x)
    case Checkpointed(x) => Some(x)
    case AwaitingAdmission(x, _) => Some(x)
    case ToSucceeded(x) => Some(x)
    case WritingSucceeded(x) => Some(x)
    case ToRejected(x, _) => Some(x)
    case WritingRejected(x) => Some(x)
    case ConflictRead(x) => Some(x)
    case Releasing(x) => Some(x)
    case Catching(m) => m
    case ToTerminal(_, m) => m
    case _ => None
  }

  predicate Counted(pc: Pc, a: nat, c: nat) {
    match pc
    case Checkpointed(_) => a == 0 && c == 0
    case AwaitingAdmission(_, taken) => a == 1 && c == (if taken then 1 else 0)
    case ToSucceeded(_) => a == 1 && c == 1
    case WritingSucceeded(_) => a == 1 && c == 1
    case ToRejected(_, _) => a == 1 && c == 0
    case WritingRejected(_) => a == 1 && c == 0
    case Entering(w) => w.phase.Starting? || w.session.Some?
    case OpeningSession(w) => w.phase.Starting? || w.session.Some?
    case _ => true
  }

  // What an executor at `pc` may assume of its ticket's record.
  predicate PcKnows(pc: Pc, k: Ticket) {
    && (Interrupted(k) ==> PastCheckpoint(pc) || pc.Loading? || pc.Finished? || pc.Releasing?)
    && (k.state.Queued? ==> pc.Loading? || pc.ToRunning? || pc.WritingRunning? || pc.Finished?)
    && (k.state.Running? ==> !pc.ToRunning?)
    && (Interrupted(k) ==> SessionAt(pc).None? || SessionAt(pc).value == k.targetSession)
    && (match pc
        case Entering(w) => k.phase == w.phase
        case OpeningSession(w) => k.phase == w.phase
        case ToReady(_) => k.phase.Starting?
        case ToTerminal(ambiguous, _) => ambiguous == k.phase.PromptSubmitting?
        case ConflictRead(_) => k.phase.PromptSubmitting?
        case Releasing(_) => Terminal(k.state) || Interrupted(k)
        case _ => true)
  }

  ghost predicate PcFits(pc: Pc, s: Store, t: Id) {
    && (InWindow(pc) ==> Undecided(s, t))
    && (t in s.tickets ==> PcKnows(pc, s.tickets[t]))
  }

  // The prompt of a ticket recorded as interrupted was offered, or is about to be.
  ghost predicate Offered(sys: Sys, v: Store, t: Id)
    requires t in v.tickets
  {
    Interrupted(v.tickets[t]) ==>
      sys.admits[t] == 1 || (t in sys.runs && (sys.runs[t].pc.WritingPrompt? || sys.runs[t].pc.Checkpointed?))
  }

  ghost predicate AllOffered(sys: Sys, v: Store) {
    forall t {:trigger Offered(sys, v, t)} | t in v.tickets :: Offered(sys, v, t)
  }

  // A ticket recorded as interrupted has an executor past its checkpoint.
  ghost predicate Attended(s: Store, t: Id, runs: map<Id, Run>)
    requires t in s.tickets
  {
    Interrupted(s.tickets[t]) ==> t in runs && PastCheckpoint(runs[t].pc)
  }

  ghost predicate AllAttended(s: Store, runs: map<Id, Run>) {
    forall t {:trigger Attended(s, t, runs)} | t in s.tickets :: Attended(s, t, runs)
  }

  // ---- The write in flight ------------------------------------------------------------------

  predicate Retired(k: Ticket, k': Ticket) {
    && !Terminal(k.state)
    && k'.state == (if Interrupted(k) then Indeterminate else Failed)
    && k'.phase == k.phase && k'.targetSession == k.targetSession
  }

  // Anyone else's mutation leaves a ticket alone, prunes it, or cancels it.
  ghost predicate LeftAlone(a: Store, b: Store, t: Id)
    requires t in a.tickets
  {
    if t !in b.tickets then Terminal(a.tickets[t].state)
    else b.tickets[t] == a.tickets[t] || Retired(a.tickets[t], b.tickets[t])
  }

  // What the executor's own write changes, by its program counter.
  ghost predicate OwnWrite(a: Store, b: Store, t: Id, pc: Pc) {
    && t in a.tickets && t in b.tickets
    && !Terminal(a.tickets[t].state)
    && Progress(a.tickets[t]) < Progress(b.tickets[t])
    && PhaseRank(a.tickets[t].phase) <= PhaseRank(b.tickets[t].phase)
    && b.tickets[t].targetSession == a.tickets[t].targetSession
    && (match pc
        case WritingPrompt(_) => !a.tickets[t].phase.PromptSubmitting? && Interrupted(b.tickets[t]) && Undecided(b, t)
        case WritingSucceeded(_) => b.tickets[t].state.Succeeded?
        case WritingRejected(_) => b.tickets[t].state.Failed?
        case WritingTerminal(ambiguous) =>
          if ambiguous then b.tickets[t].state.Indeterminate?
          else !a.tickets[t].phase.PromptSubmitting? && b.tickets[t].state.Failed?
        case _ => !a.tickets[t].phase.PromptSubmitting? && !b.tickets[t].phase.PromptSubmitting?)
  }

  ghost predicate InFlight(sys: Sys, t: Id)
    requires sys.pending.Some? && t in sys.pending.value.saved.tickets
  {
    var p := sys.pending.value;
    if p.owner == Executor(t)
        then t in sys.runs && Writing(sys.runs[t].pc) && OwnWrite(p.saved, sys.mem, t, sys.runs[t].pc)
    else LeftAlone(p.saved, sys.mem, t)
  }

  ghost predicate NewlyIssued(sys: Sys, t: Id)
    requires t in sys.mem.tickets
  {
    && sys.mem.tickets[t].state.Queued? && sys.mem.tickets[t].phase.Starting? && sys.commits[t] == 0
    && t !in sys.disk.tickets
  }

  // The records as last settled in memory.
  function Settled(sys: Sys): Store {
    if sys.pending.Some? then sys.pending.value.saved else sys.mem
  }

  // One written step further on.
  predicate Ahead(k: Ticket, d: Ticket) {
    !Terminal(k.state) && Progress(k) < Progress(d) && PhaseRank(k.phase) <= PhaseRank(d.phase)
    && d.targetSession == k.targetSession
  }

  // The file has the settled record; or a thrown write published the step after it, or
  // its pruning.
  ghost predicate OnDisk(sys: Sys, t: Id)
    requires t in Settled(sys).tickets
  {
    var k := Settled(sys).tickets[t];
    if t in sys.disk.tickets then sys.disk.tickets[t] == k || Ahead(k, sys.disk.tickets[t]) else Terminal(k.state)
  }

  // Memory lacks a ticket of the file only when a restart pruned it, or a thrown write
  // published its submission.
  ghost predicate EndedIfDropped(sys: Sys, t: Id)
    requires t in sys.disk.tickets
  {
    t !in Settled(sys).tickets ==> Terminal(sys.disk.tickets[t].state) || sys.disk.tickets[t].state.Queued?
  }

  ghost predicate RunFits(sys: Sys, t: Id)
    requires t in sys.runs
  {
    var pc := sys.runs[t].pc;
    && t in sys.used
    && Counted(pc, sys.admits[t], sys.accepted[t])
    && (Writing(pc) ==> sys.pending.Some? && sys.pending.value.owner == Executor(t))
    && PcFits(pc, sys.mem, t)
    && (sys.runs[t].aborted ==> sys.draining)
    && (InWindow(pc) ==> Undecided(sys.disk, t))
    && (sys.pending.Some? ==> PcFits(pc, sys.pending.value.saved, t))
  }

  // ---- Counting --------------------------------------------------------------------------------

  predicate CountsFit(sys: Sys, t: Id) {
    && sys.accepted[t] <= sys.admits[t] <= 1
    && sys.commits[t] <= 4
    && (t !in sys.used ==> sys.admits[t] == 0 && sys.commits[t] == 0)
    && (t in sys.disk.tickets ==> sys.commits[t] <= Progress(sys.disk.tickets[t]))
    && (t in Settled(sys).tickets ==> sys.commits[t] <= Progress(Settled(sys).tickets[t]))
  }

  // ---- The invariant -----------------------------------------------------------------------------

  ghost predicate Versions(sys: Sys) {
    && Sound(sys.mem, sys.used, sys.admits, sys.accepted)
    && Sound(sys.disk, sys.used, sys.admits, sys.accepted)
    && (sys.pending.Some? ==> Sound(sys.pending.value.saved, sys.used, sys.admits, sys.accepted))
  }

  ghost predicate Flight(sys: Sys) {
    sys.pending.Some? ==>
      && (forall t {:trigger InFlight(sys, t)} | t in sys.pending.value.saved.tickets :: InFlight(sys, t))
      && (sys.pending.value.owner.Executor? ==> sys.pending.value.owner.ticketId in sys.pending.value.saved.tickets)
      && (sys.pending.value.owner.Submitter? ==> sys.pending.value.owner.ticketId in sys.used)
      && (forall t {:trigger NewlyIssued(sys, t)} | t in sys.mem.tickets
          && t !in sys.pending.value.saved.tickets :: NewlyIssued(sys, t))
  }

  ghost predicate Durable(sys: Sys) {
    && (forall t {:trigger OnDisk(sys, t)} | t in Settled(sys).tickets :: OnDisk(sys, t))
    && (forall t {:trigger EndedIfDropped(sys, t)} | t in sys.disk.tickets :: EndedIfDropped(sys, t))
  }

  ghost predicate Watched(sys: Sys) {
    && AllAttended(sys.mem, sys.runs)
    && AllOffered(sys, sys.mem)
    && (sys.pending.Some? ==> AllOffered(sys, sys.pending.value.saved))
  }

  ghost predicate AllRunsFit(sys: Sys) {
    forall t {:trigger RunFits(sys, t)} | t in sys.runs :: RunFits(sys, t)
  }

  ghost predicate AllCountsFit(sys: Sys) {
    forall t {:trigger CountsFit(sys, t)} :: CountsFit(sys, t)
  }

  ghost predicate Inv(sys: Sys) {
    && Versions(sys)
    && Flight(sys)
    && Durable(sys)
    && AllRunsFit(sys)
    && AllCountsFit(sys)
    && sys.toLaunch <= sys.used
    && (sys.up ==> Watched(sys))
    && (!sys.up ==> sys.pending.None? && sys.runs == map[] && sys.toLaunch == {} && sys.mem == sys.disk)
  }
}
