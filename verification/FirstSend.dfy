/**
 The crash-safe first send as a transition system: the store's memory and file,
 the write in flight, and one program counter per running executor
 (src/dashboard-session-materializer.ts:79-321 over
 src/dashboard-session-drafts.ts:268-754).

 Every await of the executor is a boundary between two steps, so client calls,
 other executors, a drain and a crash interleave anywhere. A step that is not
 enabled changes nothing. Reads do not queue behind the mutation in flight, so
 an executor can read records that a failing write takes back. Records whose text
 is over the limit can only throw; a file whose indented text is, is set aside unread
 by the next start.
 */
module FirstSend {
  import opened Wrappers
  import opened Drafts

  // What an executor remembers of the work it read.
  datatype Work = Work(draftId: Id, phase: Phase, session: Option<Session>, target: Session)

  datatype Pc =
    | Loading
    | ToRunning
    | WritingRunning
    | Reloading
    | Entering(work: Work)
    | OpeningSession(work: Work)
    | ToReady(session: Session)
    | WritingReady(session: Session)
    | ReloadingReady(session: Session)
    | Acquiring(session: Session)
    | ToPrompt(session: Session)
    | WritingPrompt(session: Session)
    | Checkpointed(session: Session)
    | AwaitingAdmission(session: Session, taken: bool)
    | ToSucceeded(session: Session)
    | WritingSucceeded(session: Session)
    | ToRejected(session: Session, reported: ApiError)
    | WritingRejected(session: Session)
    | ConflictRead(session: Session)
    | Releasing(session: Session)
    | Catching(materialized: Option<Session>)
    | ToTerminal(ambiguous: bool, materialized: Option<Session>)
    | WritingTerminal(ambiguous: bool)
    | Finished

  datatype Run = Run(pc: Pc, aborted: bool)

  // Who waits for the write in flight; `saved` is what #serialize would restore.
  datatype Owner = Executor(ticketId: Id) | Submitter(ticketId: Id) | Client

  datatype Pending = Pending(saved: Store, owner: Owner)

  // `waiting` are the sends let in before a drain that the store's queue has yet to run.
  // `admits` counts calls of the prompt controller's admit, `accepted` prompts
  // the runtime took, `commits` the executor's written transitions.
  datatype Sys = Sys(
    up: bool,
    draining: bool,
    waiting: multiset<(Id, SendRequest)>,
    mem: Store,
    disk: Store,
    pending: Option<Pending>,
    runs: map<Id, Run>,
    toLaunch: set<Id>,
    used: set<Id>,
    admits: multiset<Id>,
    accepted: multiset<Id>,
    commits: multiset<Id>)

  // What the runtime gateway or the clock answers to an executor's step.
  datatype Answer =
    | Proceeds(now: Time)
    | Throws
    | Returns(session: Session)
    | TakesPrompt
    | Refuses(code: Id, retryable: bool)

  datatype Step =
    | CreateDraft(createRequest: CreateRequest, newDraftId: Id, now: Time)
    | CancelDraftStep(draftId: Id, cancelRequest: CancelRequest, now: Time)
    | CallSend(draftId: Id, sendRequest: SendRequest)
    | Submit(draftId: Id, sendRequest: SendRequest, newTicketId: Id, now: Time)
    | Launch(ticketId: Id)
    | Execute(ticketId: Id, answer: Answer)
    | WriteCommits
    | WriteThrows(landed: bool)
    | Reap(ticketId: Id)
    | BeginDrain
    | Crash(written: bool)
    | Restart(now: Time, writes: bool)

  function InitialSys(): Sys {
    Sys(false, false, multiset{}, EMPTY, EMPTY, None, map[], {}, {}, multiset{}, multiset{}, multiset{})
  }

  function Goto(s: Sys, t: Id, pc: Pc): Sys
    requires t in s.runs
  {
    s.(runs := s.runs[t := s.runs[t].(pc := pc)])
  }

  function WorkOf(t: Ticket): Work { Work(t.draftId, t.phase, t.session, t.targetSession) }

  // transitionSend reaches the head of the mutation queue.
  function BeginTransition(s: Sys, t: Id, tr: Transition, now: Time, writing: Pc, conflict: Pc, refused: Pc): Sys
    requires t in s.runs
  {
    if s.pending.Some? then s
    else
      match TransitionSend(s.mem, t, tr, now)
      case Write(next, _) => Goto(s.(mem := next, pending := Some(Pending(s.mem, Executor(t)))), t, writing)
      case Reject(reason) => Goto(s, t, if reason.StateConflict? then conflict else refused)
      case Reply(_) => s
  }

  // What an executor does next: wait, go on, offer the prompt, see it taken, or begin a
  // transition that leads on when it is written, meets another state, or is refused.
  datatype Action =
    | Wait
    | GoOn(to: Pc)
    | Offer(to: Pc)
    | Take(to: Pc)
    | Begin(tr: Transition, now: Time, writing: Pc, conflict: Pc, refused: Pc)

  function ToBegin(answer: Answer, tr: Transition, writing: Pc, conflict: Pc, refused: Pc): Action {
    if answer.Proceeds? then Begin(tr, answer.now, writing, conflict, refused) else Wait
  }

  // The last resort of the catch clause.
  function LastResort(ambiguous: bool, m: Option<Session>): Transition {
    Transition(Running, if ambiguous then Indeterminate else Failed, None, m,
               Some(if ambiguous then SendIndeterminate else Reported(0, false)))
  }

  // The executor of ticket t, which reads the records in memory (materializer lines 164-289).
  function ActionOf(mem: Store, t: Id, run: Run, answer: Answer): Action {
    var found := t in mem.tickets;
    match run.pc
    case Loading =>
      GoOn(
        if !found || Terminal(mem.tickets[t].state) then Finished
        else if mem.tickets[t].state.Queued? then ToRunning
        else Entering(WorkOf(mem.tickets[t])))
    case ToRunning =>
      ToBegin(answer, Transition(Queued, Running, Some(Starting), None, None), WritingRunning, Finished, Finished)
    case Reloading =>
      GoOn(if found then Entering(WorkOf(mem.tickets[t])) else Finished)
    case Entering(w) =>
      GoOn(if run.aborted || w.draftId !in mem.drafts then Catching(w.session) else OpeningSession(w))
    case OpeningSession(w) =>
      (match answer
       case Throws => GoOn(Catching(w.session))
       case Returns(x) =>
         GoOn(
           if x != w.target then Catching(Some(x))
           else if w.phase.Starting? || w.session.None? then ToReady(x)
           else Acquiring(x))
       case _ => Wait)
    case ToReady(x) =>
      ToBegin(answer, Transition(Running, Running, Some(ReadyToPrompt), Some(x), None),
              WritingReady(x), Catching(Some(x)), Catching(Some(x)))
    case ReloadingReady(x) =>
      GoOn(if found then Acquiring(x) else Catching(Some(x)))
    case Acquiring(x) =>
      GoOn(if run.aborted || answer.Throws? then Catching(Some(x)) else ToPrompt(x))
    case ToPrompt(x) =>
      ToBegin(answer, Transition(Running, Running, Some(PromptSubmitting), Some(x), None),
              WritingPrompt(x), Catching(Some(x)), Catching(Some(x)))
    case Checkpointed(x) => Offer(AwaitingAdmission(x, false))
    case AwaitingAdmission(x, taken) =>
      (match answer
       case TakesPrompt => if taken then Wait else Take(AwaitingAdmission(x, true))
       case Throws => GoOn(Catching(Some(x)))
       case Refuses(code, retryable) => if taken then Wait else GoOn(ToRejected(x, Reported(code, retryable)))
       case _ => if taken then GoOn(ToSucceeded(x)) else Wait)
    case ToSucceeded(x) =>
      ToBegin(answer, Transition(Running, Succeeded, Some(PromptSubmitting), Some(x), None),
              WritingSucceeded(x), Catching(Some(x)), Catching(Some(x)))
    case ToRejected(x, error) =>
      // the store may refuse the error that the runtime reported (drafts lines 1110, 1134-1143)
      if answer.Throws? then GoOn(Catching(Some(x)))
      else
        ToBegin(answer, Transition(Running, Failed, None, Some(x), Some(error)),
                WritingRejected(x), ConflictRead(x), Catching(Some(x)))
    case ConflictRead(x) =>
      GoOn(if found && Terminal(mem.tickets[t].state) then Releasing(x) else Catching(Some(x)))
    case Releasing(x) =>
      GoOn(if answer.Throws? then Catching(Some(x)) else Finished)
    case Catching(m) =>
      GoOn(
        if !found || Terminal(mem.tickets[t].state) then Finished
        else ToTerminal(mem.tickets[t].phase.PromptSubmitting?, m))
    case ToTerminal(ambiguous, m) =>
      ToBegin(answer, LastResort(ambiguous, m), WritingTerminal(ambiguous), Finished, Finished)
    case _ => Wait
  }

  // One step of #execute for ticket t.
  function ExecuteStep(s: Sys, t: Id, answer: Answer): Sys
    requires t in s.runs
  {
    match ActionOf(s.mem, t, s.runs[t], answer)
    case Wait => s
    case GoOn(to) => Goto(s, t, to)
    case Offer(to) => Goto(s.(admits := s.admits + multiset{t}), t, to)
    case Take(to) => Goto(s.(accepted := s.accepted + multiset{t}), t, to)
    case Begin(tr, now, writing, conflict, refused) => BeginTransition(s, t, tr, now, writing, conflict, refused)
  }

  // Where the executor goes when its own write settles.
  function AfterCommit(pc: Pc): Pc {
    match pc
    case WritingRunning => Reloading
    case WritingReady(x) => ReloadingReady(x)
    case WritingPrompt(x) => Checkpointed(x)
    case WritingSucceeded(x) => Releasing(x)
    case WritingRejected(x) => Releasing(x)
    case WritingTerminal(_) => Finished
    case _ => pc
  }

  function AfterThrow(pc: Pc): Pc {
    match pc
    case WritingRunning => Finished
    case WritingReady(x) => Catching(Some(x))
    case WritingPrompt(x) => Catching(Some(x))
    case WritingSucceeded(x) => Catching(Some(x))
    case WritingRejected(x) => Catching(Some(x))
    case WritingTerminal(_) => Finished
    case _ => pc
  }

  predicate Writing(pc: Pc) {
    pc.WritingRunning? || pc.WritingReady? || pc.WritingPrompt? || pc.WritingSucceeded? || pc.WritingRejected?
    || pc.WritingTerminal?
  }

  // Queue a client's mutation, if the queue is free.
  function BeginClient<R>(s: Sys, m: Mutation<R>, owner: Owner): Sys {
    if s.pending.Some? || !m.Write? then s
    else s.(mem := m.next, pending := Some(Pending(s.mem, owner)))
  }

  function Commit(s: Sys): Sys
    requires s.pending.Some?
  {
    var s' := s.(disk := s.mem, pending := None);
    match s.pending.value.owner
    case Executor(t) =>
      if t !in s.runs then s'
      else Goto(s'.(commits := s.commits + multiset{t}), t, AfterCommit(s.runs[t].pc))
    case Submitter(t) => s'.(toLaunch := s.toLaunch + {t})
    case Client => s'
  }

  // The write throws, before or after its rename published the file (src/durability.ts:1040-1058),
  // and #serialize restores the records in memory either way.
  function Throw(s: Sys, landed: bool): Sys
    requires s.pending.Some?
  {
    var p := s.pending.value;
    var s' := s.(mem := p.saved, disk := if landed then s.mem else s.disk, pending := None);
    if p.owner.Executor? && p.owner.ticketId in s.runs
    then Goto(s', p.owner.ticketId, AfterThrow(s.runs[p.owner.ticketId].pc)) else s'
  }

  // The checkpoint before the prompt has been written, or is being written, and the
  // executor will still act on the ticket.
  predicate PastCheckpoint(pc: Pc) {
    pc.WritingPrompt? || pc.Checkpointed? || pc.AwaitingAdmission? || pc.ToSucceeded? || pc.WritingSucceeded?
    || pc.ToRejected? || pc.WritingRejected? || pc.ConflictRead? || pc.Catching?
    || (pc.ToTerminal? && pc.ambiguous) || (pc.WritingTerminal? && pc.ambiguous)
  }

  // The executor of t would still act on its ticket were the write in flight taken back:
  // it is past its checkpoint, and not at its last resort, whose failure it swallows.
  predicate StaysOn(s: Sys, t: Id) { t in s.runs && PastCheckpoint(s.runs[t].pc) && !s.runs[t].pc.WritingTerminal? }

  // Taking back the write in flight leaves an executor to every interrupted ticket.
  predicate Spares(s: Sys)
    requires s.pending.Some?
  {
    forall t {:trigger StaysOn(s, t)} | t in s.pending.value.saved.tickets
        && Interrupted(s.pending.value.saved.tickets[t]) ::
      StaysOn(s, t)
  }

  ghost function Stop(s: Sys): Sys {
    s.(up := false, draining := false, waiting := multiset{}, mem := s.disk, pending := None, runs := map[],
       toLaunch := {})
  }

  // `faulty` allows a write to throw that does not spare every interrupted ticket.
  ghost function Do(s: Sys, step: Step, limits: Limits, faulty: bool): Sys {
    match step
    case CreateDraft(r, id, now) =>
      if !s.up then s else BeginClient(s, Create(s.mem, r, id, now, limits), Client)
    case CancelDraftStep(d, r, now) =>
      if !s.up then s else BeginClient(s, Cancel(s.mem, d, r, now), Client)
    case CallSend(d, r) =>
      if !s.up || s.draining then s else s.(waiting := s.waiting + multiset{(d, r)})
    case Submit(d, r, id, now) =>
      if !s.up || (d, r) !in s.waiting || s.pending.Some? || id in s.used then s
      else RunSubmit(s.(waiting := s.waiting - multiset{(d, r)}), d, r, id, now, limits)
    case Launch(t) =>
      if t !in s.toLaunch then s
      else if t in s.runs then s.(toLaunch := s.toLaunch - {t})
      else s.(toLaunch := s.toLaunch - {t}, runs := s.runs[t := Run(Loading, false)])
    case Execute(t, answer) =>
      if t !in s.runs then s else ExecuteStep(s, t, answer)
    case WriteCommits =>
      if s.pending.None? || !Fits(s.mem, limits) then s else Commit(s)
    case WriteThrows(landed) =>
      if s.pending.None? || (landed && !Fits(s.mem, limits)) || (!faulty && !Spares(s)) then s else Throw(s, landed)
    case Reap(t) =>
      if t in s.runs && s.runs[t].pc.Finished? then s.(runs := s.runs - {t}) else s
    case BeginDrain =>
      if !s.up || s.draining then s
      else s.(draining := true, runs := map t | t in s.runs :: s.runs[t].(aborted := true))
    case Crash(written) =>
      if !s.up then s
      else Stop(if written && s.pending.Some? && Fits(s.mem, limits) then Commit(s) else s)
    case Restart(now, writes) =>
      if s.up then s
      else
        var found := if ReadsBack(s.disk, limits) then s.disk else EMPTY;
        var recovered := Recover(found, now, limits);
        if found == s.disk && !AnyInterrupted(found) then Start(s, recovered, found)
        else if writes && Fits(recovered, limits) then Start(s, recovered, recovered)
        else s.(mem := found, disk := found)
  }

  // The store's queue runs a send (materializer lines 116-119).
  ghost function RunSubmit(s: Sys, d: Id, r: SendRequest, id: Id, now: Time, limits: Limits): Sys {
    match SubmitSend(s.mem, d, r, id, now, limits)
    case Write(next, _) => s.(mem := next, pending := Some(Pending(s.mem, Submitter(id))), used := s.used + {id})
    case Reply(t) => if Terminal(t.state) then s else s.(toLaunch := s.toLaunch + {t.ticketId})
    case Reject(_) => s
  }

  // A recovered process launches every ticket that is safe to resume.
  ghost function Start(s: Sys, mem: Store, disk: Store): Sys {
    s.(up := true, mem := mem, disk := disk,
       runs := map t | t in mem.tickets && Recoverable(mem.tickets[t]) :: Run(Loading, false))
  }

  ghost function Runs(s: Sys, steps: seq<Step>, limits: Limits, faulty: bool): Sys
    decreases |steps|
  {
    if steps == [] then s
    else Do(Runs(s, steps[..|steps| - 1], limits, faulty), steps[|steps| - 1], limits, faulty)
  }
}
