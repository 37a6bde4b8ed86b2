/**
 What the records say of an offered prompt is what the runtime answered: as long as
 nothing disturbs the executor between its checkpoint and the write of the outcome, the
 ticket ends succeeded or failed with the answer, and never indeterminate
 (src/dashboard-session-materializer.ts:204-263).
 */
module FirstSendOutcome {
  import opened Wrappers
  import opened Drafts
  import opened DraftsCoherence
  import opened FirstSend
  import opened FirstSendInvariant
  import opened FirstSendControl
  import opened FirstSendExecutor
  import opened FirstSendSafety
  import opened FirstSendWitness

  // The checkpoint is written, and the outcome is not.
  predicate Answering(pc: Pc) { InWindow(pc) || pc.WritingSucceeded? || pc.WritingRejected? }

  ghost predicate Open(s: Sys, t: Id) { t in s.runs && Answering(s.runs[t].pc) }

  // Meanwhile the draft is cancelled, the executor's own write throws, a call of the runtime
  // does, the store refuses the error that the runtime reported, or the process stops.
  ghost predicate Disturbs(s: Sys, step: Step, t: Id) {
    Open(s, t) &&
    match step
    case CancelDraftStep(d, _, _) => t in s.mem.tickets && s.mem.tickets[t].draftId == d
    case Execute(u, answer) => u == t && answer.Throws?
    case WriteThrows(_) => s.pending.Some? && s.pending.value.owner == Executor(t)
    case Crash(_) => true
    case _ => false
  }

  ghost predicate Undisturbed(steps: seq<Step>, limits: Limits, t: Id) {
    forall k | 0 <= k < |steps| :: !Disturbs(Reached([], steps, limits, k), steps[k], t)
  }

  // The runtime refuses the prompt of ticket t.
  ghost predicate IsRefusal(s: Sys, step: Step, t: Id) {
    step.Execute? && step.ticketId == t && step.answer.Refuses?
    && t in s.runs && s.runs[t].pc.AwaitingAdmission? && !s.runs[t].pc.taken
  }

  // The error that a refusal reports.
  function ErrorOf(answer: Answer): ApiError
    requires answer.Refuses?
  {
    Reported(answer.code, answer.retryable)
  }

  // The error it gave, if it did.
  ghost function RefusedWith(steps: seq<Step>, limits: Limits, t: Id): Option<ApiError>
    decreases |steps|
  {
    if steps == [] then None
    else
      var but, last := steps[..|steps| - 1], steps[|steps| - 1];
      if IsRefusal(Runs(InitialSys(), but, limits, false), last, t) then Some(ErrorOf(last.answer))
      else RefusedWith(but, limits, t)
  }

  // The record has the runtime's answer.
  predicate Answered(k: Ticket, taken: bool, refused: Option<ApiError>) {
    if taken then k.state.Succeeded? else k.state.Failed? && k.error.Some? && k.error == refused
  }

  ghost predicate AnsweredIn(v: Store, t: Id, taken: bool, refused: Option<ApiError>) {
    t in v.tickets ==> Answered(v.tickets[t], taken, refused)
  }

  // Every version waits for the outcome, or the executor is writing it.
  ghost predicate Waits(s: Sys, t: Id, refused: Option<ApiError>)
    requires t in s.runs
  {
    var pc, v := s.runs[t].pc, Settled(s);
    && t in v.tickets && Interrupted(v.tickets[t])
    && t in s.disk.tickets && s.disk.tickets[t] == v.tickets[t]
    && t in s.mem.tickets
    && (if Writing(pc) then Answered(s.mem.tickets[t], s.accepted[t] > 0, refused)
        else s.mem.tickets[t] == v.tickets[t])
    && (pc.ToRejected? ==> refused == Some(pc.reported))
  }

  // Every version that still has the ticket has the outcome, and no executor will change it.
  ghost predicate Done(s: Sys, t: Id, refused: Option<ApiError>) {
    var taken := s.accepted[t] > 0;
    && AnsweredIn(s.mem, t, taken, refused) && AnsweredIn(s.disk, t, taken, refused)
    && (s.pending.Some? ==> AnsweredIn(s.pending.value.saved, t, taken, refused))
    && (t in s.runs ==>
          s.runs[t].pc.Loading? || s.runs[t].pc.Releasing? || s.runs[t].pc.Catching? || s.runs[t].pc.Finished?)
  }

  ghost predicate Tracks(s: Sys, t: Id, refused: Option<ApiError>) {
    if Open(s, t) then Waits(s, t, refused) else s.admits[t] > 0 ==> Done(s, t, refused)
  }

  // ---- One step --------------------------------------------------------------------------

  // Somebody else's mutation leaves a live ticket as it is, and prunes an ended one at most.
  ghost predicate SparesTicket(a: Store, b: Store, t: Id) {
    && (t in b.tickets ==> t in a.tickets && b.tickets[t] == a.tickets[t])
    && (t in a.tickets && !Terminal(a.tickets[t].state) ==> t in b.tickets)
  }

  // The step changes no version but memory, by somebody else's mutation.
  ghost predicate SparesInMemory(s: Sys, n: Sys, t: Id) {
    && n.disk == s.disk && n.admits[t] == s.admits[t] && n.accepted[t] == s.accepted[t]
    && (t in s.runs <==> t in n.runs) && (t in s.runs ==> n.runs[t].pc == s.runs[t].pc)
    && (if n.pending == s.pending then n.mem == s.mem
        else s.pending.None? && n.pending.Some? && n.pending.value.saved == s.mem && SparesTicket(s.mem, n.mem, t))
  }

  lemma SparedTracks(s: Sys, n: Sys, t: Id, refused: Option<ApiError>)
    requires Inv(s) && Tracks(s, t, refused) && SparesInMemory(s, n, t)
    ensures Tracks(n, t, refused)
  {
    if Open(s, t) { assert RunFits(s, t); }
  }

  lemma CreateSpares(v: Store, r: CreateRequest, id: Id, now: Time, limits: Limits, t: Id)
    ensures Create(v, r, id, now, limits).Write? ==> SparesTicket(v, Create(v, r, id, now, limits).next, t)
  {
  }

  lemma SubmitSpares(v: Store, d: Id, r: SendRequest, id: Id, now: Time, limits: Limits, t: Id)
    requires t != id
    ensures SubmitSend(v, d, r, id, now, limits).Write? ==> SparesTicket(v, SubmitSend(v, d, r, id, now, limits).next, t)
  {
  }

  lemma CancelSpares(v: Store, d: Id, r: CancelRequest, now: Time, t: Id)
    requires Coherent(v) && (t in v.tickets && !Terminal(v.tickets[t].state) ==> v.tickets[t].draftId != d)
    ensures Cancel(v, d, r, now).Write? ==> SparesTicket(v, Cancel(v, d, r, now).next, t)
  {
    if d in v.drafts { assert DraftCoherent(v, d); }
  }

  lemma TransitionSpares(v: Store, u: Id, tr: Transition, now: Time, t: Id)
    requires t != u
    ensures TransitionSend(v, u, tr, now).Write? ==> SparesTicket(v, TransitionSend(v, u, tr, now).next, t)
  {
  }

  lemma ClientTracks(s: Sys, step: Step, limits: Limits, t: Id, refused: Option<ApiError>)
    requires Inv(s) && Tracks(s, t, refused) && !Disturbs(s, step, t)
    requires step.CreateDraft? || step.CancelDraftStep? || step.CallSend? || step.Submit?
    requires Open(s, t) || s.admits[t] > 0
    ensures Tracks(Do(s, step, limits, false), t, refused)
  {
    var n := Do(s, step, limits, false);
    hide Tracks, Inv, Do, SparesInMemory, Disturbs;
    match step {
      case CreateDraft(r, id, now) => CreateSparesIn(s, r, id, now, limits, t);
      case CancelDraftStep(d, r, now) => CancelSparesIn(s, d, r, now, limits, t, refused);
      case Submit(d, r, id, now) => IssuedIsUsed(s, t, refused); SubmitSparesIn(s, d, r, id, now, limits, t);
      case CallSend(d, r) => CallSparesIn(s, d, r, limits, t);
    }
    SparedTracks(s, n, t, refused);
  }

  lemma IssuedIsUsed(s: Sys, t: Id, refused: Option<ApiError>)
    requires Inv(s) && (Open(s, t) || s.admits[t] > 0)
    ensures t in s.used
  {
    assert CountsFit(s, t);
    if t in s.runs { assert RunFits(s, t); }
  }

  lemma CreateSparesIn(s: Sys, r: CreateRequest, id: Id, now: Time, limits: Limits, t: Id)
    ensures SparesInMemory(s, Do(s, CreateDraft(r, id, now), limits, false), t)
  {
    hide Create, SparesTicket;
    CreateSpares(s.mem, r, id, now, limits, t);
  }

  lemma CancelSparesIn(s: Sys, d: Id, r: CancelRequest, now: Time, limits: Limits, t: Id, refused: Option<ApiError>)
    requires Inv(s) && Tracks(s, t, refused) && !Disturbs(s, CancelDraftStep(d, r, now), t)
    requires Open(s, t) || s.admits[t] > 0
    ensures SparesInMemory(s, Do(s, CancelDraftStep(d, r, now), limits, false), t)
  {
    CancelLeaves(s, d, r, now, limits, t, refused);
    hide Cancel, SparesTicket, Inv, Tracks;
  }

  lemma SubmitSparesIn(s: Sys, d: Id, r: SendRequest, id: Id, now: Time, limits: Limits, t: Id)
    requires t in s.used
    ensures SparesInMemory(s, Do(s, Submit(d, r, id, now), limits, false), t)
  {
    hide SubmitSend, SparesTicket;
    if id !in s.used { SubmitSpares(s.mem, d, r, id, now, limits, t); }
  }

  lemma CallSparesIn(s: Sys, d: Id, r: SendRequest, limits: Limits, t: Id)
    ensures SparesInMemory(s, Do(s, CallSend(d, r), limits, false), t)
  {
    hide SparesTicket;
  }

  lemma CancelLeaves(s: Sys, d: Id, r: CancelRequest, now: Time, limits: Limits, t: Id, refused: Option<ApiError>)
    requires Inv(s) && Tracks(s, t, refused) && !Disturbs(s, CancelDraftStep(d, r, now), t)
    requires Open(s, t) || s.admits[t] > 0
    ensures Cancel(s.mem, d, r, now).Write? ==> SparesTicket(s.mem, Cancel(s.mem, d, r, now).next, t)
  {
    hide Cancel, SparesTicket;
    CancelSpares(s.mem, d, r, now, t);
  }

  // A step of another ticket's executor.
  lemma BegunSpares(s: Sys, u: Id, next: Store, writing: Pc, t: Id)
    requires u in s.runs && u != t && s.pending.None? && SparesTicket(s.mem, next, t)
    ensures SparesInMemory(s, Begun(s, u, next, writing), t)
  {
    hide SparesTicket;
  }

  lemma BeginSpares(s: Sys, u: Id, tr: Transition, now: Time, writing: Pc, conflict: Pc, refused: Pc, t: Id)
    requires u in s.runs && u != t
    ensures SparesInMemory(s, BeginTransition(s, u, tr, now, writing, conflict, refused), t)
  {
    var m := TransitionSend(s.mem, u, tr, now);
    TransitionSpares(s.mem, u, tr, now, t);
    hide TransitionSend, SparesTicket, BeginTransition, Begun;
    if s.pending.Some? {
      BusyQueueWaits(s, u, tr, now, writing, conflict, refused);
    } else {
      BeginGoes(s, u, tr, now, writing, conflict, refused);
      if m.Write? { hide SparesInMemory; BegunSpares(s, u, m.next, writing, t); }
    }
  }

  lemma BusyQueueWaits(s: Sys, u: Id, tr: Transition, now: Time, writing: Pc, conflict: Pc, refused: Pc)
    requires u in s.runs && s.pending.Some?
    ensures BeginTransition(s, u, tr, now, writing, conflict, refused) == s
  {
    hide TransitionSend;
  }

  lemma OthersSpare(s: Sys, u: Id, answer: Answer, t: Id)
    requires u in s.runs && u != t
    ensures SparesInMemory(s, ExecuteStep(s, u, answer), t)
  {
    hide ActionOf, BeginTransition, SparesTicket, TransitionSend;
    var a := ActionOf(s.mem, u, s.runs[u], answer);
    if a.Begin? {
      hide SparesInMemory;
      BeginSpares(s, u, a.tr, a.now, a.writing, a.conflict, a.refused, t);
    } else {
      OthersMove(s, u, answer, t);
    }
  }

  lemma OthersMove(s: Sys, u: Id, answer: Answer, t: Id)
    requires u in s.runs && u != t && !ActionOf(s.mem, u, s.runs[u], answer).Begin?
    ensures SparesInMemory(s, ExecuteStep(s, u, answer), t)
  {
    hide ActionOf, SparesTicket;
    var n := ExecuteStep(s, u, answer);
    assert n.mem == s.mem && n.disk == s.disk && n.pending == s.pending;
    assert n.admits[t] == s.admits[t] && n.accepted[t] == s.accepted[t];
  }

  lemma OthersTrack(s: Sys, u: Id, answer: Answer, t: Id, refused: Option<ApiError>)
    requires Inv(s) && Tracks(s, t, refused) && u in s.runs && u != t
    ensures Tracks(ExecuteStep(s, u, answer), t, refused)
  {
    OthersSpare(s, u, answer, t);
    hide ExecuteStep, SparesInMemory, Tracks, Inv;
    SparedTracks(s, ExecuteStep(s, u, answer), t, refused);
  }

  // The executor's own steps until it begins to write the outcome: it offers the prompt ...
  lemma OfferTracks(s: Sys, t: Id, answer: Answer, refused: Option<ApiError>)
    requires Inv(s) && Tracks(s, t, refused) && Open(s, t) && s.runs[t].pc.Checkpointed?
    ensures Tracks(ExecuteStep(s, t, answer), t, refused)
  {
    hide Inv, BeginTransition, TransitionSend;
  }

  // ... hears of it ...
  lemma AnswerTracks(s: Sys, t: Id, answer: Answer, refused: Option<ApiError>)
    requires Tracks(s, t, refused) && Open(s, t) && s.runs[t].pc.AwaitingAdmission? && !answer.Throws?
    ensures
      var now := if IsRefusal(s, Execute(t, answer), t) then Some(ErrorOf(answer)) else refused;
      Tracks(ExecuteStep(s, t, answer), t, now)
  {
    hide BeginTransition, TransitionSend, Answered;
  }

  // ... and waits for its write.
  lemma OwnMovesTrack(s: Sys, t: Id, answer: Answer, limits: Limits, refused: Option<ApiError>)
    requires Inv(s) && Tracks(s, t, refused) && Open(s, t) && !answer.Throws?
    requires !s.runs[t].pc.ToSucceeded? && !s.runs[t].pc.ToRejected?
    ensures
      var now := if IsRefusal(s, Execute(t, answer), t) then Some(ErrorOf(answer)) else refused;
      Tracks(ExecuteStep(s, t, answer), t, now)
  {
    var pc := s.runs[t].pc;
    hide Tracks, Inv;
    if pc.Checkpointed? { OfferTracks(s, t, answer, refused); }
    else if pc.AwaitingAdmission? { AnswerTracks(s, t, answer, refused); }
    else { FinishedKeeps(s, t, answer); }
  }

  // The store takes the outcome, since the ticket still waits for it.
  lemma OutcomeIsWritten(s: Sys, t: Id, now: Time, refused: Option<ApiError>)
    requires Inv(s) && Open(s, t) && Waits(s, t, refused) && s.pending.None?
    requires s.runs[t].pc.ToSucceeded? || s.runs[t].pc.ToRejected?
    ensures
      var pc := s.runs[t].pc;
      var tr := if pc.ToSucceeded? then Transition(Running, Succeeded, Some(PromptSubmitting), Some(pc.session), None)
                else Transition(Running, Failed, None, Some(pc.session), Some(pc.reported));
      var m := TransitionSend(s.mem, t, tr, now);
      m.Write? && t in m.next.tickets && Answered(m.next.tickets[t], s.accepted[t] > 0, refused)
  {
    assert RunFits(s, t);
    assert TicketCoherent(s.mem, t);
  }

  lemma WritingTracks(s: Sys, t: Id, next: Store, writing: Pc, refused: Option<ApiError>)
    requires Open(s, t) && Waits(s, t, refused) && s.pending.None?
    requires (writing.WritingSucceeded? || writing.WritingRejected?) && t in next.tickets
    requires !Writing(s.runs[t].pc) && Answered(next.tickets[t], s.accepted[t] > 0, refused)
    ensures Tracks(Begun(s, t, next, writing), t, refused)
  {
    hide Answered;
  }

  lemma OwnWriteTracks(s: Sys, t: Id, answer: Answer, refused: Option<ApiError>)
    requires Inv(s) && Tracks(s, t, refused) && Open(s, t) && !answer.Throws?
    requires s.runs[t].pc.ToSucceeded? || s.runs[t].pc.ToRejected?
    ensures Tracks(ExecuteStep(s, t, answer), t, refused)
  {
    hide Inv, TransitionSend, Waits, Done, Answered, BeginTransition;
    if s.pending.None? && answer.Proceeds? {
      OutcomeIsWritten(s, t, answer.now, refused);
      var a := ActionOf(s.mem, t, s.runs[t], answer);
      BeginGoes(s, t, a.tr, a.now, a.writing, a.conflict, a.refused);
      hide Open, Tracks;
      WritingTracks(s, t, TransitionSend(s.mem, t, a.tr, a.now).next, a.writing, refused);
    } else {
      OtherwiseWaits(s, t, answer);
    }
  }

  // An executor whose ticket has its outcome only ends.
  lemma OwnEndTracks(s: Sys, t: Id, answer: Answer, refused: Option<ApiError>)
    requires Inv(s) && Tracks(s, t, refused) && t in s.runs && !Open(s, t)
    ensures Tracks(ExecuteStep(s, t, answer), t, refused)
  {
    hide Inv, Waits, Done, ExecuteStep, Open;
    if s.admits[t] > 0 { DoneEnds(s, t, answer, refused); } else { StaysUnoffered(s, t, answer); }
  }

  lemma DoneEnds(s: Sys, t: Id, answer: Answer, refused: Option<ApiError>)
    requires t in s.runs && Done(s, t, refused)
    ensures
      var n := ExecuteStep(s, t, answer);
      Done(n, t, refused) && !Open(n, t)
  {
    hide TransitionSend, BeginTransition;
  }

  lemma StaysUnoffered(s: Sys, t: Id, answer: Answer)
    requires t in s.runs && !Open(s, t)
    ensures
      var n := ExecuteStep(s, t, answer);
      n.admits == s.admits && !Open(n, t)
  {
    hide TransitionSend;
    OnlyFromCheckpoint(s.mem, t, s.runs[t], answer);
    hide ActionOf;
  }

  // An executor before its checkpoint, or after the outcome, offers nothing.
  lemma OnlyFromCheckpoint(mem: Store, t: Id, run: Run, answer: Answer)
    requires !Answering(run.pc)
    ensures
      match ActionOf(mem, t, run, answer)
      case Offer(_) => false
      case Take(_) => false
      case GoOn(to) => !Answering(to)
      case Begin(_, _, writing, conflict, refused) => !Answering(writing) && !Answering(conflict) && !Answering(refused)
      case Wait => true
  {
  }

  lemma ExecuteTracks(s: Sys, u: Id, answer: Answer, limits: Limits, t: Id, refused: Option<ApiError>)
    requires Inv(s) && Tracks(s, t, refused) && !Disturbs(s, Execute(u, answer), t)
    ensures
      var now := if IsRefusal(s, Execute(u, answer), t) then Some(ErrorOf(answer)) else refused;
      Tracks(Do(s, Execute(u, answer), limits, false), t, now)
  {
    if u in s.runs {
      hide Inv, Tracks, ExecuteStep;
      if u != t { OthersTrack(s, u, answer, t, refused); }
      else if !Open(s, t) { OwnEndTracks(s, t, answer, refused); }
      else if s.runs[t].pc.ToSucceeded? || s.runs[t].pc.ToRejected? { OwnWriteTracks(s, t, answer, refused); }
      else { OwnMovesTrack(s, t, answer, limits, refused); }
    }
  }

  // The write of the outcome lands, or the checkpoint does, or somebody else's write.
  lemma CommitTracks(s: Sys, t: Id, refused: Option<ApiError>)
    requires Inv(s) && Tracks(s, t, refused) && s.pending.Some?
    ensures Tracks(Commit(s), t, refused)
  {
    assert CountsFit(s, t);
    if t in s.runs { assert RunFits(s, t); }
    if s.pending.value.owner == Executor(t) {
      assert t in s.pending.value.saved.tickets;
      OwnerRuns(s);
      assert InFlight(s, t);
      hide Inv;
      OwnCommitTracks(s, t, refused);
    } else {
      hide Inv, Answered;
    }
  }

  // The executor's own write: its checkpoint, the outcome, or an earlier or later one.
  lemma OwnCommitTracks(s: Sys, t: Id, refused: Option<ApiError>)
    requires Tracks(s, t, refused) && s.pending.Some? && s.pending.value.owner == Executor(t)
    requires t in s.runs && t in s.pending.value.saved.tickets && InFlight(s, t) && RunFits(s, t) && CountsFit(s, t)
    ensures Tracks(Commit(s), t, refused)
  {
    hide Answered;
  }

  lemma ThrowTracks(s: Sys, landed: bool, t: Id, refused: Option<ApiError>)
    requires Inv(s) && Tracks(s, t, refused) && s.pending.Some? && !Disturbs(s, WriteThrows(landed), t)
    ensures Tracks(Throw(s, landed), t, refused)
  {
    assert CountsFit(s, t);
    if t in s.runs { assert RunFits(s, t); }
    if s.pending.value.owner == Executor(t) { assert t in s.pending.value.saved.tickets && InFlight(s, t); }
    hide Inv;
  }

  // A stop without an open admission, and the next start.
  lemma StopTracks(s: Sys, t: Id, refused: Option<ApiError>)
    requires Tracks(s, t, refused) && (s.admits[t] == 0 || !Open(s, t))
    ensures Tracks(Stop(s), t, refused)
  {
  }

  // A start leaves ended tickets alone.
  lemma RestartLaunches(s: Sys, now: Time, writes: bool, limits: Limits, t: Id)
    requires !s.up && s.runs == map[]
    ensures
      var n := Do(s, Restart(now, writes), limits, false);
      && n.admits == s.admits && n.accepted == s.accepted
      && (t in n.runs ==> n.runs[t].pc.Loading? && t in n.mem.tickets && !Terminal(n.mem.tickets[t].state))
  {
    hide Recover, AnyInterrupted;
  }

  lemma RestartTracks(s: Sys, now: Time, writes: bool, limits: Limits, t: Id, refused: Option<ApiError>)
    requires Inv(s) && Tracks(s, t, refused) && !s.up
    ensures Tracks(Do(s, Restart(now, writes), limits, false), t, refused)
  {
    var found := Found(s, limits);
    assert s.runs == map[] && s.mem == s.disk && s.pending.None?;
    RecoveredTicket(found, now, limits, t);
    RestartGives(s, now, writes, limits);
    RestartLaunches(s, now, writes, limits, t);
    hide Inv, Recover, AnyInterrupted, Do;
  }

  // Steps that touch no record.
  lemma QuietTracks(s: Sys, step: Step, limits: Limits, t: Id, refused: Option<ApiError>)
    requires Inv(s) && Tracks(s, t, refused)
    requires step.Launch? || step.Reap? || step.BeginDrain?
    ensures Tracks(Do(s, step, limits, false), t, refused)
  {
    hide Inv, SparesTicket, Waits, Done;
    var n := Do(s, step, limits, false);
    if t in s.runs <==> t in n.runs {
      SparedTracks(s, n, t, refused);
    } else {
      ComesOrGoes(s, n, t, refused);
    }
  }

  lemma ComesOrGoes(s: Sys, n: Sys, t: Id, refused: Option<ApiError>)
    requires Tracks(s, t, refused) && !Open(s, t) && n == s.(runs := n.runs, toLaunch := n.toLaunch)
    requires t in n.runs ==> n.runs[t].pc.Loading?
    ensures Tracks(n, t, refused)
  {
  }

  lemma {:induction false} StepTracks(s: Sys, step: Step, limits: Limits, t: Id, refused: Option<ApiError>)
    requires Inv(s) && Tracks(s, t, refused) && !Disturbs(s, step, t)
    ensures
      Tracks(Do(s, step, limits, false), t, if IsRefusal(s, step, t) then Some(ErrorOf(step.answer)) else refused)
  {
    hide Inv;
    match step
    case Execute(u, answer) => ExecuteTracks(s, u, answer, limits, t, refused);
    case WriteCommits => if s.pending.Some? { CommitTracks(s, t, refused); }
    case WriteThrows(landed) => if s.pending.Some? { ThrowTracks(s, landed, t, refused); }
    case Crash(written) => CrashTracks(s, written, limits, t, refused);
    case Restart(now, writes) => if !s.up { RestartTracks(s, now, writes, limits, t, refused); }
    case Launch(_) => QuietTracks(s, step, limits, t, refused);
    case Reap(_) => QuietTracks(s, step, limits, t, refused);
    case BeginDrain => QuietTracks(s, step, limits, t, refused);
    case _ => ClientStepTracks(s, step, limits, t, refused);
  }

  lemma ClientStepTracks(s: Sys, step: Step, limits: Limits, t: Id, refused: Option<ApiError>)
    requires Inv(s) && Tracks(s, t, refused) && !Disturbs(s, step, t)
    requires step.CreateDraft? || step.CancelDraftStep? || step.CallSend? || step.Submit?
    ensures Tracks(Do(s, step, limits, false), t, refused)
  {
    hide Inv, Do;
    if Open(s, t) || s.admits[t] > 0 {
      ClientTracks(s, step, limits, t, refused);
    } else {
      ClientLeavesRuns(s, step, limits);
    }
  }

  lemma ClientLeavesRuns(s: Sys, step: Step, limits: Limits)
    requires step.CreateDraft? || step.CancelDraftStep? || step.CallSend? || step.Submit?
    ensures
      var n := Do(s, step, limits, false);
      n.runs == s.runs && n.admits == s.admits
  {
    hide Create, Cancel, RunSubmit;
    if step.Submit? {
      var d, r := step.draftId, step.sendRequest;
      RunSubmitLeavesRuns(s.(waiting := s.waiting - multiset{(d, r)}), d, r, step.newTicketId, step.now, limits);
    }
  }

  lemma RunSubmitLeavesRuns(s: Sys, d: Id, r: SendRequest, id: Id, now: Time, limits: Limits)
    ensures
      var n := RunSubmit(s, d, r, id, now, limits);
      n.runs == s.runs && n.admits == s.admits && n.up == s.up
  {
    hide SubmitSend;
  }

  lemma OfferedStaysClosed(s: Sys, t: Id, refused: Option<ApiError>)
    requires Inv(s) && Tracks(s, t, refused) && s.pending.Some? && !Open(s, t)
    ensures s.admits[t] == 0 || !Open(Commit(s), t)
  {
    hide Inv;
  }

  lemma CrashTracks(s: Sys, written: bool, limits: Limits, t: Id, refused: Option<ApiError>)
    requires Inv(s) && Tracks(s, t, refused) && !Disturbs(s, Crash(written), t)
    ensures Tracks(Do(s, Crash(written), limits, false), t, refused)
  {
    hide Inv;
    if s.up {
      if written && s.pending.Some? && Fits(s.mem, limits) {
        CommitTracks(s, t, refused);
        OfferedStaysClosed(s, t, refused);
        StopTracks(Commit(s), t, refused);
      } else {
        StopTracks(s, t, refused);
      }
    }
  }

  // ---- Over every run ------------------------------------------------------------------------

  lemma UndisturbedBefore(steps: seq<Step>, limits: Limits, t: Id)
    requires steps != [] && Undisturbed(steps, limits, t)
    ensures Undisturbed(steps[..|steps| - 1], limits, t)
    ensures !Disturbs(Runs(InitialSys(), steps[..|steps| - 1], limits, false), steps[|steps| - 1], t)
  {
    hide Disturbs, Reached, Runs, Do;
    var but := steps[..|steps| - 1];
    forall k | 0 <= k < |but| ensures !Disturbs(Reached([], but, limits, k), but[k], t) {
      ReachedBefore([], steps, limits, k);
      assert !Disturbs(Reached([], steps, limits, k), steps[k], t);
    }
    ReachedIsRun(steps, limits, |but|);
    assert !Disturbs(Reached([], steps, limits, |but|), steps[|but|], t);
  }

  lemma ReachedIsRun(steps: seq<Step>, limits: Limits, k: nat)
    requires k <= |steps|
    ensures Reached([], steps, limits, k) == Runs(InitialSys(), steps[..k], limits, false)
  {
    assert [] + steps[..k] == steps[..k];
  }

  lemma {:induction false} RunTracks(steps: seq<Step>, limits: Limits, t: Id)
    requires Undisturbed(steps, limits, t)
    ensures Tracks(Runs(InitialSys(), steps, limits, false), t, RefusedWith(steps, limits, t))
    decreases |steps|
  {
    if steps != [] {
      hide Inv, Do, Tracks, Disturbs, Undisturbed, IsRefusal;
      var but := steps[..|steps| - 1];
      UndisturbedBefore(steps, limits, t);
      RunTracks(but, limits, t);
      RunKeeps(but, limits);
      StepTracks(Runs(InitialSys(), but, limits, false), steps[|steps| - 1], limits, t, RefusedWith(but, limits, t));
    }
  }

  // A terminal record of an offered prompt.
  ghost predicate Settles(v: Store, t: Id) { t in v.tickets && Terminal(v.tickets[t].state) }

  // In every run that does not disturb the ticket while its admission is open, in memory and
  // on file: once its prompt was offered and its outcome is recorded, it succeeded if and only
  // if the runtime took the prompt, and otherwise failed with the error that the runtime
  // refused it with. It is never indeterminate.
  lemma OutcomeIsTheAnswer(steps: seq<Step>, limits: Limits, t: Id, v: Store)
    requires Undisturbed(steps, limits, t)
    requires
      var s := Runs(InitialSys(), steps, limits, false);
      (v == s.mem || v == s.disk) && s.admits[t] > 0 && Settles(v, t)
    ensures
      var s := Runs(InitialSys(), steps, limits, false);
      && (v.tickets[t].state.Succeeded? <==> s.accepted[t] == 1)
      && (v.tickets[t].state.Failed? <==> s.accepted[t] == 0)
      && (v.tickets[t].state.Failed? ==>
            v.tickets[t].error.Some? && v.tickets[t].error == RefusedWith(steps, limits, t))
  {
    var s := Runs(InitialSys(), steps, limits, false);
    RunTracks(steps, limits, t);
    RunKeeps(steps, limits);
    assert CountsFit(s, t);
    hide Inv;
  }

  // ---- A refused prompt ------------------------------------------------------------------------

  lemma IsRefused(s: Sys, t: Id, x: Session, code: Id, retryable: bool, limits: Limits) returns (n: Sys)
    requires AtPc(s, t, AwaitingAdmission(x, false))
    ensures Leads(s, n, limits, false) && n.admits == s.admits && n.accepted == s.accepted
    ensures n.mem == s.mem && AtPc(n, t, ToRejected(x, Reported(code, retryable)))
  {
    n := MoveStep(s, t, Refuses(code, retryable), AwaitingAdmission(x, false), ToRejected(x, Reported(code, retryable)),
        limits, false);
  }

  lemma Fails(s: Sys, t: Id, x: Session, e: ApiError, limits: Limits) returns (n: Sys)
    requires Room(s.mem, t, limits)
    requires AtPc(s, t, ToRejected(x, e)) && Interrupted(s.mem.tickets[t]) && x == s.mem.tickets[t].targetSession
    ensures Leads(s, n, limits, false) && n.admits == s.admits && n.accepted == s.accepted
    ensures t in n.disk.tickets && n.disk.tickets[t].state.Failed? && n.disk.tickets[t].error == Some(e)
  {
    assert TicketCoherent(s.mem, t);
    n := RoomyStep(s, t, Transition(Running, Failed, None, Some(x), Some(e)), WritingRejected(x), limits);
  }

  // Such a ticket, whose prompt the runtime refuses, fails on file with the runtime's error.
  lemma RecoverableCanBeRefused(s: Sys, t: Id, code: Id, retryable: bool, limits: Limits)
    requires Room(s.mem, t, limits)
    requires AtPc(s, t, Loading) && Recoverable(s.mem.tickets[t])
    ensures exists n :: Leads(s, n, limits, false)
              && n.admits[t] == s.admits[t] + 1 && n.accepted[t] == s.accepted[t]
              && t in n.disk.tickets && n.disk.tickets[t].state.Failed? && n.disk.tickets[t].error == Some(Reported(code, retryable))
  {
    var a := WalksAlone(s, t, limits);
    var x := a.mem.tickets[t].targetSession;
    var b := IsRefused(a, t, x, code, retryable, limits);
    var n := Fails(b, t, x, Reported(code, retryable), limits);
    LeadsOn(s, a, b, limits, false);
    LeadsOn(s, b, n, limits, false);
  }

  // ---- Errors say what happened -------------------------------------------------------------------

  // A ticket that is live or succeeded has no error, a failed one the user's cancel or the
  // runtime's, an indeterminate one a doubt.
  predicate ErrorTells(k: Ticket) {
    match k.state
    case Failed => k.error.Some? && (k.error.value.CancelledByUser? || k.error.value.Reported?)
    case Indeterminate => k.error.Some? && (k.error.value.CancelIndeterminate? || k.error.value.SendIndeterminate?)
    case _ => k.error.None?
  }

  ghost predicate ErrorsTellIn(v: Store) {
    forall t {:trigger v.tickets[t]} | t in v.tickets :: ErrorTells(v.tickets[t])
  }

  ghost predicate RefusalsReported(s: Sys) {
    forall t {:trigger s.runs[t]} | t in s.runs :: s.runs[t].pc.ToRejected? ==> s.runs[t].pc.reported.Reported?
  }

  ghost predicate ErrorsTell(s: Sys) {
    && ErrorsTellIn(s.mem) && ErrorsTellIn(s.disk) && (s.pending.Some? ==> ErrorsTellIn(s.pending.value.saved))
    && RefusalsReported(s)
  }

  lemma ClientErrors(v: Store, c: CreateRequest, d: Id, x: CancelRequest, r: SendRequest, id: Id, now: Time,
      limits: Limits)
    requires ErrorsTellIn(v)
    ensures Create(v, c, id, now, limits).Write? ==> ErrorsTellIn(Create(v, c, id, now, limits).next)
    ensures Cancel(v, d, x, now).Write? ==> ErrorsTellIn(Cancel(v, d, x, now).next)
    ensures SubmitSend(v, d, r, id, now, limits).Write? ==> ErrorsTellIn(SubmitSend(v, d, r, id, now, limits).next)
    ensures ErrorsTellIn(Recover(v, now, limits))
  {
  }

  // The transition gives its ticket an error exactly when it fails or is in doubt.
  predicate ErrorGiven(tr: Transition) {
    && (tr.expected.Queued? || tr.expected.Running?)
    && match tr.state
       case Failed => tr.error.Some? && tr.error.value.Reported?
       case Indeterminate => tr.error.Some? && tr.error.value.SendIndeterminate?
       case _ => tr.error.None?
  }

  lemma TransitionErrors(v: Store, t: Id, tr: Transition, now: Time)
    requires ErrorsTellIn(v) && ErrorGiven(tr)
    ensures TransitionSend(v, t, tr, now).Write? ==> ErrorsTellIn(TransitionSend(v, t, tr, now).next)
  {
  }

  lemma ActionErrors(mem: Store, t: Id, run: Run, answer: Answer)
    requires run.pc.ToRejected? ==> run.pc.reported.Reported?
    ensures
      match ActionOf(mem, t, run, answer)
      case Begin(tr, _, writing, conflict, refused) =>
        ErrorGiven(tr) && !writing.ToRejected? && !conflict.ToRejected? && !refused.ToRejected?
      case GoOn(to) => to.ToRejected? ==> to.reported.Reported?
      case Offer(to) => !to.ToRejected?
      case Take(to) => !to.ToRejected?
      case Wait => true
  {
  }

  lemma ExecuteErrors(s: Sys, t: Id, answer: Answer)
    requires ErrorsTell(s) && t in s.runs
    ensures ErrorsTell(ExecuteStep(s, t, answer))
  {
    var a := ActionOf(s.mem, t, s.runs[t], answer);
    ActionErrors(s.mem, t, s.runs[t], answer);
    if a.Begin? { TransitionErrors(s.mem, t, a.tr, a.now); }
    hide ActionOf, TransitionSend, ErrorsTellIn, ErrorGiven;
  }

  lemma {:induction false} StepErrors(s: Sys, step: Step, limits: Limits)
    requires ErrorsTell(s)
    ensures ErrorsTell(Do(s, step, limits, false))
  {
    hide ErrorsTellIn, ExecuteStep, Create, Cancel, SubmitSend, Recover, Spares, Fits, ReadsBack, AnyInterrupted;
    match step
    case Execute(t, answer) => if t in s.runs { ExecuteErrors(s, t, answer); }
    case CreateDraft(c, id, now) =>
      ClientErrors(s.mem, c, 0, CancelRequest(0, 0, Sha256("")), NoSend(), id, now, limits);
    case CancelDraftStep(d, x, now) => ClientErrors(s.mem, NoCreate(), d, x, NoSend(), 0, now, limits);
    case Submit(d, r, id, now) =>
      ClientErrors(s.mem, NoCreate(), d, CancelRequest(0, 0, Sha256("")), r, id, now, limits);
    case Restart(now, writes) => RestartErrors(s, now, writes, limits);
    case _ => SettleErrors(s, step, limits);
  }

  function NoSend(): SendRequest { FirstRequest() }

  function NoCreate(): CreateRequest { CreateRequest(0, None, 0, Sha256("")) }

  lemma RestartMakes(s: Sys, now: Time, writes: bool, limits: Limits)
    ensures
      var n := Do(s, Restart(now, writes), limits, false);
      var found := Found(s, limits);
      var recovered := Recover(found, now, limits);
      && n.pending == s.pending
      && (n.mem == s.mem || n.mem == found || n.mem == recovered)
      && (n.disk == s.disk || n.disk == found || n.disk == recovered)
      && forall t | t in n.runs :: n.runs[t].pc.Loading? || (t in s.runs && n.runs[t] == s.runs[t])
  {
    hide Recover, AnyInterrupted;
  }

  lemma RestartErrors(s: Sys, now: Time, writes: bool, limits: Limits)
    requires ErrorsTell(s)
    ensures ErrorsTell(Do(s, Restart(now, writes), limits, false))
  {
    var found := Found(s, limits);
    assert ErrorsTellIn(EMPTY);
    RestartMakes(s, now, writes, limits);
    hide ErrorsTellIn, Recover, Do;
    ClientErrors(found, NoCreate(), 0, CancelRequest(0, 0, Sha256("")), NoSend(), 0, now, limits);
  }

  lemma SettlingReports(pc: Pc)
    ensures AfterCommit(pc).ToRejected? ==> AfterCommit(pc) == pc
    ensures AfterThrow(pc).ToRejected? ==> AfterThrow(pc) == pc
  {
  }

  lemma CommitErrors(s: Sys)
    requires ErrorsTell(s) && s.pending.Some?
    ensures ErrorsTell(Commit(s))
  {
    var o := s.pending.value.owner;
    if o.Executor? && o.ticketId in s.runs { SettlingReports(s.runs[o.ticketId].pc); }
    hide ErrorsTellIn, AfterCommit;
  }

  lemma ThrowErrors(s: Sys, landed: bool)
    requires ErrorsTell(s) && s.pending.Some?
    ensures ErrorsTell(Throw(s, landed))
  {
    var o := s.pending.value.owner;
    if o.Executor? && o.ticketId in s.runs { SettlingReports(s.runs[o.ticketId].pc); }
    hide ErrorsTellIn, AfterThrow;
  }

  lemma QuietErrors(s: Sys, step: Step, limits: Limits)
    requires ErrorsTell(s) && (step.Launch? || step.Reap? || step.BeginDrain? || step.CallSend? || step.Crash?)
    ensures ErrorsTell(Do(s, step, limits, false))
  {
    hide ErrorsTellIn, Fits, AfterCommit;
  }

  lemma SettleErrors(s: Sys, step: Step, limits: Limits)
    requires ErrorsTell(s) && !step.Execute? && !step.Restart? && !step.CreateDraft? && !step.CancelDraftStep?
        && !step.Submit?
    ensures ErrorsTell(Do(s, step, limits, false))
  {
    hide ErrorsTell, Spares, Fits, Commit, Throw;
    if step.WriteCommits? {
      if s.pending.Some? { CommitErrors(s); }
    } else if step.WriteThrows? {
      if s.pending.Some? { ThrowErrors(s, step.landed); }
    } else {
      QuietErrors(s, step, limits);
    }
  }

  // In every run, in memory and on file: a ticket has an error if and only if it failed or is in
  // doubt, and the error says which.
  lemma {:induction false} ErrorsAlwaysTell(steps: seq<Step>, limits: Limits)
    ensures ErrorsTell(Runs(InitialSys(), steps, limits, false))
    decreases |steps|
  {
    if steps != [] {
      hide Do, ErrorsTell;
      ErrorsAlwaysTell(steps[..|steps| - 1], limits);
      StepErrors(Runs(InitialSys(), steps[..|steps| - 1], limits, false), steps[|steps| - 1], limits);
    }
  }

  // ---- A drain stops the executors that have not acquired their controller --------------------

  // The session is asked for, and the controller not acquired.
  predicate Opening(pc: Pc) {
    pc.OpeningSession? || pc.ToReady? || pc.WritingReady? || pc.ReloadingReady? || pc.Acquiring?
  }

  // Before the session is asked for or, if it was, before the controller is acquired; or
  // on the way out.
  predicate Short(pc: Pc, asked: bool) {
    pc.Loading? || pc.ToRunning? || pc.WritingRunning? || pc.Reloading? || pc.Entering? || pc.Catching?
    || pc.ToTerminal? || pc.WritingTerminal? || pc.Finished? || (asked && Opening(pc))
  }

  ghost predicate Stopped(s: Sys, t: Id, asked: bool) {
    s.up && t in s.runs && s.runs[t].aborted && Short(s.runs[t].pc, asked)
  }

  lemma AbortedActs(mem: Store, t: Id, run: Run, answer: Answer, asked: bool)
    requires run.aborted && Short(run.pc, asked)
    ensures
      match ActionOf(mem, t, run, answer)
      case Offer(_) => false
      case Take(_) => false
      case GoOn(to) => Short(to, asked)
      case Begin(_, _, writing, conflict, refused) =>
        Short(writing, asked) && Short(AfterCommit(writing), asked) && Short(conflict, asked) && Short(refused, asked)
      case Wait => true
  {
  }

  lemma StoppedStep(s: Sys, step: Step, limits: Limits, faulty: bool, t: Id, asked: bool)
    requires Stopped(s, t, asked)
    ensures
      var n := Do(s, step, limits, faulty);
      n.admits[t] == s.admits[t] && (t in n.runs ==> Stopped(n, t, asked))
  {
    hide TransitionSend, Create, Cancel, SubmitSend, RunSubmit, Recover, Spares, ActionOf, ExecuteStep, Short;
    if step.Execute? {
      if step.ticketId in s.runs { StoppedExecutes(s, step.ticketId, step.answer, t, asked); }
    } else {
      StoppedElsewhere(s, step, limits, faulty, t, asked);
    }
  }

  lemma StoppedExecutes(s: Sys, u: Id, answer: Answer, t: Id, asked: bool)
    requires Stopped(s, t, asked) && u in s.runs
    ensures
      var n := ExecuteStep(s, u, answer);
      n.admits[t] == s.admits[t] && Stopped(n, t, asked)
  {
    hide TransitionSend, BeginTransition, ActionOf, Short, AfterCommit;
    var action := ActionOf(s.mem, u, s.runs[u], answer);
    if u == t { AbortedActs(s.mem, t, s.runs[t], answer, asked); }
    if action.Begin? {
      StoppedBegins(s, u, action.tr, action.now, action.writing, action.conflict, action.refused, t, asked);
    }
  }

  lemma StoppedBegins(s: Sys, u: Id, tr: Transition, now: Time, writing: Pc, conflict: Pc, refused: Pc, t: Id,
      asked: bool)
    requires Stopped(s, t, asked) && u in s.runs
    requires u == t ==> Short(writing, asked) && Short(conflict, asked) && Short(refused, asked)
    ensures
      var n := BeginTransition(s, u, tr, now, writing, conflict, refused);
      n.admits[t] == s.admits[t] && Stopped(n, t, asked)
  {
    hide TransitionSend, Short;
  }

  lemma StoppedElsewhere(s: Sys, step: Step, limits: Limits, faulty: bool, t: Id, asked: bool)
    requires Stopped(s, t, asked) && !step.Execute?
    ensures
      var n := Do(s, step, limits, faulty);
      n.admits[t] == s.admits[t] && (t in n.runs ==> Stopped(n, t, asked))
  {
    hide TransitionSend, Create, Cancel, SubmitSend, RunSubmit, Recover, Spares, Short, ExecuteStep, Fits,
      ReadsBack;
    if step.WriteCommits? || step.WriteThrows? {
      SettlesShort(s.runs[t].pc, asked);
    } else if step.Submit? {
      SubmitRuns(s, step.draftId, step.sendRequest, step.newTicketId, step.now, limits);
    }
  }

  lemma SettlesShort(pc: Pc, asked: bool)
    requires Short(pc, asked)
    ensures Short(AfterCommit(pc), asked) && Short(AfterThrow(pc), asked)
  {
  }

  lemma SubmitRuns(s: Sys, d: Id, r: SendRequest, id: Id, now: Time, limits: Limits)
    ensures
      var n := Do(s, Submit(d, r, id, now), limits, false);
      n.runs == s.runs && n.admits == s.admits && n.up == s.up
  {
    hide RunSubmit;
    RunSubmitLeavesRuns(s.(waiting := s.waiting - multiset{(d, r)}), d, r, id, now, limits);
  }

  // An executor that a drain aborts before it has acquired the controller never offers its
  // prompt, in any continuation, for as long as it runs; and one that is aborted before it has
  // asked for its session never asks for it.
  lemma {:induction false} AbortedNeverOffers(s: Sys, more: seq<Step>, limits: Limits, faulty: bool, t: Id,
      asked: bool)
    requires Stopped(s, t, asked)
    requires forall k | 0 <= k <= |more| :: t in Runs(s, more[..k], limits, faulty).runs
    ensures
      var n := Runs(s, more, limits, faulty);
      n.admits[t] == s.admits[t] && Stopped(n, t, asked)
    decreases |more|
  {
    if more != [] {
      var but := more[..|more| - 1];
      hide Do, Stopped;
      forall k | 0 <= k <= |but| ensures t in Runs(s, but[..k], limits, faulty).runs {
        assert but[..k] == more[..k];
      }
      AbortedNeverOffers(s, but, limits, faulty, t, asked);
      assert more[..|more|] == more;
      StoppedStep(Runs(s, but, limits, faulty), more[|more| - 1], limits, faulty, t, asked);
    }
  }

  // So a drain stops every executor that has not acquired its controller when it begins.
  lemma DrainStopsExecutors(s: Sys, more: seq<Step>, limits: Limits, faulty: bool, t: Id, asked: bool)
    requires s.up && !s.draining && t in s.runs && Short(s.runs[t].pc, asked)
    requires
      var a := Do(s, BeginDrain, limits, faulty);
      forall k | 0 <= k <= |more| :: t in Runs(a, more[..k], limits, faulty).runs
    ensures
      var n := Runs(Do(s, BeginDrain, limits, faulty), more, limits, faulty);
      n.admits[t] == s.admits[t] && t in n.runs && Short(n.runs[t].pc, asked)
  {
    var a := Do(s, BeginDrain, limits, faulty);
    assert Stopped(a, t, asked) && a.admits == s.admits;
    hide Do;
    AbortedNeverOffers(a, more, limits, faulty, t, asked);
  }

  lemma DrainStep(s: Sys, step: Step, limits: Limits, faulty: bool)
    requires s.up && s.draining
    ensures
      var n := Do(s, step, limits, faulty);
      n.waiting <= s.waiting && (n.up ==> n.draining)
  {
    hide Create, Cancel, SubmitSend, ExecuteStep, Spares, Fits, Recover, AfterCommit, AfterThrow;
    if step.Execute? && step.ticketId in s.runs { ExecuteLetsNothingIn(s, step.ticketId, step.answer); }
  }

  lemma ExecuteLetsNothingIn(s: Sys, t: Id, answer: Answer)
    requires t in s.runs
    ensures
      var n := ExecuteStep(s, t, answer);
      n.waiting == s.waiting && n.draining == s.draining && n.up == s.up
  {
    hide ActionOf, TransitionSend;
  }

  // While a process drains it lets no send in: those that wait were let in before.
  lemma {:induction false} DrainLetsNothingIn(s: Sys, more: seq<Step>, limits: Limits, faulty: bool)
    requires s.up && s.draining
    requires forall k | 0 <= k < |more| :: Runs(s, more[..k], limits, faulty).up
    ensures Runs(s, more, limits, faulty).waiting <= s.waiting
    ensures Runs(s, more, limits, faulty).up ==> Runs(s, more, limits, faulty).draining
    decreases |more|
  {
    if more != [] {
      hide Do;
      var but := more[..|more| - 1];
      forall k | 0 <= k < |but| ensures Runs(s, but[..k], limits, faulty).up { assert but[..k] == more[..k]; }
      DrainLetsNothingIn(s, but, limits, faulty);
      assert more[..|but|] == but;
      DrainStep(Runs(s, but, limits, faulty), more[|more| - 1], limits, faulty);
    }
  }
}
