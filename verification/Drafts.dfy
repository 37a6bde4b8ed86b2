/**
 Session drafts and their first-send tickets: the records of the draft store and
 what each of its mutations does to them (src/dashboard-session-drafts.ts:42-754).

 Each mutation is a function from the records to a Mutation: rejected (the store
 throws and #serialize restores both maps), answered without a write, or a new
 pair of maps to be written before the answer is given.
 */
module Drafts {
  import opened Wrappers

  type Id = nat        // draft ids, ticket ids and idempotency keys, as opaque tokens
  type Time = int      // milliseconds

  datatype Digest = Sha256(text: string)

  datatype DraftState = Drafting | Materializing | Live | DraftFailed | DraftIndeterminate | Cancelled

  datatype TicketState = Queued | Running | Succeeded | Failed | Indeterminate

  datatype Phase = Starting | ReadyToPrompt | PromptSubmitting

  datatype Session = Session(sessionId: Id, generation: nat)

  datatype ApiError = CancelledByUser | CancelIndeterminate | SendIndeterminate | Reported(code: Id, retryable: bool)

  datatype Materialization =
    Materialization(ticketId: Id, state: TicketState, session: Option<Session>, error: Option<ApiError>)

  datatype Draft = Draft(
    draftId: Id,
    revision: nat,
    state: DraftState,
    createdAt: Time,
    updatedAt: Time,
    spec: Id,
    materialization: Option<Materialization>,
    createKey: Id,
    createFingerprint: Digest,
    cancelled: Option<(Id, Digest)>)

  datatype Ticket = Ticket(
    ticketId: Id,
    draftId: Id,
    draftRevision: nat,
    requestId: Id,
    idempotencyKey: Id,
    state: TicketState,
    submittedAt: Time,
    updatedAt: Time,
    session: Option<Session>,
    error: Option<ApiError>,
    fingerprint: Digest,
    message: Id,
    phase: Phase,
    targetSession: Session)

  datatype Store = Store(drafts: map<Id, Draft>, tickets: map<Id, Ticket>)

  // `compact` is the length of the records' JSON as #write measures it, `printed` the length
  // of the indented JSON that it writes (src/durability.ts:1024-1026); both count the final newline.
  datatype Limits = Limits(
    maxDrafts: nat,
    maxTickets: nat,
    terminalRetention: nat,
    maxStateBytes: nat,
    compact: Store -> nat,
    printed: Store -> nat)

  // #write refuses larger records (lines 666-669).
  predicate Fits(s: Store, limits: Limits) { limits.compact(s) <= limits.maxStateBytes }

  // #load quarantines a larger file unread (lines 572-575).
  predicate ReadsBack(s: Store, limits: Limits) { limits.printed(s) <= limits.maxStateBytes }

  const EMPTY := Store(map[], map[])

  datatype Rejection =
    | IdempotencyConflict
    | DraftCapacity
    | DraftExists
    | DraftNotFound
    | RevisionConflict
    | NotCancellable
    | NotSendable
    | TicketCapacity
    | TicketNotFound
    | StateConflict
    | InvalidTransition
    | PhaseConflict
    | SessionConflict
    | StateTooLarge
    | WriteFailed

  datatype Mutation<+R> =
    | Reject(reason: Rejection)
    | Reply(answer: R)
    | Write(next: Store, answer: R)

  predicate Terminal(s: TicketState) { s.Succeeded? || s.Failed? || s.Indeterminate? }

  function PhaseRank(p: Phase): nat {
    match p
    case Starting => 0
    case ReadyToPrompt => 1
    case PromptSubmitting => 2
  }

  // The checkpoints an executor passes, in order.
  function Progress(t: Ticket): nat {
    match t.state
    case Queued => 0
    case Running => 1 + PhaseRank(t.phase)
    case _ => 4
  }

  function MaterializationOf(t: Ticket): Materialization {
    Materialization(t.ticketId, t.state, t.session, t.error)
  }

  // ---- Retention (src/dashboard-session-drafts.ts:681-699) ----------------------

  predicate ExpiredTicket(t: Ticket, threshold: Time) { Terminal(t.state) && t.updatedAt < threshold }

  predicate ExpiredDraft(d: Draft, threshold: Time) {
    (d.state.Cancelled? || d.state.Live? || d.state.DraftFailed? || d.state.DraftIndeterminate?)
    && d.updatedAt < threshold
  }

  predicate HasTicket(tickets: map<Id, Ticket>, d: Id) { exists t | t in tickets :: tickets[t].draftId == d }

  ghost function Prune(s: Store, threshold: Time): Store {
    var tickets := map t | t in s.tickets && !ExpiredTicket(s.tickets[t], threshold) :: s.tickets[t];
    Store(map d | d in s.drafts
                  && (!ExpiredDraft(s.drafts[d], threshold) || HasTicket(tickets, d))
            :: s.drafts[d],
          tickets)
  }

  // ---- Creating (lines 291-341) --------------------------------------------------

  datatype CreateRequest = CreateRequest(key: Id, draftId: Option<Id>, spec: Id, fingerprint: Digest)

  ghost function Create(s: Store, r: CreateRequest, newId: Id, now: Time, limits: Limits): Mutation<Draft> {
    if exists d :: d in s.drafts && s.drafts[d].createKey == r.key then
      var d :| d in s.drafts && s.drafts[d].createKey == r.key;
      if s.drafts[d].createFingerprint != r.fingerprint then Reject(IdempotencyConflict) else Reply(s.drafts[d])
    else
      var p := Prune(s, now - limits.terminalRetention);
      var draftId := if r.draftId.Some? then r.draftId.value else newId;
      if |p.drafts| >= limits.maxDrafts then Reject(DraftCapacity)
      else if draftId in p.drafts then Reject(DraftExists)
      else
        var d := Draft(draftId, 1, Drafting, now, now, r.spec, None, r.key, r.fingerprint, None);
        Write(p.(drafts := p.drafts[draftId := d]), d)
  }

  // ---- Cancelling (lines 350-422) ------------------------------------------------

  datatype CancelRequest = CancelRequest(key: Id, expectedRevision: nat, fingerprint: Digest)

  function CancelTicket(t: Ticket, now: Time): Ticket {
    if Terminal(t.state) then t
    else if t.state.Running? && t.phase.PromptSubmitting? then
      t.(state := Indeterminate, updatedAt := now, error := Some(CancelIndeterminate))
    else t.(state := Failed, updatedAt := now, error := Some(CancelledByUser))
  }

  function CancelDraft(d: Draft, active: Option<Ticket>, r: CancelRequest, now: Time): Draft {
    var crossed := active.Some? && active.value.state.Running? && active.value.phase.PromptSubmitting?;
    var error := if crossed then CancelIndeterminate else CancelledByUser;
    d.(revision := d.revision + 1,
       state := if crossed then DraftIndeterminate else Cancelled,
       updatedAt := now,
       materialization :=
         if active.None? then d.materialization
         else
           var t := CancelTicket(active.value, now);
           Some(Materialization(t.ticketId, t.state, t.session, Some(error))),
       cancelled := Some((r.key, r.fingerprint)))
  }

  function Cancel(s: Store, draftId: Id, r: CancelRequest, now: Time): Mutation<Draft> {
    if draftId !in s.drafts then Reject(DraftNotFound)
    else
      var d := s.drafts[draftId];
      if d.cancelled.Some? && d.cancelled.value.0 == r.key then
        if d.cancelled.value.1 != r.fingerprint then Reject(IdempotencyConflict) else Reply(d)
      else if d.revision != r.expectedRevision then Reject(RevisionConflict)
      else if !d.state.Drafting? && !d.state.Materializing? then Reject(NotCancellable)
      else
        var active :=
          if d.materialization.Some? && d.materialization.value.ticketId in s.tickets
          then Some(s.tickets[d.materialization.value.ticketId]) else None;
        var d' := CancelDraft(d, active, r, now);
        Write(Store(s.drafts[draftId := d'],
                    if active.None? then s.tickets
                    else s.tickets[d.materialization.value.ticketId := CancelTicket(active.value, now)]),
              d')
  }

  // ---- Submitting the first send (lines 424-495) ----------------------------------

  datatype SendRequest =
    SendRequest(requestId: Id, key: Id, expectedRevision: nat, message: Id, fingerprint: Digest, target: Session)

  ghost function SubmitSend(s: Store, draftId: Id, r: SendRequest, newId: Id, now: Time,
      limits: Limits): Mutation<Ticket> {
    if exists t :: t in s.tickets && s.tickets[t].draftId == draftId && s.tickets[t].idempotencyKey == r.key then
      var t :| t in s.tickets && s.tickets[t].draftId == draftId && s.tickets[t].idempotencyKey == r.key;
      if s.tickets[t].fingerprint != r.fingerprint then Reject(IdempotencyConflict) else Reply(s.tickets[t])
    else SubmitNew(s, draftId, r, newId, now, limits)
  }

  // A send under a new key (lines 450-492).
  ghost function SubmitNew(s: Store, draftId: Id, r: SendRequest, newId: Id, now: Time,
      limits: Limits): Mutation<Ticket> {
    if draftId !in s.drafts then Reject(DraftNotFound)
    else
      var d := s.drafts[draftId];
      if d.revision != r.expectedRevision then Reject(RevisionConflict)
      else if !d.state.Drafting? then Reject(NotSendable)
      else
        var p := Prune(s, now - limits.terminalRetention);
        if |p.tickets| >= limits.maxTickets then Reject(TicketCapacity)
        else
          var t := Ticket(newId, draftId, r.expectedRevision, r.requestId, r.key, Queued, now, now, None, None,
                          r.fingerprint, r.message, Starting, r.target);
          var d' := d.(revision := d.revision + 1, state := Materializing, updatedAt := now,
                       materialization := Some(Materialization(newId, Queued, None, None)));
          Write(Store(p.drafts[draftId := d'], p.tickets[newId := t]), t)
  }

  // ---- Executor transitions (lines 518-565, 1066-1111) ----------------------------

  datatype Transition = Transition(
    expected: TicketState,
    state: TicketState,
    phase: Option<Phase>,
    session: Option<Session>,
    error: Option<ApiError>)

  function ValidateTransition(tr: Transition, t: Ticket): Option<Rejection> {
    var phase := if tr.phase.Some? then tr.phase.value else t.phase;
    var session := if tr.session.Some? then tr.session else t.session;
    if tr.state.Queued? || (tr.expected.Queued? && tr.state.Succeeded?) then Some(InvalidTransition)
    else if PhaseRank(phase) < PhaseRank(t.phase) then Some(PhaseConflict)
    else if tr.expected.Running? && tr.state.Running? && tr.phase.None? then Some(InvalidTransition)
    else if tr.session.Some? && tr.session.value != t.targetSession then Some(SessionConflict)
    else if !phase.Starting? && session != Some(t.targetSession) then Some(InvalidTransition)
    else if tr.state.Succeeded? && session != Some(t.targetSession) then Some(InvalidTransition)
    else if tr.state.Failed? && tr.error.None? then Some(InvalidTransition)
    else None
  }

  function DraftStateOf(s: TicketState): DraftState {
    match s
    case Succeeded => Live
    case Failed => DraftFailed
    case Indeterminate => DraftIndeterminate
    case _ => Materializing
  }

  function Advance(t: Ticket, tr: Transition, now: Time): Ticket {
    t.(state := tr.state,
       updatedAt := now,
       phase := if tr.phase.Some? then tr.phase.value else t.phase,
       session := if tr.session.Some? then tr.session else t.session,
       error := if tr.error.Some? then tr.error else t.error)
  }

  function Mirror(d: Draft, t: Ticket, now: Time): Draft {
    d.(revision := d.revision + 1, state := DraftStateOf(t.state), updatedAt := now,
       materialization := Some(MaterializationOf(t)))
  }

  function TransitionSend(s: Store, ticketId: Id, tr: Transition, now: Time): Mutation<Ticket> {
    if ticketId !in s.tickets then Reject(TicketNotFound)
    else
      var t := s.tickets[ticketId];
      if t.state != tr.expected then Reject(StateConflict)
      else
        var invalid := ValidateTransition(tr, t);
        if invalid.Some? then Reject(invalid.value)
        else if t.draftId !in s.drafts then Reject(DraftNotFound)
        else
          var t' := Advance(t, tr, now);
          Write(Store(s.drafts[t.draftId := Mirror(s.drafts[t.draftId], t', now)], s.tickets[ticketId := t']), t')
  }

  // ---- Recovery (lines 567-630) ---------------------------------------------------

  predicate Interrupted(t: Ticket) { t.state.Running? && t.phase.PromptSubmitting? }

  function MarkTicket(t: Ticket, now: Time): Ticket {
    if Interrupted(t) then t.(state := Indeterminate, updatedAt := now, error := Some(SendIndeterminate)) else t
  }

  ghost function MarkInterrupted(s: Store, now: Time): Store {
    Store(map d | d in s.drafts ::
            if exists t :: t in s.tickets && s.tickets[t].draftId == d && Interrupted(s.tickets[t])
            then
              var t :| t in s.tickets && s.tickets[t].draftId == d && Interrupted(s.tickets[t]);
              Mirror(s.drafts[d], MarkTicket(s.tickets[t], now), now)
            else s.drafts[d],
          map t | t in s.tickets :: MarkTicket(s.tickets[t], now))
  }

  ghost predicate AnyInterrupted(s: Store) { exists t :: t in s.tickets && Interrupted(s.tickets[t]) }

  ghost function Recover(s: Store, now: Time, limits: Limits): Store {
    Prune(MarkInterrupted(s, now), now - limits.terminalRetention)
  }

  predicate Recoverable(t: Ticket) { t.state.Queued? || (t.state.Running? && !t.phase.PromptSubmitting?) }

  // ---- Coherence of drafts and tickets ----------------------------------------------

  ghost predicate TicketCoherent(s: Store, t: Id)
    requires t in s.tickets
  {
    var k := s.tickets[t];
    && k.ticketId == t
    && k.draftId in s.drafts
    && s.drafts[k.draftId].materialization == Some(MaterializationOf(k))
    && (s.drafts[k.draftId].state == DraftStateOf(k.state)
        || (k.state.Failed? && s.drafts[k.draftId].state.Cancelled?))
    && (k.session.Some? ==> k.session.value == k.targetSession)
    && (!k.phase.Starting? || k.state.Succeeded? ==> k.session.Some?)
    && (k.state.Queued? ==> k.phase.Starting?)
    && (k.state.Failed? ==> k.error.Some?)
  }

  ghost predicate DraftCoherent(s: Store, d: Id)
    requires d in s.drafts
  {
    var r := s.drafts[d];
    && r.draftId == d
    && (r.state.Drafting? ==> r.materialization.None?)
    && (r.materialization.Some? && r.materialization.value.ticketId in s.tickets
        ==> s.tickets[r.materialization.value.ticketId].draftId == d)
    && (r.state.Materializing? ==>
          && r.materialization.Some?
          && r.materialization.value.ticketId in s.tickets
          && !Terminal(s.tickets[r.materialization.value.ticketId].state))
    && (r.state.Live? || r.state.DraftFailed? || r.state.DraftIndeterminate? ==> r.materialization.Some?)
  }

  ghost predicate SameCreateKey(s: Store, c: Id, d: Id) {
    c in s.drafts && d in s.drafts && s.drafts[c].createKey == s.drafts[d].createKey
  }

  ghost predicate Coherent(s: Store) {
    && (forall t {:trigger TicketCoherent(s, t)} | t in s.tickets :: TicketCoherent(s, t))
    && (forall d {:trigger DraftCoherent(s, d)} | d in s.drafts :: DraftCoherent(s, d))
    && (forall c, d {:trigger SameCreateKey(s, c, d)} | SameCreateKey(s, c, d) :: c == d)
  }
}
