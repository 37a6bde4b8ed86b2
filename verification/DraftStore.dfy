/**
 The draft store as the object it is: two maps updated in place, a file, and a
 mutation queue that restores both maps when an operation throws
 (src/dashboard-session-drafts.ts:268-754).
 */
module DraftStore {
  import opened Wrappers
  import opened Drafts
  import opened DraftsCoherence
  import opened DraftEnvelope

  // ---- Pieces of #prune and #markRecoveredRunningIndeterminate ------------------------

  lemma SubmapIsNoLarger<V>(a: map<Id, V>, b: map<Id, V>)
    requires forall k | k in a :: k in b
    ensures |a| <= |b|
  {
    assert a.Keys <= b.Keys;
    assert b.Keys == a.Keys + (b.Keys - a.Keys);
  }

  // After a pass over the tickets in `done`, and no other.
  ghost predicate TicketsPruned(was: map<Id, Ticket>, done: set<Id>, threshold: Time, now: map<Id, Ticket>) {
    forall t :: t in now <==> t in was && !(t in done && ExpiredTicket(was[t], threshold))
  }

  ghost predicate OneTicketEach(s: Store) {
    forall t, u | t in s.tickets && u in s.tickets && s.tickets[t].draftId == s.tickets[u].draftId :: t == u
  }

  lemma CoherentHasOneTicketEach(s: Store)
    requires Coherent(s)
    ensures OneTicketEach(s)
  {
    forall t, u | t in s.tickets && u in s.tickets && s.tickets[t].draftId == s.tickets[u].draftId ensures t == u {
      assert TicketCoherent(s, t) && TicketCoherent(s, u);
    }
  }

  // The interrupted tickets of draft d among those visited.
  function InterruptedOf(s: Store, done: set<Id>, d: Id): set<Id> {
    set t | t in done && t in s.tickets && s.tickets[t].draftId == d && Interrupted(s.tickets[t])
  }

  // A draft mirrors one of its interrupted tickets, after one revision for each.
  ghost predicate DraftMarked(s: Store, done: set<Id>, now: Time, d: Id, r: Draft)
    requires d in s.drafts
  {
    var ts, was := InterruptedOf(s, done, d), s.drafts[d];
    if ts == {} then r == was
    else
      exists t :: t in ts && r == Mirror(was.(revision := was.revision + |ts| - 1), MarkTicket(s.tickets[t], now), now)
  }

  // The records once the tickets in `done` have been visited, in any order.
  ghost predicate Marked(s: Store, done: set<Id>, now: Time, n: Store) {
    && n.drafts.Keys == s.drafts.Keys
    && (forall d | d in s.drafts :: DraftMarked(s, done, now, d, n.drafts[d]))
    && n.tickets == map t | t in s.tickets :: if t in done then MarkTicket(s.tickets[t], now) else s.tickets[t]
  }

  ghost predicate AnyMarked(s: Store, done: set<Id>) {
    exists t :: t in done && t in s.tickets && Interrupted(s.tickets[t])
  }

  lemma MarkedNone(s: Store, now: Time)
    ensures Marked(s, {}, now, s) && !AnyMarked(s, {})
  {
    assert s.tickets == map t | t in s.tickets :: s.tickets[t];
  }

  // Where a draft has one ticket at most, the order of the visits cannot show.
  lemma MarkedAll(s: Store, now: Time, n: Store)
    requires Marked(s, s.tickets.Keys, now, n)
    ensures OneTicketEach(s) ==> n == MarkInterrupted(s, now)
    ensures AnyMarked(s, s.tickets.Keys) <==> AnyInterrupted(s)
  {
    if OneTicketEach(s) {
      var m := MarkInterrupted(s, now);
      forall d | d in s.drafts ensures n.drafts[d] == m.drafts[d] { MarkedDraft(s, now, d, n.drafts[d]); }
      assert n.drafts == m.drafts;
      assert n.tickets == m.tickets;
    }
  }

  lemma MarkedDraft(s: Store, now: Time, d: Id, r: Draft)
    requires OneTicketEach(s) && d in s.drafts && DraftMarked(s, s.tickets.Keys, now, d, r)
    ensures r == MarkInterrupted(s, now).drafts[d]
  {
    var ts := InterruptedOf(s, s.tickets.Keys, d);
    if t :| t in ts {
      assert ts == {t};
    } else {
      assert forall t | t in s.tickets && s.tickets[t].draftId == d && Interrupted(s.tickets[t]) :: t in ts;
    }
  }

  lemma MarksOneDraft(s: Store, done: set<Id>, now: Time, t: Id, r: Draft)
    requires t in s.tickets && t !in done && s.tickets[t].draftId in s.drafts && Interrupted(s.tickets[t])
    requires DraftMarked(s, done, now, s.tickets[t].draftId, r)
    ensures DraftMarked(s, done + {t}, now, s.tickets[t].draftId, Mirror(r, MarkTicket(s.tickets[t], now), now))
  {
    var d := s.tickets[t].draftId;
    assert InterruptedOf(s, done + {t}, d) == InterruptedOf(s, done, d) + {t};
  }

  lemma MarksNoOther(s: Store, done: set<Id>, now: Time, t: Id, d: Id, r: Draft)
    requires t in s.tickets && d in s.drafts && DraftMarked(s, done, now, d, r)
    requires !Interrupted(s.tickets[t]) || s.tickets[t].draftId != d
    ensures DraftMarked(s, done + {t}, now, d, r)
  {
    assert InterruptedOf(s, done + {t}, d) == InterruptedOf(s, done, d);
  }

  // What a visit to ticket t makes of the records.
  function Visited(n: Store, t: Id, now: Time): Store
    requires t in n.tickets && n.tickets[t].draftId in n.drafts
  {
    if !Interrupted(n.tickets[t]) then n
    else
      var d := n.tickets[t].draftId;
      Store(n.drafts[d := Mirror(n.drafts[d], MarkTicket(n.tickets[t], now), now)],
            n.tickets[t := MarkTicket(n.tickets[t], now)])
  }

  // A ticket not visited yet is as it was, and its draft is there.
  lemma MarkedSoFar(s: Store, done: set<Id>, now: Time, n: Store, t: Id)
    requires AllStorable(s) && Marked(s, done, now, n) && t in s.tickets && t !in done
    ensures s.tickets[t].draftId in s.drafts
    ensures t in n.tickets && n.tickets[t] == s.tickets[t] && n.tickets[t].draftId in n.drafts
  {
    assert TicketStorable(s, t);
  }

  lemma AnyOneMore(s: Store, done: set<Id>, t: Id)
    requires t in s.tickets
    ensures AnyMarked(s, done + {t}) <==> AnyMarked(s, done) || Interrupted(s.tickets[t])
  {
    assert t in done + {t};
    if AnyMarked(s, done) {
      var u :| u in done && u in s.tickets && Interrupted(s.tickets[u]);
      assert u in done + {t};
    }
  }

  lemma MarksDraft(s: Store, done: set<Id>, now: Time, n: Store, t: Id, d: Id)
    requires Marked(s, done, now, n) && t in s.tickets && t !in done && s.tickets[t].draftId in s.drafts
        && d in s.drafts
    ensures DraftMarked(s, done + {t}, now, d, Visited(n, t, now).drafts[d])
  {
    assert DraftMarked(s, done, now, d, n.drafts[d]) && n.tickets[t] == s.tickets[t];
    hide Marked, DraftMarked;
    if Interrupted(s.tickets[t]) && s.tickets[t].draftId == d {
      MarksOneDraft(s, done, now, t, n.drafts[d]);
    } else {
      MarksNoOther(s, done, now, t, d, n.drafts[d]);
    }
  }

  lemma MarksOne(s: Store, done: set<Id>, now: Time, n: Store, t: Id)
    requires Marked(s, done, now, n) && t in s.tickets && t !in done && s.tickets[t].draftId in s.drafts
    ensures Marked(s, done + {t}, now, Visited(n, t, now))
  {
    var m := Visited(n, t, now);
    forall d | d in s.drafts ensures DraftMarked(s, done + {t}, now, d, m.drafts[d]) {
      MarksDraft(s, done, now, n, t, d);
    }
    hide DraftMarked;
    assert m.tickets == map u | u in s.tickets :: if u in done + {t} then MarkTicket(s.tickets[u], now)
        else s.tickets[u];
  }

  lemma NextKey(keys: set<Id>, rest: set<Id>, k: Id)
    requires rest <= keys && k in rest
    ensures keys - rest + {k} == keys - (rest - {k}) && rest - {k} <= keys && |rest - {k}| < |rest|
  {
  }

  // ---- Capacity, and what every mutation leaves writable ------------------------------

  lemma PruneShrinks(s: Store, threshold: Time)
    ensures |Prune(s, threshold).drafts| <= |s.drafts| && |Prune(s, threshold).tickets| <= |s.tickets|
  {
    SubmapIsNoLarger(Prune(s, threshold).drafts, s.drafts);
    SubmapIsNoLarger(Prune(s, threshold).tickets, s.tickets);
  }

  lemma PruneStaysStorable(s: Store, threshold: Time, limits: Limits)
    requires Storable(s, limits)
    ensures Storable(Prune(s, threshold), limits)
  {
    var p := Prune(s, threshold);
    PruneShrinks(s, threshold);
    forall d | d in p.drafts ensures DraftStorable(p, d) { assert DraftStorable(s, d); }
    forall t | t in p.tickets ensures TicketStorable(p, t) { assert TicketStorable(s, t); }
  }

  lemma MarkStaysStorable(s: Store, now: Time, limits: Limits, n: Store)
    requires Storable(s, limits) && Marked(s, s.tickets.Keys, now, n)
    ensures Storable(n, limits)
  {
    assert |n.drafts| == |s.drafts| by { assert |n.drafts.Keys| == |s.drafts.Keys|; }
    assert |n.tickets| == |s.tickets| by { assert n.tickets.Keys == s.tickets.Keys; }
    forall d | d in n.drafts ensures DraftStorable(n, d) {
      assert DraftStorable(s, d) && DraftMarked(s, s.tickets.Keys, now, d, n.drafts[d]);
    }
    forall t | t in n.tickets ensures TicketStorable(n, t) { assert TicketStorable(s, t); }
  }

  // What loading makes of the restored records, whatever the order of the visits.
  ghost predicate Recovered(s: Store, now: Time, limits: Limits, r: Store) {
    exists n :: Marked(s, s.tickets.Keys, now, n) && r == Prune(n, now - limits.terminalRetention)
  }

  lemma RecoveredStaysStorable(s: Store, now: Time, limits: Limits, r: Store)
    requires Storable(s, limits) && Recovered(s, now, limits, r)
    ensures Storable(r, limits)
    ensures OneTicketEach(s) ==> r == Recover(s, now, limits)
  {
    hide Storable, Prune, MarkInterrupted, Marked;
    var n :| Marked(s, s.tickets.Keys, now, n) && r == Prune(n, now - limits.terminalRetention);
    MarkedAll(s, now, n);
    MarkStaysStorable(s, now, limits, n);
    PruneStaysStorable(n, now - limits.terminalRetention, limits);
  }

  // A second start at the same time, from what the first one wrote, finds exactly that and
  // has nothing to write.
  lemma StartsTheSame(s: Store, now: Time, limits: Limits, file: StateFile)
    requires Coherent(s) && Storable(s, limits)
    requires Holds(file, Recover(s, now, limits), limits) && ReadsBack(Recover(s, now, limits), limits)
    ensures
      var r := Recover(s, now, limits);
      Restored(file, limits) == (r, true) && !AnyInterrupted(r) && Recover(r, now, limits) == r
  {
    CoherentHasOneTicketEach(s);
    MarkedIsStorable(s, now, limits);
    RecoverTwice(s, now, limits);
    RestoresWhatWasWritten(file, Recover(s, now, limits), limits);
  }

  lemma MarkedSizes(s: Store, now: Time)
    ensures |MarkInterrupted(s, now).drafts| == |s.drafts| && |MarkInterrupted(s, now).tickets| == |s.tickets|
  {
    var m := MarkInterrupted(s, now);
    assert m.drafts.Keys == s.drafts.Keys && m.tickets.Keys == s.tickets.Keys;
    assert |m.drafts.Keys| == |s.drafts.Keys| && |m.tickets.Keys| == |s.tickets.Keys|;
  }

  lemma MarkedIsStorable(s: Store, now: Time, limits: Limits)
    requires Coherent(s) && Storable(s, limits)
    ensures Storable(Recover(s, now, limits), limits)
  {
    hide MarkInterrupted, Coherent, Prune, AllStorable;
    var m := MarkInterrupted(s, now);
    MarkKeeps(s, now);
    CoherentIsStorable(m);
    MarkedSizes(s, now);
    PruneStaysStorable(m, now - limits.terminalRetention, limits);
  }

  lemma CreateStaysValid(s: Store, r: CreateRequest, newId: Id, now: Time, limits: Limits)
    requires Coherent(s) && Storable(s, limits)
    ensures
      var m := Create(s, r, newId, now, limits);
      m.Write? ==> Coherent(m.next) && Storable(m.next, limits)
  {
    hide Coherent, Prune, AllStorable;
    var m := Create(s, r, newId, now, limits);
    if m.Write? {
      CreateKeeps(s, r, newId, now, limits);
      CoherentIsStorable(m.next);
      PruneShrinks(s, now - limits.terminalRetention);
    }
  }

  lemma CancelStaysValid(s: Store, d: Id, r: CancelRequest, now: Time, limits: Limits)
    requires Coherent(s) && Storable(s, limits)
    ensures
      var m := Cancel(s, d, r, now);
      m.Write? ==> Coherent(m.next) && Storable(m.next, limits)
  {
    var m := Cancel(s, d, r, now);
    if m.Write? {
      CancelKeeps(s, d, r, now);
      CoherentIsStorable(m.next);
    }
  }

  lemma SubmitCounts(s: Store, d: Id, r: SendRequest, newId: Id, now: Time, limits: Limits)
    requires SubmitNew(s, d, r, newId, now, limits).Write?
    ensures
      var p := Prune(s, now - limits.terminalRetention);
      var n := SubmitNew(s, d, r, newId, now, limits).next;
      |n.drafts| == |p.drafts| && |n.tickets| <= |p.tickets| + 1 && |p.tickets| < limits.maxTickets
  {
    var p := Prune(s, now - limits.terminalRetention);
    assert d in p.drafts;
    hide Prune;
  }

  lemma SubmitStaysValid(s: Store, d: Id, r: SendRequest, newId: Id, now: Time, limits: Limits)
    requires Coherent(s) && Storable(s, limits) && FreshTicketId(s, newId)
    ensures
      var m := SubmitSend(s, d, r, newId, now, limits);
      m.Write? ==> Coherent(m.next) && Storable(m.next, limits)
  {
    hide Coherent, AllStorable, FreshTicketId, SubmitNew, Prune;
    var m := SubmitSend(s, d, r, newId, now, limits);
    if m.Write? {
      assert m == SubmitNew(s, d, r, newId, now, limits);
      hide SubmitSend;
      SubmitKeeps(s, d, r, newId, now, limits);
      CoherentIsStorable(m.next);
      SubmitCounts(s, d, r, newId, now, limits);
      PruneShrinks(s, now - limits.terminalRetention);
    }
  }

  lemma TransitionStaysValid(s: Store, t: Id, tr: Transition, now: Time, limits: Limits)
    requires Coherent(s) && Storable(s, limits) && (tr.expected.Queued? || tr.expected.Running?)
    ensures
      var m := TransitionSend(s, t, tr, now);
      m.Write? ==> Coherent(m.next) && Storable(m.next, limits)
  {
    var m := TransitionSend(s, t, tr, now);
    if m.Write? {
      TransitionKeeps(s, t, tr, now);
      CoherentIsStorable(m.next);
    }
  }

  // How a write ends: a throw may come before or after the rename that publishes the file
  // (src/durability.ts:1040-1058).
  datatype Ending = Publishes | ThrowsBefore | ThrowsAfter

  // What the write of `next` throws: records over the limit are refused before anything else.
  function Thrown(next: Store, ending: Ending, limits: Limits): Option<Rejection> {
    if !Fits(next, limits) then Some(StateTooLarge) else if ending.Publishes? then None else Some(WriteFailed)
  }

  // What it leaves of the file.
  ghost predicate Filed(next: Store, ending: Ending, limits: Limits, was: StateFile, file: StateFile) {
    if !Fits(next, limits) || ending.ThrowsBefore? then file == was else Holds(file, next, limits)
  }

  class FileDashboardSessionDraftStore {
    const limits: Limits
    var drafts: map<Id, Draft>
    var tickets: map<Id, Ticket>
    var file: StateFile

    ghost function Records(): Store
      reads this
    {
      Store(drafts, tickets)
    }

    // Between operations.
    ghost predicate Valid()
      reads this
    {
      Storable(Records(), limits) && Coherent(Records())
    }

    constructor (limits: Limits, file: StateFile)
      ensures this.limits == limits && this.file == file && Records() == Store(map[], map[])
    {
      this.limits := limits;
      this.file := file;
      drafts := map[];
      tickets := map[];
    }

    // Replace the file by one that lists every record, unless their compact text is over the
    // limit; and perhaps throw before or after.
    method WriteState(ending: Ending) returns (thrown: Option<Rejection>)
      requires AllStorable(Records())
      modifies this`file
      ensures thrown == Thrown(Records(), ending, limits)
      ensures Filed(Records(), ending, limits, old(file), file)
    {
      var ds := ListDrafts();
      var ts := ListTickets();
      var records := Store(drafts, tickets);
      if limits.compact(records) > limits.maxStateBytes { return Some(StateTooLarge); }
      if !ending.ThrowsBefore? { file := Readable(limits.printed(records), Envelope(ds, ts)); }
      thrown := if ending.Publishes? then None else Some(WriteFailed);
    }

    method ListDrafts() returns (es: seq<Option<Draft>>)
      requires AllStorable(Records())
      ensures ListsDrafts(es, drafts)
    {
      es := [];
      var rest := drafts.Keys;
      while rest != {}
        invariant rest <= drafts.Keys && |es| == |drafts| - |rest|
        invariant forall i | 0 <= i < |es| ::
                    es[i].Some? && es[i].value.draftId in drafts && es[i].value.draftId !in rest
                    && drafts[es[i].value.draftId] == es[i].value
        invariant forall i, j | 0 <= i < j < |es| :: es[i].Some? && es[j].Some? ==>
            es[i].value.draftId != es[j].value.draftId
        decreases |rest|
      {
        var d :| d in rest;
        assert DraftStorable(Records(), d);
        rest := rest - {d};
        es := es + [Some(drafts[d])];
      }
    }

    method ListTickets() returns (es: seq<Option<Ticket>>)
      requires AllStorable(Records())
      ensures ListsTickets(es, tickets)
    {
      es := [];
      var rest := tickets.Keys;
      while rest != {}
        invariant rest <= tickets.Keys && |es| == |tickets| - |rest|
        invariant forall i | 0 <= i < |es| ::
                    es[i].Some? && es[i].value.ticketId in tickets && es[i].value.ticketId !in rest
                    && tickets[es[i].value.ticketId] == es[i].value
        invariant forall i, j | 0 <= i < j < |es| :: es[i].Some? && es[j].Some? ==>
            es[i].value.ticketId != es[j].value.ticketId
        decreases |rest|
      {
        var t :| t in rest;
        assert TicketStorable(Records(), t);
        rest := rest - {t};
        es := es + [Some(tickets[t])];
      }
    }

    // #prune: first the expired tickets, then the expired drafts without a ticket.
    method PruneRecords(now: Time)
      modifies this`drafts, this`tickets
      ensures Records() == Prune(old(Records()), now - limits.terminalRetention)
    {
      var threshold := now - limits.terminalRetention;
      PruneTickets(threshold);
      PruneDrafts(threshold);
      assert Records().drafts == Prune(old(Records()), threshold).drafts;
    }

    method PruneTickets(threshold: Time)
      modifies this`tickets
      ensures tickets == Prune(old(Records()), threshold).tickets
    {
      var rest := tickets.Keys;
      ghost var was := tickets;
      while rest != {}
        invariant rest <= was.Keys
        invariant forall t | t in tickets :: t in was && tickets[t] == was[t]
        invariant TicketsPruned(was, was.Keys - rest, threshold, tickets)
        decreases |rest|
      {
        var t :| t in rest;
        rest := rest - {t};
        if ExpiredTicket(tickets[t], threshold) { tickets := tickets - {t}; }
      }
    }

    method PruneDrafts(threshold: Time)
      modifies this`drafts
      ensures drafts == map d | d in old(drafts)
                        && (!ExpiredDraft(old(drafts)[d], threshold) || HasTicket(tickets, d))
                        :: old(drafts)[d]
    {
      var rest := drafts.Keys;
      ghost var was := drafts;
      while rest != {}
        invariant rest <= was.Keys
        invariant forall d | d in drafts :: d in was && drafts[d] == was[d]
        invariant forall d | d in was :: d in drafts <==>
                    d in rest || !ExpiredDraft(was[d], threshold) || HasTicket(tickets, d)
        decreases |rest|
      {
        var d :| d in rest;
        rest := rest - {d};
        if ExpiredDraft(drafts[d], threshold) && !HasTicket(tickets, d) {
          drafts := drafts - {d};
        }
      }
    }

    method MarkOne(t: Id, now: Time) returns (interrupted: bool)
      requires t in tickets && tickets[t].draftId in drafts
      modifies this`drafts, this`tickets
      ensures Records() == Visited(old(Records()), t, now) && interrupted == Interrupted(old(tickets)[t])
    {
      interrupted := Interrupted(tickets[t]);
      if interrupted {
        var d := tickets[t].draftId;
        tickets := tickets[t := MarkTicket(tickets[t], now)];
        drafts := drafts[d := Mirror(drafts[d], tickets[t], now)];
      }
    }

    // Tickets that were submitting their prompt when the process stopped.
    method MarkRecovered(now: Time) returns (changed: bool)
      requires AllStorable(Records())
      modifies this`drafts, this`tickets
      ensures Marked(old(Records()), old(tickets).Keys, now, Records())
      ensures OneTicketEach(old(Records())) ==> Records() == MarkInterrupted(old(Records()), now)
      ensures changed <==> AnyInterrupted(old(Records()))
    {
      changed := false;
      var rest := tickets.Keys;
      ghost var was, done: set<Id> := Records(), {};
      MarkedNone(was, now);
      hide Marked;
      while rest != {}
        invariant rest <= was.tickets.Keys && done == was.tickets.Keys - rest
        invariant Marked(was, done, now, Records())
        invariant changed <==> AnyMarked(was, done)
        decreases |rest|
      {
        var t :| t in rest;
        MarkedSoFar(was, done, now, Records(), t);
        MarksOne(was, done, now, Records(), t);
        var interrupted := MarkOne(t, now);
        AnyOneMore(was, done, t);
        changed := changed || interrupted;
        NextKey(was.tickets.Keys, rest, t);
        rest, done := rest - {t}, done + {t};
      }
      assert done == was.tickets.Keys;
      MarkedAll(was, now, Records());
    }

    // ---- Operations: answered, rejected, or written (#serialize, lines 732-753) ----------

    // What the caller and the file see of mutation `m`.
    ghost predicate Answers<R(!new)>(m: Mutation<R>, wasFile: StateFile, ending: Ending, result: Result<R, Rejection>)
      reads this
    {
      match m
      case Reject(e) => result == Err(e) && file == wasFile
      case Reply(a) => result == Ok(a) && file == wasFile
      case Write(next, a) =>
        && (match Thrown(next, ending, limits)
            case None => result == Ok(a)
            case Some(e) => result == Err(e))
        && Filed(next, ending, limits, wasFile, file)
    }

    ghost function Left<R(!new)>(m: Mutation<R>, was: Store, ending: Ending): Store {
      if m.Write? && Thrown(m.next, ending, limits).None? then m.next else was
    }

    method FindByCreateKey(key: Id) returns (found: Option<Id>)
      requires Coherent(Records())
      ensures found.None? ==> forall d | d in drafts :: drafts[d].createKey != key
      ensures found.Some? ==> found.value in drafts && drafts[found.value].createKey == key
      ensures found.Some? ==> forall d | d in drafts && drafts[d].createKey == key :: d == found.value
    {
      found := None;
      var rest := drafts.Keys;
      while rest != {} && found.None?
        invariant rest <= drafts.Keys
        invariant found.None? ==> forall d | d in drafts && d !in rest :: drafts[d].createKey != key
        invariant found.Some? ==> found.value in drafts && drafts[found.value].createKey == key
        decreases |rest|
      {
        var d :| d in rest;
        rest := rest - {d};
        if drafts[d].createKey == key { found := Some(d); }
      }
      if found.Some? {
        forall d | d in drafts && drafts[d].createKey == key ensures d == found.value {
          assert SameCreateKey(Records(), d, found.value);
        }
      }
    }

    method CreateBody(r: CreateRequest, newId: Id, now: Time, ending: Ending) returns (result: Result<Draft, Rejection>)
      requires Valid()
      modifies this`drafts, this`tickets, this`file
      ensures Answers(Create(old(Records()), r, newId, now, limits), old(file), ending, result)
      ensures result.Ok? ==> Records() == Left(Create(old(Records()), r, newId, now, limits), old(Records()), Publishes)
    {
      var found := FindByCreateKey(r.key);
      if found.Some? {
        var d := drafts[found.value];
        return if d.createFingerprint != r.fingerprint then Err(IdempotencyConflict) else Ok(d);
      }
      PruneRecords(now);
      var draftId := if r.draftId.Some? then r.draftId.value else newId;
      if |drafts| >= limits.maxDrafts { return Err(DraftCapacity); }
      if draftId in drafts { return Err(DraftExists); }
      var d := Draft(draftId, 1, Drafting, now, now, r.spec, None, r.key, r.fingerprint, None);
      drafts := drafts[draftId := d];
      CreateKeeps(old(Records()), r, newId, now, limits);
      CoherentIsStorable(Records());
      var thrown := WriteState(ending);
      result := if thrown.None? then Ok(d) else Err(thrown.value);
    }

    method CreateDraft(r: CreateRequest, newId: Id, now: Time, ending: Ending)
      returns (result: Result<Draft, Rejection>)
      requires Valid()
      modifies this`drafts, this`tickets, this`file
      ensures Valid()
      ensures Answers(Create(old(Records()), r, newId, now, limits), old(file), ending, result)
      ensures Records() == Left(Create(old(Records()), r, newId, now, limits), old(Records()), ending)
    {
      var savedDrafts, savedTickets := drafts, tickets;
      result := CreateBody(r, newId, now, ending);
      if result.Err? { drafts, tickets := savedDrafts, savedTickets; }
      CreateStaysValid(old(Records()), r, newId, now, limits);
    }

    method CancelBody(draftId: Id, r: CancelRequest, now: Time, ending: Ending)
      returns (result: Result<Draft, Rejection>)
      requires Valid()
      modifies this`drafts, this`tickets, this`file
      ensures Answers(Cancel(old(Records()), draftId, r, now), old(file), ending, result)
      ensures result.Ok? ==> Records() == Left(Cancel(old(Records()), draftId, r, now), old(Records()), Publishes)
    {
      if draftId !in drafts { return Err(DraftNotFound); }
      var d := drafts[draftId];
      if d.cancelled.Some? && d.cancelled.value.0 == r.key {
        return if d.cancelled.value.1 != r.fingerprint then Err(IdempotencyConflict) else Ok(d);
      }
      if d.revision != r.expectedRevision { return Err(RevisionConflict); }
      if !d.state.Drafting? && !d.state.Materializing? { return Err(NotCancellable); }
      var active: Option<Ticket> := None;
      if d.materialization.Some? && d.materialization.value.ticketId in tickets {
        active := Some(tickets[d.materialization.value.ticketId]);
        tickets := tickets[d.materialization.value.ticketId := CancelTicket(active.value, now)];
      }
      var d' := CancelDraft(d, active, r, now);
      drafts := drafts[draftId := d'];
      CancelKeeps(old(Records()), draftId, r, now);
      CoherentIsStorable(Records());
      var thrown := WriteState(ending);
      result := if thrown.None? then Ok(d') else Err(thrown.value);
    }

    method CancelOne(draftId: Id, r: CancelRequest, now: Time, ending: Ending)
      returns (result: Result<Draft, Rejection>)
      requires Valid()
      modifies this`drafts, this`tickets, this`file
      ensures Valid()
      ensures Answers(Cancel(old(Records()), draftId, r, now), old(file), ending, result)
      ensures Records() == Left(Cancel(old(Records()), draftId, r, now), old(Records()), ending)
    {
      var savedDrafts, savedTickets := drafts, tickets;
      result := CancelBody(draftId, r, now, ending);
      if result.Err? { drafts, tickets := savedDrafts, savedTickets; }
      CancelStaysValid(old(Records()), draftId, r, now, limits);
    }

    method FindSend(draftId: Id, key: Id) returns (found: Option<Id>)
      requires OneTicketEach(Records())
      ensures found.None? ==> forall t | t in tickets ::
          !(tickets[t].draftId == draftId && tickets[t].idempotencyKey == key)
      ensures found.Some? ==>
                found.value in tickets && tickets[found.value].draftId == draftId
                    && tickets[found.value].idempotencyKey == key
    {
      found := None;
      var rest := tickets.Keys;
      while rest != {} && found.None?
        invariant rest <= tickets.Keys
        invariant found.None? ==> forall t | t in tickets && t !in rest ::
                    !(tickets[t].draftId == draftId && tickets[t].idempotencyKey == key)
        invariant found.Some? ==>
                found.value in tickets && tickets[found.value].draftId == draftId
                    && tickets[found.value].idempotencyKey == key
        decreases |rest|
      {
        var t :| t in rest;
        rest := rest - {t};
        if tickets[t].draftId == draftId && tickets[t].idempotencyKey == key { found := Some(t); }
      }
    }

    method SubmitBody(draftId: Id, r: SendRequest, newId: Id, now: Time, ending: Ending)
      returns (result: Result<Ticket, Rejection>)
      requires Valid() && FreshTicketId(Records(), newId)
      modifies this`drafts, this`tickets, this`file
      ensures Answers(SubmitSend(old(Records()), draftId, r, newId, now, limits), old(file), ending, result)
      ensures result.Ok? ==>
                Records() == Left(SubmitSend(old(Records()), draftId, r, newId, now, limits), old(Records()), Publishes)
    {
      CoherentHasOneTicketEach(Records());
      hide Coherent, AllStorable, FreshTicketId, SubmitNew;
      var found := FindSend(draftId, r.key);
      if found.Some? {
        var t := tickets[found.value];
        return if t.fingerprint != r.fingerprint then Err(IdempotencyConflict) else Ok(t);
      }
      assert SubmitSend(Records(), draftId, r, newId, now, limits)
          == SubmitNew(Records(), draftId, r, newId, now, limits);
      hide SubmitSend;
      result := SubmitFresh(draftId, r, newId, now, ending);
    }

    // A send under a new key (lines 450-492).
    method SubmitFresh(draftId: Id, r: SendRequest, newId: Id, now: Time, ending: Ending)
      returns (result: Result<Ticket, Rejection>)
      requires Valid() && FreshTicketId(Records(), newId)
      modifies this`drafts, this`tickets, this`file
      ensures Answers(SubmitNew(old(Records()), draftId, r, newId, now, limits), old(file), ending, result)
      ensures result.Ok? ==>
                Records() == Left(SubmitNew(old(Records()), draftId, r, newId, now, limits), old(Records()), Publishes)
    {
      hide Coherent, AllStorable, FreshTicketId, Prune;
      if draftId !in drafts { return Err(DraftNotFound); }
      var d := drafts[draftId];
      if d.revision != r.expectedRevision { return Err(RevisionConflict); }
      if !d.state.Drafting? { return Err(NotSendable); }
      PruneRecords(now);
      if |tickets| >= limits.maxTickets { return Err(TicketCapacity); }
      var t := Ticket(newId, draftId, r.expectedRevision, r.requestId, r.key, Queued, now, now, None, None,
                      r.fingerprint, r.message, Starting, r.target);
      tickets := tickets[newId := t];
      drafts := drafts[draftId := d.(revision := d.revision + 1, state := Materializing, updatedAt := now,
                                     materialization := Some(Materialization(newId, Queued, None, None)))];
      SubmitNewKeeps(old(Records()), draftId, r, newId, now, limits);
      CoherentIsStorable(Records());
      var thrown := WriteState(ending);
      result := if thrown.None? then Ok(t) else Err(thrown.value);
    }

    method SubmitOne(draftId: Id, r: SendRequest, newId: Id, now: Time, ending: Ending)
      returns (result: Result<Ticket, Rejection>)
      requires Valid() && FreshTicketId(Records(), newId)
      modifies this`drafts, this`tickets, this`file
      ensures Valid()
      ensures Answers(SubmitSend(old(Records()), draftId, r, newId, now, limits), old(file), ending, result)
      ensures Records() == Left(SubmitSend(old(Records()), draftId, r, newId, now, limits), old(Records()), ending)
    {
      var savedDrafts, savedTickets := drafts, tickets;
      result := SubmitBody(draftId, r, newId, now, ending);
      if result.Err? { drafts, tickets := savedDrafts, savedTickets; }
      SubmitStaysValid(old(Records()), draftId, r, newId, now, limits);
    }

    method TransitionBody(ticketId: Id, tr: Transition, now: Time, ending: Ending)
      returns (result: Result<Ticket, Rejection>)
      requires Valid() && (tr.expected.Queued? || tr.expected.Running?)
      modifies this`drafts, this`tickets, this`file
      ensures Answers(TransitionSend(old(Records()), ticketId, tr, now), old(file), ending, result)
      ensures result.Ok? ==>
                Records() == Left(TransitionSend(old(Records()), ticketId, tr, now), old(Records()), Publishes)
    {
      if ticketId !in tickets { return Err(TicketNotFound); }
      var t := tickets[ticketId];
      if t.state != tr.expected { return Err(StateConflict); }
      var invalid := ValidateTransition(tr, t);
      if invalid.Some? { return Err(invalid.value); }
      if t.draftId !in drafts { return Err(DraftNotFound); }
      var t' := Advance(t, tr, now);
      tickets := tickets[ticketId := t'];
      drafts := drafts[t.draftId := Mirror(drafts[t.draftId], t', now)];
      TransitionKeeps(old(Records()), ticketId, tr, now);
      CoherentIsStorable(Records());
      var thrown := WriteState(ending);
      result := if thrown.None? then Ok(t') else Err(thrown.value);
    }

    method TransitionOne(ticketId: Id, tr: Transition, now: Time, ending: Ending)
      returns (result: Result<Ticket, Rejection>)
      requires Valid() && (tr.expected.Queued? || tr.expected.Running?)
      modifies this`drafts, this`tickets, this`file
      ensures Valid()
      ensures Answers(TransitionSend(old(Records()), ticketId, tr, now), old(file), ending, result)
      ensures Records() == Left(TransitionSend(old(Records()), ticketId, tr, now), old(Records()), ending)
    {
      var savedDrafts, savedTickets := drafts, tickets;
      result := TransitionBody(ticketId, tr, now, ending);
      if result.Err? { drafts, tickets := savedDrafts, savedTickets; }
      TransitionStaysValid(old(Records()), ticketId, tr, now, limits);
    }

    // ---- Loading (lines 567-658) ------------------------------------------------------------

    // #load up to the end of #restore: measures the file, then reads until the envelope ends or
    // a record is refused.
    method Restore() returns (ok: bool)
      requires Records() == Store(map[], map[])
      modifies this`drafts, this`tickets
      ensures (Records(), ok) == Restored(file, limits)
    {
      if file.Absent? { return true; }
      if file.size > limits.maxStateBytes { return false; }
      if file.Unreadable? { return false; }
      var e := file.envelope;
      if |e.drafts| > limits.maxDrafts || |e.tickets| > limits.maxTickets { return false; }
      var i := 0;
      while i < |e.drafts|
        invariant 0 <= i <= |e.drafts| && tickets == map[]
        invariant TakeDrafts(e.drafts[i..], drafts) == TakeDrafts(e.drafts, map[])
      {
        if !AcceptsDraft(e.drafts[i], drafts) {
          assert TakeDrafts(e.drafts, map[]) == (drafts, false);
          return false;
        }
        assert e.drafts[i..][1..] == e.drafts[i + 1..];
        drafts := drafts[e.drafts[i].value.draftId := e.drafts[i].value];
        i := i + 1;
      }
      assert e.drafts[i..] == [];
      assert TakeDrafts(e.drafts, map[]) == (drafts, true);
      i := 0;
      while i < |e.tickets|
        invariant 0 <= i <= |e.tickets| && TakeDrafts(e.drafts, map[]) == (drafts, true)
        invariant TakeTickets(e.tickets[i..], drafts, tickets) == TakeTickets(e.tickets, drafts, map[])
      {
        if !AcceptsTicket(e.tickets[i], drafts, tickets) {
          assert TakeTickets(e.tickets, drafts, map[]) == (tickets, false);
          return false;
        }
        assert e.tickets[i..][1..] == e.tickets[i + 1..];
        tickets := tickets[e.tickets[i].value.ticketId := e.tickets[i].value];
        i := i + 1;
      }
      assert e.tickets[i..] == [];
      assert TakeTickets(e.tickets, drafts, map[]) == (tickets, true);
      ok := true;
    }

    method MarkAndPrune(now: Time) returns (marked: bool)
      requires AllStorable(Records())
      modifies this`drafts, this`tickets
      ensures Recovered(old(Records()), now, limits, Records())
      ensures marked <==> AnyInterrupted(old(Records()))
    {
      hide Marked;
      marked := MarkRecovered(now);
      PruneRecords(now);
    }

    // #load up to its write: restore or quarantine, mark interrupted tickets, prune.
    method Reload(now: Time) returns (writes: bool)
      requires Records() == Store(map[], map[])
      modifies this`drafts, this`tickets, this`file
      ensures Recovered(Restored(old(file), limits).0, now, limits, Records())
      ensures writes <==> !Restored(old(file), limits).1 || AnyInterrupted(Restored(old(file), limits).0)
      ensures file == if Restored(old(file), limits).1 then old(file) else Absent
    {
      RestoredIsStorable(file, limits);
      var ok := Restore();
      if !ok { file := Absent; }
      var marked := MarkAndPrune(now);
      writes := !ok || marked;
    }

    // #load (lines 567-589). Files in which two tickets name one draft are read as well.
    method Load(now: Time, ending: Ending) returns (result: Result<set<Id>, Rejection>)
      requires Records() == Store(map[], map[])
      modifies this`drafts, this`tickets, this`file
      ensures Recovered(Restored(old(file), limits).0, now, limits, Records())
      ensures OneTicketEach(Restored(old(file), limits).0) ==>
          Records() == Recover(Restored(old(file), limits).0, now, limits)
      ensures Coherent(Restored(old(file), limits).0) ==> Valid()
      ensures
        var (s, whole) := Restored(old(file), limits);
        var kept := if whole then old(file) else Absent;
        if !whole || AnyInterrupted(s)
        then Filed(Records(), ending, limits, kept, file)
             && (result.Err? <==> Thrown(Records(), ending, limits).Some?)
             && (result.Err? ==> result.error == Thrown(Records(), ending, limits).value)
        else file == kept && result.Ok?
      ensures result.Ok? ==> forall t :: t in result.value <==> t in tickets && Recoverable(tickets[t])
    {
      ghost var s := Restored(file, limits).0;
      RestoredIsStorable(file, limits);
      var writes := Reload(now);
      RecoveredStaysStorable(s, now, limits, Records());
      if Coherent(s) {
        CoherentHasOneTicketEach(s);
        RecoverKeeps(s, now, limits);
      }
      hide Recovered, Coherent;
      var thrown := None;
      if writes { thrown := WriteState(ending); }
      result := if thrown.None? then Ok(set t | t in tickets && Recoverable(tickets[t])) else Err(thrown.value);
    }
  }
}
