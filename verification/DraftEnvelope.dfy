/**
 The draft store's file: one envelope that lists every record, and what #restore
 makes of any envelope (src/dashboard-session-drafts.ts:632-671).
 */
module DraftEnvelope {
  import opened Wrappers
  import opened Drafts
  import opened DraftsCoherence

  // A record that fails its own validation is None.
  datatype Envelope = Envelope(drafts: seq<Option<Draft>>, tickets: seq<Option<Ticket>>)

  // `size` is the length of the file in bytes.
  datatype StateFile = Absent | Unreadable(size: nat) | Readable(size: nat, envelope: Envelope)

  // ---- What #restore accepts ----------------------------------------------------------------

  predicate WellFormedDraft(d: Draft) { d.state.Drafting? ==> d.materialization.None? }

  predicate WellFormedTicket(t: Ticket) {
    (t.state.Succeeded? ==> t.session.Some?) && (t.state.Failed? ==> t.error.Some?)
  }

  predicate AcceptsDraft(e: Option<Draft>, drafts: map<Id, Draft>) {
    e.Some? && WellFormedDraft(e.value) && e.value.draftId !in drafts
  }

  predicate AcceptsTicket(e: Option<Ticket>, drafts: map<Id, Draft>, tickets: map<Id, Ticket>) {
    e.Some? && WellFormedTicket(e.value) && e.value.ticketId !in tickets && e.value.draftId in drafts
  }

  function TakeDrafts(es: seq<Option<Draft>>, drafts: map<Id, Draft>): (map<Id, Draft>, bool) {
    if es == [] then (drafts, true)
    else if !AcceptsDraft(es[0], drafts) then (drafts, false)
    else TakeDrafts(es[1..], drafts[es[0].value.draftId := es[0].value])
  }

  function TakeTickets(es: seq<Option<Ticket>>, drafts: map<Id, Draft>, tickets: map<Id, Ticket>): (map<Id,
      Ticket>, bool) {
    if es == [] then (tickets, true)
    else if !AcceptsTicket(es[0], drafts, tickets) then (tickets, false)
    else TakeTickets(es[1..], drafts, tickets[es[0].value.ticketId := es[0].value])
  }

  // The records in memory after the file was measured and read, and whether that went
  // through. A record that is refused stops it with every record before it already taken.
  function Restored(file: StateFile, limits: Limits): (Store, bool) {
    match file
    case Absent => (EMPTY, true)
    case Unreadable(_) => (EMPTY, false)
    case Readable(size, e) =>
      if size > limits.maxStateBytes || |e.drafts| > limits.maxDrafts || |e.tickets| > limits.maxTickets
      then (EMPTY, false)
      else
        var (drafts, okD) := TakeDrafts(e.drafts, map[]);
        if !okD then (Store(drafts, map[]), false)
        else
          var (tickets, okT) := TakeTickets(e.tickets, drafts, map[]);
          (Store(drafts, tickets), okT)
  }

  // ---- What the store may hold -----------------------------------------------------------------

  ghost predicate DraftStorable(s: Store, d: Id)
    requires d in s.drafts
  {
    s.drafts[d].draftId == d && WellFormedDraft(s.drafts[d])
  }

  ghost predicate TicketStorable(s: Store, t: Id)
    requires t in s.tickets
  {
    s.tickets[t].ticketId == t && WellFormedTicket(s.tickets[t]) && s.tickets[t].draftId in s.drafts
  }

  ghost predicate AllStorable(s: Store) {
    && (forall d {:trigger DraftStorable(s, d)} | d in s.drafts :: DraftStorable(s, d))
    && (forall t {:trigger TicketStorable(s, t)} | t in s.tickets :: TicketStorable(s, t))
  }

  ghost predicate Storable(s: Store, limits: Limits) {
    |s.drafts| <= limits.maxDrafts && |s.tickets| <= limits.maxTickets && AllStorable(s)
  }

  lemma CoherentIsStorable(s: Store)
    requires Coherent(s)
    ensures AllStorable(s)
  {
    forall d | d in s.drafts ensures DraftStorable(s, d) { assert DraftCoherent(s, d); }
    forall t | t in s.tickets ensures TicketStorable(s, t) { assert TicketCoherent(s, t); }
  }

  // ---- A written envelope lists each record once --------------------------------------------------

  ghost predicate ListsDrafts(es: seq<Option<Draft>>, m: map<Id, Draft>) {
    && |es| == |m|
    && (forall i | 0 <= i < |es| :: es[i].Some? && es[i].value.draftId in m && m[es[i].value.draftId] == es[i].value)
    && (forall i, j | 0 <= i < j < |es| :: es[i].Some? && es[j].Some? ==> es[i].value.draftId != es[j].value.draftId)
  }

  ghost predicate ListsTickets(es: seq<Option<Ticket>>, m: map<Id, Ticket>) {
    && |es| == |m|
    && (forall i | 0 <= i < |es| :: es[i].Some? && es[i].value.ticketId in m && m[es[i].value.ticketId] == es[i].value)
    && (forall i, j | 0 <= i < j < |es| :: es[i].Some? && es[j].Some? ==> es[i].value.ticketId != es[j].value.ticketId)
  }

  ghost predicate Lists(e: Envelope, s: Store) { ListsDrafts(e.drafts, s.drafts) && ListsTickets(e.tickets, s.tickets) }

  // The file holds exactly the records of `s`, as #write prints them.
  ghost predicate Holds(file: StateFile, s: Store, limits: Limits) {
    file.Readable? && file.size == limits.printed(s) && Lists(file.envelope, s)
  }

  lemma SameSizeSubmap<V>(a: map<Id, V>, b: map<Id, V>)
    requires forall k | k in a :: k in b && a[k] == b[k]
    requires |a| == |b|
    ensures a == b
  {
    assert a.Keys <= b.Keys;
    SubsetOfSameSize(a.Keys, b.Keys);
    assert a.Keys == b.Keys;
  }

  lemma SubsetOfSameSize(a: set<Id>, b: set<Id>)
    requires a <= b && |a| == |b|
    ensures a == b
  {
    assert |b - a| == |b| - |a| by { assert b == a + (b - a); }
    assert b - a == {};
  }

  lemma {:induction false} TakesListedDrafts(es: seq<Option<Draft>>, drafts: map<Id, Draft>, m: map<Id, Draft>)
    requires forall i | 0 <= i < |es| ::
        es[i].Some? && es[i].value.draftId in m && m[es[i].value.draftId] == es[i].value
    requires forall i | 0 <= i < |es| :: es[i].Some? ==> es[i].value.draftId !in drafts
    requires forall i, j | 0 <= i < j < |es| :: es[i].Some? && es[j].Some? ==>
        es[i].value.draftId != es[j].value.draftId
    requires forall d | d in m :: WellFormedDraft(m[d])
    requires forall d | d in drafts :: d in m && m[d] == drafts[d]
    ensures TakeDrafts(es, drafts).1
    ensures |TakeDrafts(es, drafts).0| == |drafts| + |es|
    ensures forall d | d in TakeDrafts(es, drafts).0 :: d in m && m[d] == TakeDrafts(es, drafts).0[d]
    decreases |es|
  {
    if es != [] {
      TakesListedDrafts(es[1..], drafts[es[0].value.draftId := es[0].value], m);
    }
  }

  lemma {:induction false} TakesListedTickets(es: seq<Option<Ticket>>, drafts: map<Id, Draft>, tickets: map<Id, Ticket>,
                                              m: map<Id, Ticket>)
    requires forall i | 0 <= i < |es| ::
        es[i].Some? && es[i].value.ticketId in m && m[es[i].value.ticketId] == es[i].value
    requires forall i | 0 <= i < |es| :: es[i].Some? ==> es[i].value.ticketId !in tickets
    requires forall i, j | 0 <= i < j < |es| :: es[i].Some? && es[j].Some? ==>
        es[i].value.ticketId != es[j].value.ticketId
    requires forall t | t in m :: WellFormedTicket(m[t]) && m[t].draftId in drafts
    requires forall t | t in tickets :: t in m && m[t] == tickets[t]
    ensures TakeTickets(es, drafts, tickets).1
    ensures |TakeTickets(es, drafts, tickets).0| == |tickets| + |es|
    ensures forall t | t in TakeTickets(es, drafts, tickets).0 ::
        t in m && m[t] == TakeTickets(es, drafts, tickets).0[t]
    decreases |es|
  {
    if es != [] {
      TakesListedTickets(es[1..], drafts, tickets[es[0].value.ticketId := es[0].value], m);
    }
  }

  lemma TakesWhatWasListed(e: Envelope, s: Store)
    requires AllStorable(s) && Lists(e, s)
    ensures TakeDrafts(e.drafts, map[]) == (s.drafts, true)
    ensures TakeTickets(e.tickets, s.drafts, map[]) == (s.tickets, true)
  {
    forall d | d in s.drafts ensures WellFormedDraft(s.drafts[d]) { assert DraftStorable(s, d); }
    TakesListedDrafts(e.drafts, map[], s.drafts);
    SameSizeSubmap(TakeDrafts(e.drafts, map[]).0, s.drafts);
    forall t | t in s.tickets ensures WellFormedTicket(s.tickets[t]) && s.tickets[t].draftId in s.drafts {
      assert TicketStorable(s, t);
    }
    TakesListedTickets(e.tickets, s.drafts, map[], s.tickets);
    SameSizeSubmap(TakeTickets(e.tickets, s.drafts, map[]).0, s.tickets);
  }

  // Reading back what the store wrote gives the same drafts and tickets exactly when the
  // indented text is within the limit; else the file is quarantined and nothing is left.
  lemma RestoresWhatWasWritten(file: StateFile, s: Store, limits: Limits)
    requires Storable(s, limits) && Holds(file, s, limits)
    ensures Restored(file, limits) == (s, true) <==> ReadsBack(s, limits)
    ensures !ReadsBack(s, limits) ==> Restored(file, limits) == (EMPTY, false)
  {
    TakesWhatWasListed(file.envelope, s);
  }

  // Only the same drafts and tickets have the same file.
  lemma FileTellsStoresApart(file: StateFile, a: Store, b: Store, limits: Limits)
    requires Holds(file, a, limits) && Holds(file, b, limits) && AllStorable(a) && AllStorable(b)
    ensures a == b
  {
    TakesWhatWasListed(file.envelope, a);
    TakesWhatWasListed(file.envelope, b);
  }

  // ---- Any envelope at all -------------------------------------------------------------------------

  lemma {:induction false} TakenDrafts(es: seq<Option<Draft>>, drafts: map<Id, Draft>)
    requires forall d | d in drafts :: drafts[d].draftId == d && WellFormedDraft(drafts[d])
    ensures |TakeDrafts(es, drafts).0| <= |drafts| + |es|
    ensures forall d | d in TakeDrafts(es, drafts).0 ::
              TakeDrafts(es, drafts).0[d].draftId == d && WellFormedDraft(TakeDrafts(es, drafts).0[d])
    decreases |es|
  {
    if es != [] && AcceptsDraft(es[0], drafts) {
      TakenDrafts(es[1..], drafts[es[0].value.draftId := es[0].value]);
    }
  }

  lemma {:induction false} TakenTickets(es: seq<Option<Ticket>>, drafts: map<Id, Draft>, tickets: map<Id, Ticket>)
    requires forall t | t in tickets ::
        tickets[t].ticketId == t && WellFormedTicket(tickets[t]) && tickets[t].draftId in drafts
    ensures |TakeTickets(es, drafts, tickets).0| <= |tickets| + |es|
    ensures forall t | t in TakeTickets(es, drafts, tickets).0 ::
              var k := TakeTickets(es, drafts, tickets).0[t];
              k.ticketId == t && WellFormedTicket(k) && k.draftId in drafts
    decreases |es|
  {
    if es != [] && AcceptsTicket(es[0], drafts, tickets) {
      TakenTickets(es[1..], drafts, tickets[es[0].value.ticketId := es[0].value]);
    }
  }

  // Whatever the file says, the records in memory can be written again.
  lemma RestoredIsStorable(file: StateFile, limits: Limits)
    ensures Storable(Restored(file, limits).0, limits)
  {
    var s := Restored(file, limits).0;
    if file.Readable? {
      var e := file.envelope;
      TakenDrafts(e.drafts, map[]);
      TakenTickets(e.tickets, TakeDrafts(e.drafts, map[]).0, map[]);
    }
    forall d | d in s.drafts ensures DraftStorable(s, d) { }
    forall t | t in s.tickets ensures TicketStorable(s, t) { }
  }

  lemma {:induction false} TakesKeep(es: seq<Option<Draft>>, drafts: map<Id, Draft>)
    ensures drafts.Keys <= TakeDrafts(es, drafts).0.Keys
    decreases |es|
  {
    if es != [] && AcceptsDraft(es[0], drafts) {
      TakesKeep(es[1..], drafts[es[0].value.draftId := es[0].value]);
    }
  }

  lemma {:induction false} NothingToRefer(es: seq<Option<Ticket>>)
    ensures TakeTickets(es, map[], map[]).0 == map[]
  {
  }

  // A quarantined file leaves nothing in memory exactly when it is too large, lists too
  // many records, or its first draft is missing or refused.
  lemma QuarantineLeavesNothing(size: nat, e: Envelope, limits: Limits)
    requires !Restored(Readable(size, e), limits).1
    ensures Restored(Readable(size, e), limits).0 == EMPTY
       <==> size > limits.maxStateBytes || |e.drafts| > limits.maxDrafts || |e.tickets| > limits.maxTickets
            || e.drafts == [] || !AcceptsDraft(e.drafts[0], map[])
  {
    if e.drafts == [] {
      NothingToRefer(e.tickets);
    } else if AcceptsDraft(e.drafts[0], map[]) {
      var first := e.drafts[0].value;
      TakesKeep(e.drafts[1..], map[][first.draftId := first]);
      assert first.draftId in TakeDrafts(e.drafts, map[]).0;
    }
  }

  // A quarantined file still leaves the records before the refused one in memory:
  // here a draft that says it is materializing, without its ticket.
  lemma QuarantineKeepsHalfTheRecords(size: nat, limits: Limits)
    requires limits.maxDrafts > 0 && limits.maxTickets > 0 && size <= limits.maxStateBytes
    ensures exists e ::
              && !Restored(Readable(size, e), limits).1
              && Restored(Readable(size, e), limits).0 != EMPTY
              && !Coherent(Restored(Readable(size, e), limits).0)
  {
    var d := Draft(1, 2, Materializing, 0, 0, 0, Some(Materialization(7, Queued, None, None)), 0, Sha256(""), None);
    var e := Envelope([Some(d)], [None]);
    var s := Store(map[1 := d], map[]);
    assert e.drafts[1..] == [] && map[][1 := d] == map[1 := d];
    assert TakeDrafts(e.drafts, map[]) == TakeDrafts([], map[1 := d]);
    assert TakeTickets(e.tickets, map[1 := d], map[]) == (map[], false);
    assert Restored(Readable(size, e), limits) == (s, false);
    assert !DraftCoherent(s, 1) && 1 in s.drafts;
  }
}
