/**
 Published events, the log of all of them, and what a bounded suffix can replay
 (src/dashboard-backend.ts:999-1067).
 */
module ReplayLog {
  import opened Wrappers

  type Id = nat

  // A retained event: its sequence number, what it says, and its size.
  datatype Retained = Retained(sequence: nat, payload: Id, bytes: nat)

  // One entry a sequence number: an event, or None where the event was too large.
  type Log = seq<Option<Retained>>

  predicate Numbered(log: Log) {
    forall i | 0 <= i < |log| && log[i].Some? :: log[i].value.sequence == i + 1
  }

  function Published(log: Log): seq<Retained> {
    if log == [] then []
    else if log[0].Some? then [log[0].value] + Published(log[1..])
    else Published(log[1..])
  }

  function Bytes(events: seq<Retained>): nat {
    if events == [] then 0 else events[0].bytes + Bytes(events[1..])
  }

  // The events after sequence number `s`.
  function After(events: seq<Retained>, s: int): seq<Retained> {
    if events == [] then []
    else if events[0].sequence > s then [events[0]] + After(events[1..], s)
    else After(events[1..], s)
  }

  // The events of the log from position `base` on.
  function From(log: Log, base: nat): seq<Retained>
    requires base <= |log|
  {
    Published(log[base..])
  }

  lemma {:induction false} PublishedAppends(a: Log, b: Log)
    ensures Published(a + b) == Published(a) + Published(b)
  {
    if a == [] {
      assert a + b == b;
    } else {
      assert (a + b)[1..] == a[1..] + b;
      PublishedAppends(a[1..], b);
    }
  }

  lemma {:induction false} BytesAppend(a: seq<Retained>, b: seq<Retained>)
    ensures Bytes(a + b) == Bytes(a) + Bytes(b)
  {
    if a == [] {
      assert a + b == b;
    } else {
      assert (a + b)[1..] == a[1..] + b;
      BytesAppend(a[1..], b);
    }
  }

  lemma FromAppends(log: Log, base: nat, e: Option<Retained>)
    requires base <= |log|
    ensures From(log + [e], base) == From(log, base) + (if e.Some? then [e.value] else [])
  {
    assert (log + [e])[base..] == log[base..] + [e];
    PublishedAppends(log[base..], [e]);
    assert [e][1..] == [];
  }

  // Dropping the oldest of the events from `base` leaves those after it.
  lemma {:induction false} DropOldest(log: Log, base: nat)
    requires Numbered(log) && base <= |log| && From(log, base) != []
    ensures base < From(log, base)[0].sequence <= |log|
    ensures From(log, base)[1..] == From(log, From(log, base)[0].sequence)
    decreases |log| - base
  {
    assert log[base..][1..] == log[base + 1..];
    if log[base].None? { DropOldest(log, base + 1); }
  }

  // Every event from `base` on has a larger sequence number.
  lemma {:induction false} FromIsLater(log: Log, base: nat, s: int)
    requires Numbered(log) && base <= |log| && s <= base
    ensures After(From(log, base), s) == From(log, base)
    decreases |log| - base
  {
    if base < |log| {
      assert log[base..][1..] == log[base + 1..];
      FromIsLater(log, base + 1, s);
    }
  }

  // Filtering a suffix that starts early enough gives exactly the later events.
  lemma {:induction false} AfterIsFrom(log: Log, base: nat, s: nat)
    requires Numbered(log) && base <= s <= |log|
    ensures After(From(log, base), s) == From(log, s)
    decreases s - base
  {
    if base == s {
      FromIsLater(log, base, s);
    } else {
      assert log[base..][1..] == log[base + 1..];
      AfterIsFrom(log, base + 1, s);
    }
  }

  // ---- Replay ---------------------------------------------------------------------------

  datatype Identity = Identity(host: Id, session: Id, generation: nat)

  // A cursor either does not parse, or names an identity and a sequence number.
  datatype Cursor = Malformed | At(identity: Identity, sequence: int)

  datatype GapReason = CursorExpired | HostRestarted | GenerationChanged

  datatype Replay = Exactly(events: seq<Retained>) | Gap(reason: GapReason)

  // #replay on the retained events alone (lines 1039-1067).
  function ReplayOf(identity: Identity, events: seq<Retained>, sequence: nat, cursor: Option<Cursor>): Replay {
    if cursor.None? then Exactly([])
    else
      match cursor.value
      case Malformed => Gap(CursorExpired)
      case At(other, s) =>
        if other.host != identity.host then Gap(HostRestarted)
        else if other != identity then Gap(GenerationChanged)
        else if s == sequence then Exactly([])
        else if events == [] || s < events[0].sequence - 1 || s > sequence then Gap(CursorExpired)
        else Exactly(After(events, s))
  }

  // The retained events are the log from some position on.
  ghost predicate Retains(log: Log, events: seq<Retained>) {
    exists base: nat :: base <= |log| && events == From(log, base)
  }

  lemma {:induction false} FirstOfFrom(log: Log, base: nat)
    requires Numbered(log) && base <= |log| && From(log, base) != []
    ensures base < From(log, base)[0].sequence <= |log|
    ensures From(log, From(log, base)[0].sequence - 1) == From(log, base)
    decreases |log| - base
  {
    assert log[base..][1..] == log[base + 1..];
    if log[base].None? { FirstOfFrom(log, base + 1); }
  }

  // For a cursor of this identity, replay gives exactly the published events after
  // it, in order, or a gap: it never skips one.
  lemma ReplayNeverSkips(identity: Identity, log: Log, events: seq<Retained>, s: int)
    requires Numbered(log) && Retains(log, events)
    ensures
      var r := ReplayOf(identity, events, |log|, Some(At(identity, s)));
      && (r.Exactly? ==> 0 <= s <= |log| && r.events == From(log, s))
      && (r.Exactly? <==> s == |log| || (events != [] && events[0].sequence - 1 <= s <= |log|))
  {
    var base: nat :| base <= |log| && events == From(log, base);
    if events != [] {
      FirstOfFrom(log, base);
      var first := events[0].sequence - 1;
      if first <= s <= |log| { AfterIsFrom(log, first, s); }
    }
  }

  // A published event after the cursor that is no longer retained always shows as a gap.
  lemma EvictedShowsAsGap(identity: Identity, log: Log, events: seq<Retained>, s: nat, i: nat)
    requires Numbered(log) && Retains(log, events)
    requires s <= i < |log| && log[i].Some? && log[i].value !in events
    ensures ReplayOf(identity, events, |log|, Some(At(identity, s))).Gap?
  {
    ReplayNeverSkips(identity, log, events, s);
    var r := ReplayOf(identity, events, |log|, Some(At(identity, s)));
    if r.Exactly? {
      InFrom(log, s, i);
      var base: nat :| base <= |log| && events == From(log, base);
      if events != [] {
        FirstOfFrom(log, base);
        InFrom(log, events[0].sequence - 1, i);
      }
    }
  }

  lemma {:induction false} InFrom(log: Log, base: nat, i: nat)
    requires base <= i < |log| && log[i].Some?
    ensures log[i].value in From(log, base)
    decreases i - base
  {
    assert log[base..][1..] == log[base + 1..];
    if base < i { InFrom(log, base + 1, i); }
  }

  // The first position whose events are all retained.
  function FirstKept(log: Log, events: seq<Retained>): int { if events == [] then |log| else events[0].sequence - 1 }

  // Nothing the cursor missed is gone, and still a gap is reported: this happens exactly
  // when the entries between the cursor and the retained events were all too large.
  lemma GapWithoutLoss(identity: Identity, log: Log, events: seq<Retained>, s: nat)
    requires Numbered(log) && Retains(log, events) && s <= |log|
    ensures
      var first := FirstKept(log, events);
      0 <= first <= |log| &&
      (ReplayOf(identity, events, |log|, Some(At(identity, s))).Gap? && After(events, s) == From(log, s)
       <==> s < first && Published(log[s..first]) == [])
  {
    var base: nat :| base <= |log| && events == From(log, base);
    if events != [] { FirstOfFrom(log, base); }
    var first := FirstKept(log, events);
    ReplayNeverSkips(identity, log, events, s);
    if s < first {
      assert log[s..] == log[s..first] + log[first..];
      PublishedAppends(log[s..first], log[first..]);
      if events == [] {
        assert log[first..] == [];
      } else {
        FromIsLater(log, first, s);
      }
      var lost := Published(log[s..first]);
      assert From(log, s) == lost + events && After(events, s) == events;
      assert lost != [] ==> |lost + events| > |events|;
      assert lost == [] ==> lost + events == events;
    }
  }
}
