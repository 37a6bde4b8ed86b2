/**
 The in-process hub of one session: a bounded replay ring, its channels, and the one
 controller (src/dashboard-backend.ts:756-1099 and its channels at 1101-1192).

 `log` is every event ever numbered; `seen` is what each channel's listener got.
 */
module RichHub {
  import opened Wrappers
  import opened ReplayLog

  datatype ChannelRole = Controller | Observer

  datatype ControlAction = Granted | Denied | Released

  datatype Message = EventMessage(event: Retained) | ControlMessage(action: ControlAction,
      channel: Option<Id>) | GapMessage(reason: GapReason)

  datatype Channel = Channel(role: ChannelRole, pending: seq<Message>, listeners: set<Id>)

  datatype Limits = Limits(maxChannels: nat, maxEventBytes: nat, maxReplayEvents: nat, maxReplayBytes: nat)

  datatype HubError = ChannelClosed | ChannelCapacity | ControllerBusy | ControllerRequired

  // Where a channel came in: its cursor, the log when it opened, and whether a listener
  // has taken what was pending.
  datatype Mark = Mark(from: Option<nat>, openedAt: nat, taken: bool)

  // A listener's channel, whether it was the channel's first, and the log when it came.
  datatype Hearing = Hearing(channel: Id, first: bool, subscribedAt: nat)

  function EventsOf(ms: seq<Message>): seq<Retained> {
    if ms == [] then []
    else if ms[0].EventMessage? then [ms[0].event] + EventsOf(ms[1..])
    else EventsOf(ms[1..])
  }

  function AsMessages(events: seq<Retained>): seq<Message> {
    if events == [] then [] else [EventMessage(events[0])] + AsMessages(events[1..])
  }

  function Replayed(r: Replay): seq<Message> {
    if r.Exactly? then AsMessages(r.events) else [GapMessage(r.reason)]
  }

  lemma {:induction false} EventsOfReplay(events: seq<Retained>)
    ensures EventsOf(AsMessages(events)) == events
  {
    if events != [] {
      EventsOfReplay(events[1..]);
      assert AsMessages(events)[1..] == AsMessages(events[1..]);
    }
  }

  lemma {:induction false} EventsOfAppend(a: seq<Message>, b: seq<Message>)
    ensures EventsOf(a + b) == EventsOf(a) + EventsOf(b)
  {
    if a == [] {
      assert a + b == b;
    } else {
      assert (a + b)[1..] == a[1..] + b;
      EventsOfAppend(a[1..], b);
    }
  }

  function GapsOf(ms: seq<Message>): seq<GapReason> {
    if ms == [] then []
    else if ms[0].GapMessage? then [ms[0].reason] + GapsOf(ms[1..])
    else GapsOf(ms[1..])
  }

  lemma {:induction false} GapsOfAppend(a: seq<Message>, b: seq<Message>)
    ensures GapsOf(a + b) == GapsOf(a) + GapsOf(b)
  {
    if a == [] {
      assert a + b == b;
    } else {
      assert (a + b)[1..] == a[1..] + b;
      GapsOfAppend(a[1..], b);
    }
  }

  lemma {:induction false} GapsOfReplay(events: seq<Retained>)
    ensures GapsOf(AsMessages(events)) == []
  {
    if events != [] {
      GapsOfReplay(events[1..]);
      assert AsMessages(events)[1..] == AsMessages(events[1..]);
    }
  }

  // The hub can still tell what came after the cursor: it names this hub's own identity, and
  // the end of the log or a position whose next event is retained.
  ghost predicate Follows(identity: Identity, log: Log, events: seq<Retained>, c: Cursor) {
    && c.At? && c.identity == identity
    && (c.sequence == |log| || (events != [] && events[0].sequence - 1 <= c.sequence <= |log|))
  }

  // Why it cannot.
  function Reason(identity: Identity, c: Cursor): GapReason {
    if c.At? && c.identity.host != identity.host then HostRestarted
    else if c.At? && c.identity != identity then GenerationChanged
    else CursorExpired
  }

  // What a new channel is owed for its cursor: the log from there on, or one gap with its
  // reason and no event at all.
  ghost predicate Owes(identity: Identity, log: Log, events: seq<Retained>, cursor: Option<Cursor>, pending: seq<Message>) {
    if cursor.None? then EventsOf(pending) == [] && GapsOf(pending) == []
    else if Follows(identity, log, events, cursor.value) then
      && 0 <= cursor.value.sequence <= |log|
      && EventsOf(pending) == From(log, cursor.value.sequence) && GapsOf(pending) == []
    else
      && EventsOf(pending) == [] && pending != [] && pending[0] == GapMessage(Reason(identity, cursor.value))
      && GapsOf(pending) == [Reason(identity, cursor.value)]
  }

  lemma OwesReplay(identity: Identity, log: Log, events: seq<Retained>, cursor: Option<Cursor>, denial: seq<Message>)
    requires Numbered(log) && Retains(log, events) && EventsOf(denial) == [] && GapsOf(denial) == []
    ensures Owes(identity, log, events, cursor, Replayed(ReplayOf(identity, events, |log|, cursor)) + denial)
  {
    var r := ReplayOf(identity, events, |log|, cursor);
    EventsOfAppend(Replayed(r), denial);
    GapsOfAppend(Replayed(r), denial);
    if cursor.Some? && cursor.value.At? && cursor.value.identity == identity {
      ReplayNeverSkips(identity, log, events, cursor.value.sequence);
    }
    if r.Exactly? {
      EventsOfReplay(r.events);
      GapsOfReplay(r.events);
    } else {
      assert [GapMessage(r.reason)][1..] == [];
    }
  }

  // The events a channel is owed for its cursor.
  function Owed(log: Log, m: Mark): seq<Retained>
    requires m.openedAt <= |log| && (m.from.Some? ==> m.from.value <= m.openedAt)
  {
    if m.from.Some? then From(log[..m.openedAt], m.from.value) else []
  }

  // Until somebody listens a channel keeps what it is owed.
  ghost predicate ChannelTrue(c: Channel, m: Mark, log: Log) {
    && m.openedAt <= |log| && (m.from.Some? ==> m.from.value <= m.openedAt)
    && (if m.taken then c.pending == [] else c.listeners == {} && EventsOf(c.pending) == Owed(log, m))
  }

  // A listener saw what its channel was owed, if it was the first, and every event
  // published since it subscribed.
  ghost predicate ListenerTrue(h: Hearing, m: Mark, seen: seq<Message>, log: Log) {
    && m.openedAt <= h.subscribedAt <= |log| && (m.from.Some? ==> m.from.value <= m.openedAt)
    && EventsOf(seen) == (if h.first then Owed(log, m) else []) + From(log, h.subscribedAt)
  }

  ghost predicate ListensIn(channels: map<Id, Channel>, ids: set<Id>, x: Id) {
    exists id :: id in ids && id in channels && x in channels[id].listeners
  }

  // What every listener of the channels `ids` has seen once they were given `m`.
  ghost function HeardIn(channels: map<Id, Channel>, ids: set<Id>, was: map<Id, seq<Message>>, m: Message)
    : map<Id, seq<Message>>
  {
    map x | x in was :: if ListensIn(channels, ids, x) then was[x] + [m] else was[x]
  }

  // ... and once `m` was broadcast.
  ghost function Heard(channels: map<Id, Channel>, was: map<Id, seq<Message>>, m: Message): map<Id, seq<Message>> {
    HeardIn(channels, channels.Keys, was, m)
  }

  // No listener is of two channels.
  ghost predicate Apart(channels: map<Id, Channel>, hearings: map<Id, Hearing>) {
    forall id, x | id in channels && x in channels[id].listeners :: x in hearings && hearings[x].channel == id
  }

  function Denial(wantsController: bool, holder: Option<Id>): seq<Message> {
    if wantsController && holder.Some? then [ControlMessage(Denied, None)] else []
  }

  ghost predicate RoleTrue(controller: Option<Id>, id: Id, c: Channel) { c.role.Controller? <==>
      controller == Some(id) }

  // What a channel's first listener saw is the log from its cursor on, exactly when nothing
  // was published between opening and subscribing.
  lemma ReplayThenLive(h: Hearing, m: Mark, seen: seq<Message>, log: Log)
    requires Numbered(log) && ListenerTrue(h, m, seen, log) && h.first && m.from.Some?
    ensures EventsOf(seen) == From(log, m.from.value) <==> From(log[..h.subscribedAt], m.openedAt) == []
  {
    var s, o, b := m.from.value, m.openedAt, h.subscribedAt;
    assert log[s..] == log[..o][s..] + log[o..];
    PublishedAppends(log[..o][s..], log[o..]);
    assert log[o..] == log[..b][o..] + log[b..];
    PublishedAppends(log[..b][o..], log[b..]);
    var x, y, z := Published(log[..o][s..]), Published(log[..b][o..]), Published(log[b..]);
    assert From(log, s) == x + (y + z) && EventsOf(seen) == x + z;
    if y != [] { assert |x + (y + z)| != |x + z|; } else { assert y + z == z; }
  }

  // A channel that opened with a cursor of another host, session or generation, or with one
  // that is no longer retained: its first listener is told of one gap and sees nothing
  // that was published before it came.
  lemma GapThenLive(h: Hearing, m: Mark, seen: seq<Message>, log: Log)
    requires ListenerTrue(h, m, seen, log) && m.from.None?
    ensures EventsOf(seen) == From(log, h.subscribedAt)
    ensures Numbered(log) ==> forall e | e in EventsOf(seen) :: e.sequence > h.subscribedAt
  {
    if Numbered(log) { LaterOnly(log, h.subscribedAt); }
  }

  lemma {:induction false} LaterOnly(log: Log, base: nat)
    requires Numbered(log) && base <= |log|
    ensures forall e | e in From(log, base) :: e.sequence > base
    decreases |log| - base
  {
    if base < |log| {
      assert log[base..][1..] == log[base + 1..];
      LaterOnly(log, base + 1);
    }
  }

  class InProcessRichHub {
    const identity: Identity
    const limits: Limits
    var events: seq<Retained>
    var sequence: nat
    var replayBytes: nat
    var channels: map<Id, Channel>
    var controller: Option<Id>
    var disposed: bool
    ghost var log: Log
    ghost var seen: map<Id, seq<Message>>
    ghost var marks: map<Id, Mark>
    ghost var hearings: map<Id, Hearing>

    ghost predicate ChannelOk(id: Id, l: Log)
      reads this`channels, this`marks, this`controller
      requires id in channels
    {
      id in marks && ChannelTrue(channels[id], marks[id], l) && RoleTrue(controller, id, channels[id])
    }

    ghost predicate ListenerOk(id: Id, x: Id, l: Log)
      reads this`channels, this`seen, this`marks, this`hearings
      requires id in channels && x in channels[id].listeners
    {
      && id in marks && x in seen && x in hearings && hearings[x].channel == id
      && ListenerTrue(hearings[x], marks[id], seen[x], l)
    }

    // The ring agrees with the log.
    ghost predicate RingOk()
      reads this`log, this`sequence, this`events, this`replayBytes
    {
      && Numbered(log) && sequence == |log| && Retains(log, events)
      && replayBytes == Bytes(events)
      && |events| <= limits.maxReplayEvents && replayBytes <= limits.maxReplayBytes
    }

    // The channels and their listeners have what log `l` owes them.
    ghost predicate ChannelsOk(l: Log)
      reads this`channels, this`seen, this`marks, this`hearings, this`controller
    {
      && (forall id {:trigger ChannelOk(id, l)} | id in channels :: ChannelOk(id, l))
      && (forall id, x {:trigger ListenerOk(id, x, l)} | id in channels && x in channels[id].listeners ::
          ListenerOk(id, x, l))
      && (controller.Some? ==> controller.value in channels)
    }

    ghost predicate Valid()
      reads this
    {
      if disposed then channels == map[] else RingOk() && ChannelsOk(log)
    }

    constructor (identity: Identity, limits: Limits)
      ensures Valid() && !disposed && log == [] && channels == map[] && controller.None?
      ensures this.identity == identity && this.limits == limits
    {
      this.identity := identity;
      this.limits := limits;
      events, sequence, replayBytes := [], 0, 0;
      channels, controller, disposed := map[], None, false;
      log, seen, marks, hearings := [], map[], map[], map[];
      new;
      assert events == From(log, 0);
    }

    // deliver (lines 1169-1172): every listener of the channel gets the message.
    method Deliver(id: Id, m: Message)
      requires id in channels && forall x | x in channels[id].listeners :: x in seen
      modifies this`seen
      ensures seen == HeardIn(channels, {id}, old(seen), m)
    {
      var rest := channels[id].listeners;
      while rest != {}
        invariant rest <= channels[id].listeners && seen.Keys == old(seen).Keys
        invariant forall x | x in seen ::
                    seen[x] == if x in channels[id].listeners && x !in rest then old(seen)[x] + [m] else old(seen)[x]
        decreases |rest|
      {
        var x :| x in rest;
        rest := rest - {x};
        seen := seen[x := seen[x] + [m]];
      }
      forall x | x in seen ensures ListensIn(channels, {id}, x) <==> x in channels[id].listeners {
        if x in channels[id].listeners { assert id in {id}; }
      }
    }

    // #broadcast: every listener of every channel gets the message now, the others never.
    method Broadcast(m: Message)
      modifies this`seen
      requires Apart(channels, hearings) && forall id, x | id in channels && x in channels[id].listeners :: x in seen
      ensures seen == Heard(channels, old(seen), m)
    {
      var rest := channels.Keys;
      ghost var done: set<Id> := {};
      assert seen == HeardIn(channels, done, seen, m);
      while rest != {}
        invariant rest <= channels.Keys && done == channels.Keys - rest
        invariant seen == HeardIn(channels, done, old(seen), m)
        decreases |rest|
      {
        var id :| id in rest;
        HeardInOne(channels, hearings, done, id, old(seen), m);
        Deliver(id, m);
        rest, done := rest - {id}, done + {id};
      }
      assert done == channels.Keys;
    }

    // Who listens is known, and heard where it listens.
    lemma ListenersKnown(l: Log)
      requires ChannelsOk(l)
      ensures Apart(channels, hearings)
      ensures forall id, x | id in channels && x in channels[id].listeners :: x in seen
    {
      forall id, x | id in channels && x in channels[id].listeners
        ensures x in hearings && hearings[x].channel == id && x in seen
      {
        assert ListenerOk(id, x, l);
      }
    }

    // A control message is no event, so it changes nothing a channel is owed.
    method BroadcastControl(action: ControlAction, channel: Option<Id>)
      requires ChannelsOk(log)
      modifies this`seen
      ensures ChannelsOk(log) && seen == Heard(channels, old(seen), ControlMessage(action, channel))
    {
      ListenersKnown(log);
      Broadcast(ControlMessage(action, channel));
      forall id | id in channels ensures ChannelOk(id, log) { assert old(ChannelOk(id, log)); }
      forall id, x | id in channels && x in channels[id].listeners ensures ListenerOk(id, x, log) {
        assert old(ListenerOk(id, x, log));
        EventsOfAppend(old(seen)[x], [ControlMessage(action, channel)]);
      }
    }

    method BroadcastEvent(e: Retained, ghost was: Log)
      requires ChannelsOk(was) && log == was + [Some(e)]
      modifies this`seen
      ensures ChannelsOk(log) && seen == Heard(channels, old(seen), EventMessage(e))
    {
      ListenersKnown(was);
      Broadcast(EventMessage(e));
      forall id | id in channels ensures ChannelOk(id, log) {
        assert old(ChannelOk(id, was));
        StillOwed(channels[id], marks[id], was, [Some(e)]);
      }
      forall id, x | id in channels && x in channels[id].listeners ensures ListenerOk(id, x, log) {
        assert old(ListenerOk(id, x, was));
        assert ListensIn(channels, channels.Keys, x);
        EventReaches(hearings[x], marks[id], old(seen)[x], was, e);
      }
    }

    // #publish (lines 999-1037).
    method Publish(payload: Id, bytes: nat)
      requires Valid()
      modifies this`sequence, this`events, this`replayBytes, this`log, this`seen
      ensures Valid()
      ensures old(disposed) ==> log == old(log) && seen == old(seen)
      ensures !old(disposed) ==>
                if bytes > limits.maxEventBytes then log == old(log) + [None] && seen == old(seen)
                else
                  var e := Retained(|old(log)| + 1, payload, bytes);
                  log == old(log) + [Some(e)] && seen == Heard(channels, old(seen), EventMessage(e))
    {
      if disposed { return; }
      sequence := sequence + 1;
      if bytes > limits.maxEventBytes {
        log := log + [None];
        SilentEntry(old(log));
      } else {
        var e := Retained(sequence, payload, bytes);
        log := log + [Some(e)];
        Retain(e, old(log));
        BroadcastEvent(e, old(log));
      }
    }

    method Retain(e: Retained, ghost was: Log)
      requires Numbered(was) && Retains(was, events) && replayBytes == Bytes(events)
      requires log == was + [Some(e)] && e.sequence == |log| == sequence
      modifies this`events, this`replayBytes
      ensures RingOk()
    {
      Appended(was, events, e);
      events := events + [e];
      replayBytes := replayBytes + e.bytes;
      Evict();
    }

    // The eviction loop (lines 1029-1035).
    method Evict()
      requires Numbered(log) && Retains(log, events) && replayBytes == Bytes(events)
      modifies this`events, this`replayBytes
      ensures Retains(log, events) && replayBytes == Bytes(events)
      ensures |events| <= limits.maxReplayEvents && replayBytes <= limits.maxReplayBytes
      ensures |events| <= |old(events)| && events == old(events)[|old(events)| - |events|..]
      ensures |events| < |old(events)| ==>
                var kept := old(events)[|old(events)| - |events| - 1..];
                |kept| > limits.maxReplayEvents || Bytes(kept) > limits.maxReplayBytes
    {
      while |events| > limits.maxReplayEvents || replayBytes > limits.maxReplayBytes
        invariant Retains(log, events) && replayBytes == Bytes(events)
        invariant |events| <= |old(events)| && events == old(events)[|old(events)| - |events|..]
        invariant |events| < |old(events)| ==>
                    var kept := old(events)[|old(events)| - |events| - 1..];
                    |kept| > limits.maxReplayEvents || Bytes(kept) > limits.maxReplayBytes
        decreases |events|
      {
        ShiftRetains(log, events);
        replayBytes := replayBytes - events[0].bytes;
        events := events[1..];
      }
    }

    lemma SilentEntry(was: Log)
      requires log == was + [None] && sequence == |log| && Numbered(was) && Retains(was, events)
      requires replayBytes == Bytes(events) && |events| <= limits.maxReplayEvents
          && replayBytes <= limits.maxReplayBytes
      requires ChannelsOk(was)
      ensures RingOk() && ChannelsOk(log)
    {
      var base: nat :| base <= |was| && events == From(was, base);
      FromAppends(was, base, None);
      forall id | id in channels ensures ChannelOk(id, log) {
        assert ChannelOk(id, was);
        StillOwed(channels[id], marks[id], was, [None]);
      }
      forall id, x | id in channels && x in channels[id].listeners ensures ListenerOk(id, x, log) {
        assert ListenerOk(id, x, was);
        FromAppends(was, hearings[x].subscribedAt, None);
        assert log[..marks[id].openedAt] == was[..marks[id].openedAt];
      }
    }

    // open (lines 793-844); the channel id is a fresh random one.
    method Open(id: Id, wantsController: bool, cursor: Option<Cursor>) returns (result: Result<ChannelRole, HubError>)
      requires Valid() && id !in channels
      modifies this`channels, this`controller, this`marks
      ensures Valid()
      ensures result ==
        if disposed then Err(ChannelClosed)
        else if |old(channels)| >= limits.maxChannels then Err(ChannelCapacity)
        else Ok(if wantsController && old(controller).None? then Controller else Observer)
      ensures result.Err? ==> channels == old(channels) && controller == old(controller)
      ensures result.Ok? ==>
                var pending := Replayed(ReplayOf(identity, events, |log|, cursor)) + Denial(wantsController,
                    old(controller));
                channels == old(channels)[id := Channel(result.value, pending, {})]
      ensures result.Ok? ==> controller == if result.value.Controller? then Some(id) else old(controller)
      ensures result.Ok? ==> id in marks && marks[id] == MarkFor(identity, events, |log|, cursor)
      ensures result.Ok? ==>
                && Owes(identity, log, events, cursor, channels[id].pending)
                && marks[id].openedAt == |log|
                && (marks[id].from.Some? <==> cursor.Some? && Follows(identity, log, events, cursor.value))
                && (marks[id].from.Some? ==> marks[id].from.value == cursor.value.sequence)
    {
      if disposed { return Err(ChannelClosed); }
      if |channels| >= limits.maxChannels { return Err(ChannelCapacity); }
      var granted := wantsController && controller.None?;
      var pending := Replayed(ReplayOf(identity, events, sequence, cursor));
      OwedForCursor(identity, log, events, cursor);
      OwesReplay(identity, log, events, cursor, Denial(wantsController, controller));
      MarkedExactly(identity, log, events, cursor);
      hide Owes, Follows;
      EventsOfAppend(pending, Denial(wantsController, controller));
      if wantsController && !granted {
        pending := pending + [ControlMessage(Denied, None)];
      } else {
        assert pending + [] == pending;
      }
      AddChannel(id, if granted then Controller else Observer, pending, MarkFor(identity, events, |log|, cursor));
      result := Ok(if granted then Controller else Observer);
    }

    method AddChannel(id: Id, role: ChannelRole, pending: seq<Message>, ghost m: Mark)
      requires ChannelsOk(log) && id !in channels && (role.Controller? ==> controller.None?)
      requires ChannelTrue(Channel(role, pending, {}), m, log)
      modifies this`channels, this`controller, this`marks
      ensures ChannelsOk(log) && channels == old(channels)[id := Channel(role, pending, {})]
      ensures controller == if role.Controller? then Some(id) else old(controller)
      ensures id in marks && marks[id] == m
    {
      if role.Controller? { controller := Some(id); }
      channels := channels[id := Channel(role, pending, {})];
      marks := marks[id := m];
      forall c | c in channels ensures ChannelOk(c, log) {
        if c != id { assert old(ChannelOk(c, log)); }
      }
      forall c, x | c in channels && x in channels[c].listeners ensures ListenerOk(c, x, log) {
        assert old(ListenerOk(c, x, log));
      }
    }

    // subscribe (lines 1158-1163): the first listener takes the pending events, and live ones
    // follow for every listener until it unsubscribes. `x` is the listener.
    method Subscribe(id: Id, x: Id) returns (result: Result<bool, HubError>)
      requires Valid() && x !in hearings
      modifies this`channels, this`seen, this`marks, this`hearings
      ensures Valid()
      ensures result == if id in old(channels) then Ok(true) else Err(ChannelClosed)
      ensures result.Ok? ==>
                var c := old(channels)[id];
                && channels == old(channels)[id := c.(pending := [], listeners := c.listeners + {x})]
                && seen == old(seen)[x := c.pending]
                && hearings.Keys == old(hearings).Keys + {x}
      ensures result.Err? ==> channels == old(channels) && seen == old(seen)
    {
      if id !in channels { return Err(ChannelClosed); }
      hide ChannelTrue, ListenerTrue, InProcessRichHub.RingOk;
      var c := channels[id];
      assert ChannelOk(id, log);
      Listening(c, marks[id], id, x, log);
      forall d, y | d in channels && y in channels[d].listeners ensures y != x { assert ListenerOk(d, y, log); }
      hearings := hearings[x := Hearing(id, !marks[id].taken, |log|)];
      marks := marks[id := marks[id].(taken := true)];
      seen := seen[x := c.pending];
      channels := channels[id := c.(pending := [], listeners := c.listeners + {x})];
      forall d | d in channels ensures ChannelOk(d, log) {
        if d != id { assert old(ChannelOk(d, log)); }
      }
      forall d, y | d in channels && y in channels[d].listeners ensures ListenerOk(d, y, log) {
        if y != x {
          assert old(ListenerOk(d, y, log));
          TakenStaysTrue(hearings[y], old(marks)[d], seen[y], log);
        }
      }
      result := Ok(true);
    }

    // The function that subscribe returned (line 1162).
    method Unsubscribe(id: Id, x: Id)
      requires Valid()
      modifies this`channels
      ensures Valid()
      ensures channels == if id in old(channels)
                          then old(channels)[id := old(channels)[id].(listeners := old(channels)[id].listeners - {x})]
                          else old(channels)
    {
      if id !in channels { return; }
      hide InProcessRichHub.RingOk;
      assert ChannelOk(id, log);
      channels := channels[id := channels[id].(listeners := channels[id].listeners - {x})];
      forall d | d in channels ensures ChannelOk(d, log) { assert old(ChannelOk(d, log)); }
      forall d, y | d in channels && y in channels[d].listeners ensures ListenerOk(d, y, log) {
        assert old(ListenerOk(d, y, log));
      }
    }

    method SetRole(id: Id, role: ChannelRole)
      requires id in channels
      modifies this`channels
      ensures channels == old(channels)[id := old(channels)[id].(role := role)]
    {
      channels := channels[id := channels[id].(role := role)];
    }

    // requestControl (lines 901-923).
    method RequestControl(id: Id) returns (result: Result<ChannelRole, HubError>)
      requires Valid()
      modifies this`channels, this`controller, this`seen
      ensures Valid()
      ensures result ==
        if id !in old(channels) then Err(ChannelClosed)
        else if old(controller).None? || old(controller) == Some(id) then Ok(Controller)
        else Err(ControllerBusy)
      ensures controller == if result.Ok? then Some(id) else old(controller)
      ensures channels == if result.Ok? then old(channels)[id := old(channels)[id].(role := Controller)]
          else old(channels)
      ensures result.Ok? ==> seen == Heard(channels, old(seen), ControlMessage(Granted, Some(id)))
      ensures result == Err(ControllerBusy) ==>
          seen == HeardIn(channels, {id}, old(seen), ControlMessage(Denied, Some(id)))
    {
      if id !in channels { return Err(ChannelClosed); }
      assert ChannelOk(id, log);
      if controller.None? || controller == Some(id) {
        hide InProcessRichHub.RingOk, ListenerTrue;
        controller := Some(id);
        SetRole(id, Controller);
        forall c | c in channels ensures ChannelOk(c, log) { assert old(ChannelOk(c, log)); }
        forall c, x | c in channels && x in channels[c].listeners ensures ListenerOk(c, x, log) {
          assert old(ListenerOk(c, x, log));
        }
        BroadcastControl(Granted, Some(id));
        return Ok(Controller);
      }
      Deny(id);
      result := Err(ControllerBusy);
    }

    // Only the channel itself hears that it was refused.
    method Deny(id: Id)
      requires ChannelsOk(log) && id in channels
      modifies this`seen
      ensures ChannelsOk(log) && seen == HeardIn(channels, {id}, old(seen), ControlMessage(Denied, Some(id)))
    {
      ListenersKnown(log);
      Deliver(id, ControlMessage(Denied, Some(id)));
      forall c | c in channels ensures ChannelOk(c, log) { assert old(ChannelOk(c, log)); }
      forall c, x | c in channels && x in channels[c].listeners ensures ListenerOk(c, x, log) {
        assert old(ListenerOk(c, x, log));
        EventsOfAppend(old(seen)[x], [ControlMessage(Denied, Some(id))]);
      }
    }

    // releaseControl (lines 925-941).
    method ReleaseControl(id: Id) returns (result: Result<ChannelRole, HubError>)
      requires Valid()
      modifies this`channels, this`controller, this`seen
      ensures Valid()
      ensures result ==
        if id !in old(channels) then Err(ChannelClosed)
        else if old(controller) != Some(id) then Err(ControllerRequired)
        else Ok(Observer)
      ensures controller == if result.Ok? then None else old(controller)
      ensures channels == if result.Ok? then old(channels)[id := old(channels)[id].(role := Observer)]
          else old(channels)
      ensures seen == if result.Ok? then Heard(channels, old(seen), ControlMessage(Released, Some(id))) else old(seen)
    {
      if id !in channels { return Err(ChannelClosed); }
      if controller != Some(id) { return Err(ControllerRequired); }
      controller := None;
      SetRole(id, Observer);
      forall c | c in channels ensures ChannelOk(c, log) { assert old(ChannelOk(c, log)); }
      forall c, x | c in channels && x in channels[c].listeners ensures ListenerOk(c, x, log) {
        assert old(ListenerOk(c, x, log));
      }
      BroadcastControl(Released, Some(id));
      result := Ok(Observer);
    }

    // remove (lines 966-985): the last channel takes the hub with it.
    method Remove(id: Id)
      requires Valid()
      modifies this`channels, this`controller, this`seen, this`disposed, this`events
      ensures Valid() && channels == old(channels) - {id}
      ensures disposed <==> old(disposed) || (id in old(channels) && channels == map[])
      ensures !disposed ==> controller == if old(controller) == Some(id) then None else old(controller)
      ensures seen == if id in old(channels) && old(controller) == Some(id)
                      then Heard(channels, old(seen), ControlMessage(Released, Some(id))) else old(seen)
    {
      if id !in channels {
        assert channels - {id} == channels;
        return;
      }
      channels := channels - {id};
      forall c, x | c in channels && x in channels[c].listeners && !disposed ensures ListenerOk(c, x, log) {
        assert old(ListenerOk(c, x, log));
      }
      if controller == Some(id) {
        controller := None;
        forall c | c in channels ensures ChannelOk(c, log) { assert old(ChannelOk(c, log)); }
        BroadcastControl(Released, Some(id));
      }
      forall c | c in channels
          && old(controller) != Some(id) ensures ChannelOk(c, log) { assert old(ChannelOk(c, log)); }
      if |channels| == 0 { Dispose(); }
    }

    // dispose (lines 987-997).
    method Dispose()
      modifies this`disposed, this`channels, this`events
      ensures disposed && (old(disposed) || (channels == map[] && events == []))
      ensures old(disposed) ==> channels == old(channels)
    {
      if disposed { return; }
      disposed := true;
      channels := map[];
      events := [];
    }

    // At most one live channel is the controller, and it is the recorded one.
    lemma OneController(a: Id, b: Id)
      requires Valid() && !disposed && a in channels && b in channels
      requires channels[a].role.Controller? && channels[b].role.Controller?
      ensures a == b && controller == Some(a)
    {
      assert ChannelOk(a, log) && ChannelOk(b, log);
    }
  }

  function MarkFor(identity: Identity, events: seq<Retained>, sequence: nat, cursor: Option<Cursor>): Mark {
    var r := ReplayOf(identity, events, sequence, cursor);
    Mark(if cursor.Some? && r.Exactly? && cursor.value.At? && cursor.value.sequence >= 0
        then Some(cursor.value.sequence) else None,
         sequence, false)
  }

  lemma OwedForCursor(identity: Identity, log: Log, events: seq<Retained>, cursor: Option<Cursor>)
    requires Numbered(log) && Retains(log, events)
    ensures
      var m := MarkFor(identity, events, |log|, cursor);
      && (m.from.Some? ==> m.from.value <= m.openedAt)
      && EventsOf(Replayed(ReplayOf(identity, events, |log|, cursor))) == Owed(log, m)
  {
    var r := ReplayOf(identity, events, |log|, cursor);
    assert log[..|log|] == log;
    if cursor.Some? && cursor.value.At? && r.Exactly? {
      ReplayNeverSkips(identity, log, events, cursor.value.sequence);
      EventsOfReplay(r.events);
    }
  }

  lemma MarkedExactly(identity: Identity, log: Log, events: seq<Retained>, cursor: Option<Cursor>)
    requires Numbered(log) && Retains(log, events)
    ensures
      var m := MarkFor(identity, events, |log|, cursor);
      && (m.from.Some? <==> cursor.Some? && Follows(identity, log, events, cursor.value))
      && (m.from.Some? ==> m.from.value == cursor.value.sequence)
  {
    if cursor.Some? && cursor.value.At? && cursor.value.identity == identity {
      ReplayNeverSkips(identity, log, events, cursor.value.sequence);
    }
  }

  lemma Appended(log: Log, events: seq<Retained>, e: Retained)
    requires Numbered(log) && Retains(log, events) && e.sequence == |log| + 1
    ensures Numbered(log + [Some(e)]) && Retains(log + [Some(e)], events + [e])
    ensures Bytes(events + [e]) == Bytes(events) + e.bytes
  {
    var base: nat :| base <= |log| && events == From(log, base);
    FromAppends(log, base, Some(e));
    BytesAppend(events, [e]);
    assert [e][1..] == [];
  }

  lemma ShiftRetains(log: Log, events: seq<Retained>)
    requires Numbered(log) && Retains(log, events) && events != []
    ensures Retains(log, events[1..]) && Bytes(events) == events[0].bytes + Bytes(events[1..])
  {
    var base: nat :| base <= |log| && events == From(log, base);
    DropOldest(log, base);
  }

  // What the first listener takes, and what any other does.
  lemma Listening(c: Channel, m: Mark, id: Id, x: Id, log: Log)
    requires ChannelTrue(c, m, log)
    ensures ChannelTrue(c.(pending := [], listeners := c.listeners + {x}), m.(taken := true), log)
    ensures ListenerTrue(Hearing(id, !m.taken, |log|), m.(taken := true), c.pending, log)
  {
    assert log[|log|..] == [];
    assert Owed(log, m) == Owed(log, m.(taken := true)) && Owed(log, m) + [] == Owed(log, m);
  }

  lemma TakenStaysTrue(h: Hearing, m: Mark, seen: seq<Message>, log: Log)
    requires ListenerTrue(h, m, seen, log)
    ensures ListenerTrue(h, m.(taken := true), seen, log)
  {
    assert h.first ==> Owed(log, m) == Owed(log, m.(taken := true));
  }

  // What a channel is owed is settled when it opens.
  lemma StillOwed(c: Channel, m: Mark, log: Log, more: Log)
    requires ChannelTrue(c, m, log)
    ensures ChannelTrue(c, m, log + more)
  {
    assert (log + more)[..m.openedAt] == log[..m.openedAt];
  }

  lemma EventReaches(h: Hearing, m: Mark, seen: seq<Message>, log: Log, e: Retained)
    requires ListenerTrue(h, m, seen, log)
    ensures ListenerTrue(h, m, seen + [EventMessage(e)], log + [Some(e)])
  {
    assert (log + [Some(e)])[..m.openedAt] == log[..m.openedAt];
    FromAppends(log, h.subscribedAt, Some(e));
    EventsOfAppend(seen, [EventMessage(e)]);
    assert [EventMessage(e)][1..] == [];
  }

  lemma HeardInOne(channels: map<Id, Channel>, hearings: map<Id, Hearing>, ids: set<Id>, id: Id,
                   was: map<Id, seq<Message>>, m: Message)
    requires Apart(channels, hearings) && id in channels && id !in ids
    ensures HeardIn(channels, {id}, HeardIn(channels, ids, was, m), m) == HeardIn(channels, ids + {id}, was, m)
  {
    forall x | x in was
      ensures ListensIn(channels, ids + {id}, x) <==> ListensIn(channels, ids, x) || ListensIn(channels, {id}, x)
      ensures !(ListensIn(channels, ids, x) && ListensIn(channels, {id}, x))
    {
      if c :| c in ids && c in channels && x in channels[c].listeners {
        assert c in ids + {id} && hearings[x].channel == c != id;
      }
      if x in channels[id].listeners { assert id in ids + {id} && id in {id}; }
    }
  }
}
