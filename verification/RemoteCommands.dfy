/**
 The remote hub's requests in flight across sockets, timeouts and reconnects
 (src/dashboard-remote-rich-hub.ts:210-251, 323-350, 381-396, 561-638, 689-843, 875-895).

 `written` is every command frame ever written and to which socket, `outcomes` every
 settlement of every command id ever made, and `answers` the same for the requests that
 carry no id on the wire: extension answers and control transitions.
 */
module RemoteCommands {
  import opened Wrappers

  type Id = nat

  datatype Operation = NavigateTree | Other(name: Id)

  datatype Outcome =
    | Answered(data: Id)
    | Refused(error: Id)
    | ControllerRequired
    | IdempotencyConflict
    | CapacityReached
    | Unavailable
    | ControlBusy
    | FrameTooLarge
    | SendFailed
    | TimedOut
    | ConnectionLost
    | Closed
    | ProtocolError

  // What the caller of `command` holds: a result, or the promise of a command id.
  datatype Reply = Now(outcome: Outcome) | Later(id: Id)

  datatype Pending = Pending(operation: Operation, correlationId: Id)

  datatype Cached = Cached(key: Id, fingerprint: Id, reply: Reply)

  // How the socket takes a frame.
  datatype Sending = Written | TooLarge | Fails

  // A tree navigation's answer: an error, a result, or neither.
  datatype TreeResult = TreeError(error: Id) | TreeData(data: Id) | TreeMissing

  datatype Limits = Limits(maxInFlight: nat, maxResults: nat)

  datatype Call = Call(operation: Operation, readOnly: bool, fingerprint: Id, key: Option<Id>)

  // `connected` is #connectionReady; `open` says that the socket's readyState is OPEN as well,
  // which ends first where the socket is closed or terminated from this side.
  datatype Hub = Hub(
    commands: map<Id, Pending>,
    cache: seq<Cached>,
    anonymous: seq<Id>,
    waiter: Option<Id>,
    epoch: nat,
    connected: bool,
    open: bool,
    disposed: bool,
    written: map<Id, seq<nat>>,
    outcomes: map<Id, seq<Outcome>>,
    answers: map<Id, seq<Outcome>>)

  datatype Step =
    | Command(call: Call, isController: bool, correlationId: Id, id: Id, sending: Sending)
    | Response(socket: nat, to: Option<Id>, data: Id)
    | TreeAnswer(socket: nat, id: Id, result: TreeResult)
    | Timeout(id: Id)
    | Ask(id: Id, sending: Sending)
    | AskTimeout(id: Id)
    | Control(id: Id, sending: Sending)
    | ControlFrame(socket: nat, data: Id)
    | ControlTimeout
    | Closing(socket: nat)
    | Disconnect(socket: nat)
    | Connect
    | Dispose

  // ---- The table of remembered results -------------------------------------------------

  function Find(cache: seq<Cached>, key: Id): Option<Cached> {
    if cache == [] then None else if cache[0].key == key then Some(cache[0]) else Find(cache[1..], key)
  }

  // A Map.set that drops the oldest entry first when the table is full.
  function Remember(cache: seq<Cached>, c: Cached, limit: nat): seq<Cached> {
    (if |cache| >= limit && cache != [] then cache[1..] else cache) + [c]
  }

  // A table of no entries at all still holds the last one.
  function Room(limits: Limits): nat { if limits.maxResults == 0 then 1 else limits.maxResults }

  function Newest(s: seq<Cached>, n: nat): seq<Cached> { if |s| <= n then s else s[|s| - n..] }

  lemma RememberKeepsNewest(cache: seq<Cached>, c: Cached, limits: Limits)
    requires |cache| <= Room(limits)
    ensures Remember(cache, c, limits.maxResults) == Newest(cache + [c], Room(limits))
  {
  }

  lemma NewestOfNewest(a: seq<Cached>, c: Cached, n: nat)
    requires n > 0
    ensures Newest(Newest(a, n) + [c], n) == Newest(a + [c], n)
  {
  }

  lemma {:induction false} FindAt(cache: seq<Cached>, i: nat)
    requires i < |cache| && forall j | 0 <= j < |cache| && j != i :: cache[j].key != cache[i].key
    ensures Find(cache, cache[i].key) == Some(cache[i])
  {
    if i > 0 { FindAt(cache[1..], i - 1); }
  }

  lemma {:induction false} FindNowhere(cache: seq<Cached>, key: Id)
    ensures Find(cache, key).None? <==> forall j | 0 <= j < |cache| :: cache[j].key != key
  {
    if cache != [] {
      FindNowhere(cache[1..], key);
      assert forall j | 1 <= j < |cache| :: cache[j] == cache[1..][j - 1];
    }
  }

  // ---- Steps of the hub ------------------------------------------------------------------

  function SendReply(limits: Limits, h: Hub, id: Id, sending: Sending): Reply {
    if |h.commands| >= limits.maxInFlight then Now(CapacityReached)
    else if !h.open then Now(Unavailable)
    else
      match sending
      case Written => Later(id)
      case TooLarge => Now(FrameTooLarge)
      case Fails => Now(SendFailed)
  }

  // #sendCommand (lines 689-767).
  function Send(limits: Limits, h: Hub, operation: Operation, correlationId: Id, id: Id, sending: Sending): Hub {
    if |h.commands| >= limits.maxInFlight || !h.open then h
    else
      match SendReply(limits, h, id, sending)
      case Later(_) =>
        h.(commands := h.commands[id := Pending(operation, correlationId)],
           written := h.written[id := [h.epoch]], outcomes := h.outcomes[id := []])
      case Now(outcome) => h.(written := h.written[id := []], outcomes := h.outcomes[id := [outcome]])
  }

  predicate Known(h: Hub, call: Call) { call.key.Some? && Find(h.cache, call.key.value).Some? }

  // The command gets as far as #sendCommand.
  predicate Reaches(h: Hub, call: Call, isController: bool) {
    !h.disposed && (isController || call.readOnly) && !Known(h, call)
  }

  // command (lines 210-251).
  function CommandReply(limits: Limits, h: Hub, call: Call, isController: bool, id: Id, sending: Sending)
    : Result<Reply, Outcome>
  {
    if h.disposed then Err(Closed)
    else if !isController && !call.readOnly then Ok(Now(ControllerRequired))
    else if Known(h, call) then
      var known := Find(h.cache, call.key.value).value;
      Ok(if known.fingerprint == call.fingerprint then known.reply else Now(IdempotencyConflict))
    else Ok(SendReply(limits, h, id, sending))
  }

  function EntryOf(limits: Limits, h: Hub, call: Call, id: Id, sending: Sending): Cached
    requires call.key.Some?
  {
    Cached(call.key.value, call.fingerprint, SendReply(limits, h, id, sending))
  }

  function Settled(h: Hub, id: Id, outcome: Outcome): Hub {
    h.(commands := h.commands - {id}, outcomes := h.outcomes[id := [outcome]])
  }

  // The outcomes once the requests in `gone` failed.
  function Failed(was: map<Id, seq<Outcome>>, gone: set<Id>, outcome: Outcome): map<Id, seq<Outcome>> {
    map id | id in was :: if id in gone then [outcome] else was[id]
  }

  function IdsOf(s: seq<Id>): set<Id> { set id | id in s }

  function Waiting(h: Hub): set<Id> {
    IdsOf(h.anonymous) + (if h.waiter.Some? then {h.waiter.value} else {})
  }

  // #failInFlight (lines 875-894).
  function FailAll(h: Hub, outcome: Outcome): Hub {
    h.(commands := map[], outcomes := Failed(h.outcomes, h.commands.Keys, outcome),
       anonymous := [], waiter := None, answers := Failed(h.answers, Waiting(h), outcome))
  }

  function Dropped(s: seq<Id>, id: Id): seq<Id> {
    if s == [] then [] else if s[0] == id then s[1..] else [s[0]] + Dropped(s[1..], id)
  }

  function TreeOutcome(result: TreeResult): Outcome {
    match result
    case TreeError(e) => Refused(e)
    case TreeData(d) => Answered(d)
    case TreeMissing => ProtocolError
  }

  // #assertConnected (lines 912-921).
  function NotConnected(h: Hub): Outcome { if h.disposed then Closed else Unavailable }

  function RefusalOf(sending: Sending): Outcome { if sending.TooLarge? then FrameTooLarge else SendFailed }

  function Commanded(limits: Limits, h: Hub, call: Call, isController: bool, correlationId: Id, id: Id,
      sending: Sending): Hub
  {
    if id in h.written || !Reaches(h, call, isController) then h
    else
      var n := Send(limits, h, call.operation, correlationId, id, sending);
      if call.key.None? then n
      else n.(cache := Remember(h.cache, EntryOf(limits, h, call, id, sending), limits.maxResults))
  }

  // A frame of an older socket is ignored (line 437).
  function Responded(h: Hub, socket: nat, to: Option<Id>, data: Id): Hub {
    if socket != h.epoch || h.disposed then h
    else if to.Some? then if to.value in h.commands then Settled(h, to.value, Answered(data)) else h
    else if h.anonymous == [] then h
    else h.(anonymous := h.anonymous[1..], answers := h.answers[h.anonymous[0] := [Answered(data)]])
  }

  function TreeAnswered(h: Hub, socket: nat, to: Id, result: TreeResult): Hub {
    if socket != h.epoch || h.disposed || to !in h.commands || !h.commands[to].operation.NavigateTree? then h
    else Settled(h, to, TreeOutcome(result))
  }

  // A new request without an id on the wire, refused at once or waiting at its place.
  function Asked(h: Hub, id: Id, sending: Sending): Hub {
    if id in h.answers then h
    else if !h.open then h.(answers := h.answers[id := [NotConnected(h)]])
    else if sending.Written? then h.(anonymous := h.anonymous + [id], answers := h.answers[id := []])
    else h.(answers := h.answers[id := [RefusalOf(sending)]])
  }

  function ControlAsked(h: Hub, id: Id, sending: Sending): Hub {
    if id in h.answers then h
    else if !h.open then h.(answers := h.answers[id := [NotConnected(h)]])
    else if h.waiter.Some? then h.(answers := h.answers[id := [ControlBusy]])
    else if sending.Written? then h.(waiter := Some(id), answers := h.answers[id := []])
    else h.(answers := h.answers[id := [RefusalOf(sending)]])
  }

  // Their timers terminate the socket.
  function AskEnded(h: Hub, id: Id): Hub {
    if id !in h.anonymous then h
    else h.(anonymous := Dropped(h.anonymous, id), answers := h.answers[id := [TimedOut]], open := false)
  }

  function ControlEnded(h: Hub): Hub {
    if h.waiter.None? then h
    else h.(waiter := None, answers := h.answers[h.waiter.value := [TimedOut]], open := false)
  }

  function ControlHeard(h: Hub, socket: nat, data: Id): Hub {
    if socket != h.epoch || h.disposed || h.waiter.None? then h
    else h.(waiter := None, answers := h.answers[h.waiter.value := [Answered(data)]])
  }

  function Lost(h: Hub, socket: nat): Hub {
    if socket != h.epoch || h.disposed then h else FailAll(h, ConnectionLost).(connected := false, open := false)
  }

  function Ready(h: Hub): Hub {
    if h.connected || h.disposed then h else h.(epoch := h.epoch + 1, connected := true, open := true)
  }

  function Ended(h: Hub): Hub {
    if h.disposed then h
    else FailAll(h, Closed).(disposed := true, connected := false, open := false, cache := [])
  }

  // A request id seen before changes nothing.
  function Do(limits: Limits, h: Hub, step: Step): Hub {
    match step
    case Command(call, isController, correlationId, id, sending) =>
      Commanded(limits, h, call, isController, correlationId, id, sending)
    case Response(socket, to, data) => Responded(h, socket, to, data)
    case TreeAnswer(socket, to, result) => TreeAnswered(h, socket, to, result)
    case Timeout(id) => if id in h.commands then Settled(h, id, TimedOut) else h
    case Ask(id, sending) => Asked(h, id, sending)
    case AskTimeout(id) => AskEnded(h, id)
    case Control(id, sending) => ControlAsked(h, id, sending)
    case ControlFrame(socket, data) => ControlHeard(h, socket, data)
    case ControlTimeout => ControlEnded(h)
    case Closing(socket) => if socket != h.epoch then h else h.(open := false)
    case Disconnect(socket) => Lost(h, socket)
    case Connect => Ready(h)
    case Dispose => Ended(h)
  }

  function Runs(limits: Limits, h: Hub, steps: seq<Step>): Hub
    decreases |steps|
  {
    if steps == [] then h else Do(limits, Runs(limits, h, steps[..|steps| - 1]), steps[|steps| - 1])
  }

  // ---- What every run keeps -----------------------------------------------------------------

  // A command in flight was written once, to the current socket, and is not settled;
  // any other was written at most once and is settled exactly once.
  predicate CommandOk(h: Hub, id: Id)
    requires id in h.written && id in h.outcomes
  {
    if id in h.commands then h.written[id] == [h.epoch] && h.outcomes[id] == []
    else |h.written[id]| <= 1 && |h.outcomes[id]| == 1
  }

  predicate RequestOk(h: Hub, id: Id)
    requires id in h.answers
  {
    if id in Waiting(h) then h.answers[id] == [] else |h.answers[id]| == 1
  }

  predicate CommandsOk(limits: Limits, h: Hub) {
    && h.written.Keys == h.outcomes.Keys
    && h.commands.Keys <= h.written.Keys
    && (forall id {:trigger CommandOk(h, id)} | id in h.written :: CommandOk(h, id))
    && |h.commands| <= limits.maxInFlight
  }

  predicate RequestsOk(h: Hub) {
    && Waiting(h) <= h.answers.Keys
    && (forall id {:trigger RequestOk(h, id)} | id in h.answers :: RequestOk(h, id))
    && (forall i, j | 0 <= i < j < |h.anonymous| :: h.anonymous[i] != h.anonymous[j])
    && (h.waiter.Some? ==> h.waiter.value !in h.anonymous)
  }

  predicate CacheOk(limits: Limits, h: Hub) {
    && |h.cache| <= Room(limits)
    && (forall i, j | 0 <= i < j < |h.cache| :: h.cache[i].key != h.cache[j].key)
    && (forall i | 0 <= i < |h.cache| && h.cache[i].reply.Later? :: h.cache[i].reply.id in h.written)
  }

  predicate HubOk(limits: Limits, h: Hub) {
    && CommandsOk(limits, h) && RequestsOk(h) && CacheOk(limits, h)
    && (h.commands != map[] || h.anonymous != [] || h.waiter.Some? ==> h.connected && !h.disposed)
    && (h.disposed ==> !h.connected) && (h.open ==> h.connected)
  }

  const FRESH_HUB := Hub(map[], [], [], None, 0, false, false, false, map[], map[], map[])

  lemma FreshIsOk(limits: Limits)
    ensures HubOk(limits, FRESH_HUB)
  {
  }

  lemma SettledKeeps(limits: Limits, h: Hub, id: Id, outcome: Outcome)
    requires CommandsOk(limits, h) && id in h.commands
    ensures CommandsOk(limits, Settled(h, id, outcome))
  {
    var n := Settled(h, id, outcome);
    assert CommandOk(h, id);
    assert n.commands.Keys == h.commands.Keys - {id};
    forall c | c in n.written ensures CommandOk(n, c) { assert CommandOk(h, c); }
  }

  lemma SendKeeps(limits: Limits, h: Hub, operation: Operation, correlationId: Id, id: Id, sending: Sending)
    requires CommandsOk(limits, h) && id !in h.written
    ensures CommandsOk(limits, Send(limits, h, operation, correlationId, id, sending))
  {
    var n := Send(limits, h, operation, correlationId, id, sending);
    forall c | c in n.written ensures CommandOk(n, c) { if c != id { assert CommandOk(h, c); } }
  }

  lemma RememberKeeps(limits: Limits, h: Hub, n: Hub, c: Cached)
    requires CacheOk(limits, h) && Find(h.cache, c.key).None?
    requires n.cache == Remember(h.cache, c, limits.maxResults) && h.written.Keys <= n.written.Keys
    requires c.reply.Later? ==> c.reply.id in n.written
    ensures CacheOk(limits, n)
  {
    FindNowhere(h.cache, c.key);
  }

  lemma FailAllKeeps(limits: Limits, h: Hub, outcome: Outcome)
    requires CommandsOk(limits, h) && RequestsOk(h)
    ensures CommandsOk(limits, FailAll(h, outcome)) && RequestsOk(FailAll(h, outcome))
  {
    var n := FailAll(h, outcome);
    forall c | c in n.written ensures CommandOk(n, c) { assert CommandOk(h, c); }
    forall r | r in n.answers ensures RequestOk(n, r) { assert RequestOk(h, r); }
  }

  lemma {:induction false} DroppedIs(s: seq<Id>, id: Id)
    requires forall i, j | 0 <= i < j < |s| :: s[i] != s[j]
    ensures forall x :: x in Dropped(s, id) <==> x in s && x != id
    ensures forall i, j | 0 <= i < j < |Dropped(s, id)| :: Dropped(s, id)[i] != Dropped(s, id)[j]
  {
    if s != [] {
      assert s == [s[0]] + s[1..];
      assert forall x | x in s[1..] :: x != s[0];
      if s[0] != id {
        DroppedIs(s[1..], id);
        var d := Dropped(s[1..], id);
        assert Dropped(s, id) == [s[0]] + d && s[0] !in d;
      }
    }
  }

  // What the commands, the requests and the table each depend on.
  lemma CommandsFrame(limits: Limits, h: Hub, n: Hub)
    requires CommandsOk(limits, h)
    requires n.commands == h.commands && n.written == h.written && n.outcomes == h.outcomes
    requires n.epoch == h.epoch || h.commands == map[]
    ensures CommandsOk(limits, n)
  {
    forall c | c in n.written ensures CommandOk(n, c) { assert CommandOk(h, c); }
  }

  lemma RequestsFrame(h: Hub, n: Hub)
    requires RequestsOk(h) && n.anonymous == h.anonymous && n.waiter == h.waiter && n.answers == h.answers
    ensures RequestsOk(n)
  {
    forall id | id in n.answers ensures RequestOk(n, id) { assert RequestOk(h, id); }
  }

  lemma CacheFrame(limits: Limits, h: Hub, n: Hub)
    requires CacheOk(limits, h) && (n.cache == h.cache || n.cache == []) && h.written.Keys <= n.written.Keys
    ensures CacheOk(limits, n)
  {
  }

  lemma SentKeeps(limits: Limits, h: Hub, call: Call, correlationId: Id, id: Id, sending: Sending)
    requires HubOk(limits, h) && id !in h.written
    ensures HubOk(limits, Send(limits, h, call.operation, correlationId, id, sending))
    ensures SendReply(limits, h, id, sending).Later? ==>
        id in Send(limits, h, call.operation, correlationId, id, sending).written
  {
    hide CommandsOk, RequestsOk, CacheOk;
    SendKeeps(limits, h, call.operation, correlationId, id, sending);
    var n := Send(limits, h, call.operation, correlationId, id, sending);
    RequestsFrame(h, n);
    CacheFrame(limits, h, n);
  }

  lemma CommandKeeps(limits: Limits, h: Hub, call: Call, isController: bool, correlationId: Id, id: Id,
      sending: Sending)
    requires HubOk(limits, h)
    ensures HubOk(limits, Commanded(limits, h, call, isController, correlationId, id, sending))
  {
    if id !in h.written && Reaches(h, call, isController) {
      hide CommandsOk, RequestsOk, CacheOk, Find, Remember, SendReply;
      var n := Send(limits, h, call.operation, correlationId, id, sending);
      SentKeeps(limits, h, call, correlationId, id, sending);
      assert n.cache == h.cache && h.written.Keys <= n.written.Keys;
      hide Send;
      var m := Commanded(limits, h, call, isController, correlationId, id, sending);
      if call.key.Some? {
        CommandsFrame(limits, n, m);
        RequestsFrame(n, m);
        RememberKeeps(limits, h, m, EntryOf(limits, h, call, id, sending));
      }
    }
  }

  // A new request, waiting at the end of its queue or answered at once.
  lemma NewRequestKeeps(h: Hub, n: Hub, id: Id)
    requires RequestsOk(h) && id !in h.answers
    requires id in n.answers && n.answers == h.answers[id := n.answers[id]]
    requires || (n.anonymous == h.anonymous && n.waiter == h.waiter && |n.answers[id]| == 1)
             || (n.anonymous == h.anonymous + [id] && n.waiter == h.waiter && n.answers[id] == [])
             || (n.anonymous == h.anonymous && h.waiter.None? && n.waiter == Some(id) && n.answers[id] == [])
    ensures RequestsOk(n)
  {
    assert id !in Waiting(h);
    assert forall x :: x in n.anonymous ==> x in h.anonymous || x == id;
    forall x | x in n.answers ensures RequestOk(n, x) { if x != id { assert RequestOk(h, x); } }
  }

  // A waiting request that is answered and waits no longer.
  lemma AnsweredKeeps(h: Hub, n: Hub, id: Id)
    requires RequestsOk(h) && id in Waiting(h)
    requires id in n.answers && n.answers == h.answers[id := n.answers[id]] && |n.answers[id]| == 1
    requires || (h.anonymous != [] && id == h.anonymous[0] && n.anonymous == h.anonymous[1..] && n.waiter == h.waiter)
             || (id in h.anonymous && n.anonymous == Dropped(h.anonymous, id) && n.waiter == h.waiter)
             || (n.anonymous == h.anonymous && h.waiter == Some(id) && n.waiter == None)
    ensures RequestsOk(n)
  {
    DroppedIs(h.anonymous, id);
    if h.anonymous != [] && id == h.anonymous[0] { assert Dropped(h.anonymous, id) == h.anonymous[1..]; }
    forall x | x in n.answers ensures RequestOk(n, x) { assert RequestOk(h, x); }
  }

  lemma RequestFrames(limits: Limits, h: Hub, n: Hub)
    requires HubOk(limits, h) && RequestsOk(n)
    requires n == h.(anonymous := n.anonymous, waiter := n.waiter, answers := n.answers, open := n.open)
    requires n.open ==> h.open
    requires n.anonymous != [] || n.waiter.Some? ==> h.connected && !h.disposed
    ensures HubOk(limits, n)
  {
    hide CommandsOk, RequestsOk, CacheOk;
    CommandsFrame(limits, h, n);
    CacheFrame(limits, h, n);
  }

  lemma AskKeeps(limits: Limits, h: Hub, id: Id, sending: Sending)
    requires HubOk(limits, h)
    ensures HubOk(limits, Asked(h, id, sending)) && HubOk(limits, ControlAsked(h, id, sending))
  {
    hide CommandsOk, RequestsOk, CacheOk;
    if id !in h.answers {
      NewRequestKeeps(h, Asked(h, id, sending), id);
      NewRequestKeeps(h, ControlAsked(h, id, sending), id);
      RequestFrames(limits, h, Asked(h, id, sending));
      RequestFrames(limits, h, ControlAsked(h, id, sending));
    }
  }

  lemma AskEndKeeps(limits: Limits, h: Hub, id: Id)
    requires HubOk(limits, h)
    ensures HubOk(limits, AskEnded(h, id))
  {
    hide CommandsOk, RequestsOk, CacheOk, Dropped;
    if id in h.anonymous {
      AnsweredKeeps(h, AskEnded(h, id), id);
      RequestFrames(limits, h, AskEnded(h, id));
    }
  }

  lemma ControlEndKeeps(limits: Limits, h: Hub, socket: nat, data: Id)
    requires HubOk(limits, h)
    ensures HubOk(limits, ControlEnded(h)) && HubOk(limits, ControlHeard(h, socket, data))
  {
    hide CommandsOk, RequestsOk, CacheOk, Dropped;
    if h.waiter.Some? {
      AnsweredKeeps(h, ControlEnded(h), h.waiter.value);
      RequestFrames(limits, h, ControlEnded(h));
      if socket == h.epoch && !h.disposed {
        AnsweredKeeps(h, ControlHeard(h, socket, data), h.waiter.value);
        RequestFrames(limits, h, ControlHeard(h, socket, data));
      }
    }
  }

  lemma ResponseKeeps(limits: Limits, h: Hub, socket: nat, to: Option<Id>, data: Id)
    requires HubOk(limits, h)
    ensures HubOk(limits, Responded(h, socket, to, data))
  {
    hide CommandsOk, RequestsOk, CacheOk, Dropped, Settled;
    if to.Some? {
      if to.value in h.commands { SettledStepKeeps(limits, h, to.value, Answered(data)); }
    } else if Responded(h, socket, to, data) != h {
      AnsweredKeeps(h, Responded(h, socket, to, data), h.anonymous[0]);
      RequestFrames(limits, h, Responded(h, socket, to, data));
    }
  }

  lemma SettledStepKeeps(limits: Limits, h: Hub, id: Id, outcome: Outcome)
    requires HubOk(limits, h) && id in h.commands
    ensures HubOk(limits, Settled(h, id, outcome))
  {
    hide CommandsOk, RequestsOk, CacheOk;
    SettledKeeps(limits, h, id, outcome);
    RequestsFrame(h, Settled(h, id, outcome));
    CacheFrame(limits, h, Settled(h, id, outcome));
  }

  lemma ReadyKeeps(limits: Limits, h: Hub, n: Hub)
    requires HubOk(limits, h) && (n == Ready(h) || n == h.(open := false))
    ensures HubOk(limits, n)
  {
    hide CommandsOk, RequestsOk, CacheOk;
    CommandsFrame(limits, h, n);
    RequestsFrame(h, n);
    CacheFrame(limits, h, n);
  }

  lemma StepKeeps(limits: Limits, h: Hub, step: Step)
    requires HubOk(limits, h)
    ensures HubOk(limits, Do(limits, h, step))
  {
    hide HubOk, Commanded, Responded, Asked, ControlAsked, AskEnded, ControlEnded, ControlHeard, Ready, Failed, Settled;
    match step
    case Command(call, isController, correlationId, id, sending) =>
      CommandKeeps(limits, h, call, isController, correlationId, id, sending);
    case Response(socket, to, data) => ResponseKeeps(limits, h, socket, to, data);
    case TreeAnswer(_, id, result) => if id in h.commands { SettledStepKeeps(limits, h, id, TreeOutcome(result)); }
    case Timeout(id) => if id in h.commands { SettledStepKeeps(limits, h, id, TimedOut); }
    case Ask(id, sending) => AskKeeps(limits, h, id, sending);
    case AskTimeout(id) => AskEndKeeps(limits, h, id);
    case Control(id, sending) => AskKeeps(limits, h, id, sending);
    case ControlFrame(socket, data) => ControlEndKeeps(limits, h, socket, data);
    case ControlTimeout => ControlEndKeeps(limits, h, 0, 0);
    case Closing(_) => ReadyKeeps(limits, h, h.(open := false));
    case Disconnect(socket) => if Lost(h, socket) != h { ClosingKeeps(limits, h, Lost(h, socket), ConnectionLost); }
    case Connect => ReadyKeeps(limits, h, Ready(h));
    case Dispose => if !h.disposed { ClosingKeeps(limits, h, Ended(h), Closed); }
  }

  lemma ClosingKeeps(limits: Limits, h: Hub, n: Hub, outcome: Outcome)
    requires HubOk(limits, h)
    requires n == FailAll(h, outcome).(connected := false, open := false, disposed := n.disposed, cache := n.cache)
    requires n.cache == h.cache || n.cache == []
    ensures HubOk(limits, n)
  {
    hide CommandsOk, RequestsOk, CacheOk;
    var m := FailAll(h, outcome);
    FailAllKeeps(limits, h, outcome);
    CommandsFrame(limits, m, n);
    RequestsFrame(m, n);
    CacheFrame(limits, h, n);
  }

  // Nothing written is written again, and nothing settled is settled again.
  predicate Grows(h: Hub, n: Hub) {
    && (forall id | id in h.written :: id in n.written && n.written[id] == h.written[id])
    && (forall id | id in h.outcomes && h.outcomes[id] != [] :: id in n.outcomes && n.outcomes[id] == h.outcomes[id])
    && (forall id | id in h.answers && h.answers[id] != [] :: id in n.answers && n.answers[id] == h.answers[id])
    && h.outcomes.Keys <= n.outcomes.Keys && h.answers.Keys <= n.answers.Keys
  }

  lemma GrowsOn(a: Hub, b: Hub, c: Hub)
    requires Grows(a, b) && Grows(b, c)
    ensures Grows(a, c)
  {
  }

  // What is in flight has not been settled.
  lemma Unsettled(limits: Limits, h: Hub)
    requires HubOk(limits, h)
    ensures forall id | id in h.commands :: id in h.outcomes && h.outcomes[id] == []
    ensures forall id | id in Waiting(h) :: id in h.answers && h.answers[id] == []
    ensures h.written.Keys == h.outcomes.Keys
  {
    forall id | id in h.commands ensures id in h.outcomes && h.outcomes[id] == [] { assert CommandOk(h, id); }
    forall id | id in Waiting(h) ensures id in h.answers && h.answers[id] == [] { assert RequestOk(h, id); }
  }

  lemma FailAllGrows(h: Hub, outcome: Outcome)
    requires forall id | id in h.commands :: id in h.outcomes && h.outcomes[id] == []
    requires forall id | id in Waiting(h) :: id in h.answers && h.answers[id] == []
    ensures Grows(h, FailAll(h, outcome))
  {
  }

  lemma AnswerGrows(h: Hub, n: Hub, id: Id)
    requires n.written == h.written && n.outcomes == h.outcomes
    requires id in n.answers && n.answers == h.answers[id := n.answers[id]] && (id in h.answers ==> h.answers[id] == [])
    ensures Grows(h, n)
  {
  }

  lemma AskGrows(h: Hub, id: Id, sending: Sending)
    ensures Grows(h, Asked(h, id, sending)) && Grows(h, ControlAsked(h, id, sending))
  {
    hide Grows;
    if id in h.answers {
      GrowsItself(h);
    } else {
      AnswerGrows(h, Asked(h, id, sending), id);
      AnswerGrows(h, ControlAsked(h, id, sending), id);
    }
  }

  // What waits is answered once.
  lemma WaitingGrows(h: Hub, n: Hub, id: Id)
    requires id in Waiting(h) && id in h.answers && h.answers[id] == []
    requires n.written == h.written && n.outcomes == h.outcomes
    requires id in n.answers && n.answers == h.answers[id := n.answers[id]]
    ensures Grows(h, n)
  {
    hide Grows, Waiting;
    AnswerGrows(h, n, id);
  }

  ghost predicate AllWait(h: Hub) { forall id | id in Waiting(h) :: id in h.answers && h.answers[id] == [] }

  lemma AskEndGrows(h: Hub, id: Id)
    requires AllWait(h)
    ensures Grows(h, AskEnded(h, id))
  {
    hide Grows, Dropped;
    if id in h.anonymous {
      assert id in Waiting(h);
      WaitingGrows(h, AskEnded(h, id), id);
    } else {
      GrowsItself(h);
    }
  }

  lemma ControlGrows(h: Hub, socket: nat, data: Id)
    requires AllWait(h)
    ensures Grows(h, ControlEnded(h)) && Grows(h, ControlHeard(h, socket, data))
  {
    hide Grows;
    GrowsItself(h);
    if h.waiter.Some? {
      assert h.waiter.value in Waiting(h);
      WaitingGrows(h, ControlEnded(h), h.waiter.value);
      if ControlHeard(h, socket, data) != h { WaitingGrows(h, ControlHeard(h, socket, data), h.waiter.value); }
    }
  }

  lemma ResponseGrows(h: Hub, socket: nat, to: Option<Id>, data: Id)
    requires AllWait(h) && forall id | id in h.commands :: id in h.outcomes && h.outcomes[id] == []
    ensures Grows(h, Responded(h, socket, to, data))
  {
    hide Grows, Settled;
    GrowsItself(h);
    if to.Some? {
      if to.value in h.commands { SettledGrows(h, to.value, Answered(data)); }
    } else if h.anonymous != [] {
      assert h.anonymous[0] in Waiting(h);
      if Responded(h, socket, to, data) != h { WaitingGrows(h, Responded(h, socket, to, data), h.anonymous[0]); }
    }
  }

  lemma SendGrows(limits: Limits, h: Hub, operation: Operation, correlationId: Id, id: Id, sending: Sending)
    requires h.written.Keys == h.outcomes.Keys && id !in h.written
    ensures Grows(h, Send(limits, h, operation, correlationId, id, sending))
  {
  }

  lemma CommandGrows(limits: Limits, h: Hub, call: Call, isController: bool, correlationId: Id, id: Id,
      sending: Sending)
    requires h.written.Keys == h.outcomes.Keys
    ensures Grows(h, Commanded(limits, h, call, isController, correlationId, id, sending))
  {
    hide Send, Remember, Find;
    if id !in h.written && Reaches(h, call, isController) {
      SendGrows(limits, h, call.operation, correlationId, id, sending);
    }
  }

  lemma SettledGrows(h: Hub, id: Id, outcome: Outcome)
    requires id in h.outcomes && h.outcomes[id] == []
    ensures Grows(h, Settled(h, id, outcome))
  {
  }

  // Losing the socket, or ending, fails what is in flight and nothing else.
  lemma EndGrows(h: Hub, socket: nat)
    requires AllWait(h) && forall id | id in h.commands :: id in h.outcomes && h.outcomes[id] == []
    ensures Grows(h, Lost(h, socket)) && Grows(h, Ended(h))
  {
    GrowsItself(h);
    FailAllGrows(h, ConnectionLost);
    FailAllGrows(h, Closed);
    hide Grows, FailAll;
    if Lost(h, socket) != h {
      SameRecords(FailAll(h, ConnectionLost), Lost(h, socket));
      GrowsOn(h, FailAll(h, ConnectionLost), Lost(h, socket));
    }
    if Ended(h) != h {
      SameRecords(FailAll(h, Closed), Ended(h));
      GrowsOn(h, FailAll(h, Closed), Ended(h));
    }
  }

  lemma CommandStepGrows(limits: Limits, h: Hub, step: Step)
    requires AllWait(h) && h.written.Keys == h.outcomes.Keys
    requires forall id | id in h.commands :: id in h.outcomes && h.outcomes[id] == []
    ensures step.Command? || step.Response? || step.TreeAnswer? || step.Timeout? ==> Grows(h, Do(limits, h, step))
  {
    GrowsItself(h);
    hide Grows, Commanded, Responded, Settled, AllWait;
    match step
    case Command(call, isController, correlationId, id, sending) =>
      CommandGrows(limits, h, call, isController, correlationId, id, sending);
    case Response(socket, to, data) => ResponseGrows(h, socket, to, data);
    case TreeAnswer(_, id, result) => if id in h.commands { SettledGrows(h, id, TreeOutcome(result)); }
    case Timeout(id) => if id in h.commands { SettledGrows(h, id, TimedOut); }
    case _ =>
  }

  lemma StepGrows(limits: Limits, h: Hub, step: Step)
    requires HubOk(limits, h)
    ensures Grows(h, Do(limits, h, step))
  {
    Unsettled(limits, h);
    hide HubOk, Grows, Commanded, Responded, TreeAnswered, Settled, Asked, ControlAsked, AskEnded, ControlEnded,
      ControlHeard, Lost, Ended, Waiting;
    match step
    case Ask(id, sending) => AskGrows(h, id, sending);
    case AskTimeout(id) => AskEndGrows(h, id);
    case Control(id, sending) => AskGrows(h, id, sending);
    case ControlFrame(socket, data) => ControlGrows(h, socket, data);
    case ControlTimeout => ControlGrows(h, 0, 0);
    case Closing(_) => SameRecords(h, h.(open := false)); GrowsItself(h);
    case Disconnect(socket) => EndGrows(h, socket);
    case Connect => SameRecords(h, Ready(h));
    case Dispose => EndGrows(h, 0);
    case _ => CommandStepGrows(limits, h, step);
  }

  lemma SameRecords(h: Hub, n: Hub)
    requires n.written == h.written && n.outcomes == h.outcomes && n.answers == h.answers
    ensures Grows(h, n)
  {
  }

  lemma GrowsItself(h: Hub)
    ensures Grows(h, h)
  {
  }

  // In every run a command is written to one socket at most and never again, and what was
  // settled stays settled as it was, across any number of reconnects.
  lemma {:induction false} RunGrows(limits: Limits, h: Hub, steps: seq<Step>)
    requires HubOk(limits, h)
    ensures HubOk(limits, Runs(limits, h, steps)) && Grows(h, Runs(limits, h, steps))
    decreases |steps|
  {
    if steps != [] {
      var m := Runs(limits, h, steps[..|steps| - 1]);
      RunGrows(limits, h, steps[..|steps| - 1]);
      hide HubOk, Do;
      StepKeeps(limits, m, steps[|steps| - 1]);
      StepGrows(limits, m, steps[|steps| - 1]);
      GrowsOn(h, m, Do(limits, m, steps[|steps| - 1]));
    }
  }

  // Once the socket's close was seen and until the next one is ready, every request ever made
  // has exactly one outcome. While a socket is only closing, requests are refused as
  // unavailable although earlier ones are still in flight.
  lemma AllSettled(limits: Limits, h: Hub, id: Id)
    requires HubOk(limits, h) && !h.connected
    ensures id in h.written ==> id in h.outcomes && |h.outcomes[id]| == 1 && |h.written[id]| <= 1
    ensures id in h.answers ==> |h.answers[id]| == 1
  {
    if id in h.written { assert CommandOk(h, id); }
    if id in h.answers { assert RequestOk(h, id); }
  }

  // ---- Rejections are remembered, for so long ------------------------------------------------

  // The step adds an entry to the table of results.
  predicate Adds(h: Hub, step: Step) {
    step.Command? && step.id !in h.written && Reaches(h, step.call, step.isController) && step.call.key.Some?
  }

  // Everything remembered along a run, in order.
  function Remembered(limits: Limits, h: Hub, steps: seq<Step>): seq<Cached>
    decreases |steps|
  {
    if steps == [] then []
    else
      var but, last := steps[..|steps| - 1], steps[|steps| - 1];
      var m := Runs(limits, h, but);
      Remembered(limits, h, but) + if Adds(m, last) then [EntryOf(limits, m, last.call, last.id, last.sending)] else []
  }

  lemma StaysDisposed(limits: Limits, h: Hub, step: Step)
    ensures h.disposed ==> Do(limits, h, step).disposed
    ensures Do(limits, h, step).disposed
         || Do(limits, h, step).cache == if Adds(h, step)
                                         then Remember(h.cache, EntryOf(limits, h, step.call, step.id,
                                             step.sending), limits.maxResults)
                                         else h.cache
  {
  }

  // The table holds the newest of what it held and what was remembered since.
  lemma {:induction false} CacheIsNewest(limits: Limits, h: Hub, steps: seq<Step>)
    requires HubOk(limits, h) && !Runs(limits, h, steps).disposed
    ensures Runs(limits, h, steps).cache == Newest(h.cache + Remembered(limits, h, steps), Room(limits))
    decreases |steps|
  {
    if steps == [] {
      assert h.cache + [] == h.cache;
    } else {
      hide HubOk, Grows, Do, EntryOf;
      var but, last := steps[..|steps| - 1], steps[|steps| - 1];
      var m := Runs(limits, h, but);
      StaysDisposed(limits, m, last);
      RunGrows(limits, h, but);
      CacheIsNewest(limits, h, but);
      var before := h.cache + Remembered(limits, h, but);
      if Adds(m, last) {
        var c := EntryOf(limits, m, last.call, last.id, last.sending);
        RememberKeepsNewest(m.cache, c, limits);
        NewestOfNewest(before, c, Room(limits));
        assert before + [c] == h.cache + Remembered(limits, h, steps);
      } else {
        assert before == h.cache + Remembered(limits, h, steps);
      }
    }
  }

  // What an entry that was just added finds, once `more` were added after it.
  lemma FoundWhileKept(limits: Limits, cache: seq<Cached>, c: Cached, more: seq<Cached>)
    requires forall i | 0 <= i < |cache| :: cache[i].key != c.key
    requires forall i | 0 <= i < |more| :: more[i].key != c.key
    ensures
      var now := Newest(cache + [c] + more, Room(limits));
      Find(now, c.key) == if |more| < Room(limits) then Some(c) else None
  {
    var all := cache + [c] + more;
    var now := Newest(all, Room(limits));
    assert all[|cache|] == c;
    if |more| < Room(limits) {
      var i := |cache| - (|all| - |now|);
      assert now[i] == c;
      forall j | 0 <= j < |now| && j != i ensures now[j].key != c.key { assert now[j] == all[j + |all| - |now|]; }
      FindAt(now, i);
    } else {
      forall j | 0 <= j < |now| ensures now[j].key != c.key { assert now[j] == all[j + |all| - |now|]; }
      FindNowhere(now, c.key);
    }
  }

  // A command under a fresh key, and any run after it in which that key is not new again.
  ghost predicate Followed(limits: Limits, h: Hub, first: Step, steps: seq<Step>) {
    && HubOk(limits, h) && Adds(h, first)
    && !Runs(limits, Do(limits, h, first), steps).disposed
    && forall c | c in Remembered(limits, Do(limits, h, first), steps) :: c.key != first.call.key.value
  }

  lemma KeptAfter(limits: Limits, h: Hub, first: Step, steps: seq<Step>)
    requires Followed(limits, h, first, steps)
    ensures
      var a := Do(limits, h, first);
      Find(Runs(limits, a, steps).cache, first.call.key.value)
      == if |Remembered(limits, a, steps)| < Room(limits)
         then Some(EntryOf(limits, h, first.call, first.id, first.sending)) else None
  {
    var a, c := Do(limits, h, first), EntryOf(limits, h, first.call, first.id, first.sending);
    var more := Remembered(limits, a, steps);
    StepKeeps(limits, h, first);
    CacheIsNewest(limits, a, steps);
    FindNowhere(h.cache, c.key);
    RememberKeepsNewest(h.cache, c, limits);
    NewestTwice(h.cache + [c], more, Room(limits));
    FoundWhileKept(limits, h.cache, c, more);
  }

  lemma {:induction false} NewestTwice(a: seq<Cached>, more: seq<Cached>, n: nat)
    requires n > 0
    ensures Newest(Newest(a, n) + more, n) == Newest(a + more, n)
  {
  }

  // A key that was remembered is remembered again only after it was forgotten.
  lemma {:induction false} KeyReturnsLate(limits: Limits, h: Hub, first: Step, steps: seq<Step>, i: nat)
    requires HubOk(limits, h) && Adds(h, first)
    requires i < |Remembered(limits, Do(limits, h, first), steps)|
    requires Remembered(limits, Do(limits, h, first), steps)[i].key == first.call.key.value
    ensures i >= Room(limits)
    decreases |steps|
  {
    var but, last := steps[..|steps| - 1], steps[|steps| - 1];
    var a := Do(limits, h, first);
    var before := Remembered(limits, a, but);
    if i < |before| {
      KeyReturnsLate(limits, h, first, but, i);
    } else if c :| c in before && c.key == first.call.key.value {
      var j :| 0 <= j < |before| && before[j] == c;
      KeyReturnsLate(limits, h, first, but, j);
    } else {
      assert !Runs(limits, a, but).disposed;
      KeptAfter(limits, h, first, but);
    }
  }

  // A rejection for lack of capacity or of a connection is what the same command gets
  // again, without a frame being written, exactly until as many other keys as the table
  // has room for were remembered. After that the retry reaches #sendCommand, unless one in
  // between did already.
  lemma RejectionIsRemembered(limits: Limits, h: Hub, first: Step, steps: seq<Step>, again: Step)
    requires HubOk(limits, h) && Adds(h, first)
    requires SendReply(limits, h, first.id, first.sending) in {Now(CapacityReached), Now(Unavailable)}
    requires again.Command? && again.call == first.call && (again.isController || again.call.readOnly)
    requires !Runs(limits, Do(limits, h, first), steps).disposed
    ensures
      var a := Do(limits, h, first);
      var n, others := Runs(limits, a, steps), Remembered(limits, a, steps);
      if |others| < Room(limits)
      then CommandReply(limits, n, again.call, again.isController, again.id, again.sending)
           == Ok(SendReply(limits, h, first.id, first.sending))
           && Do(limits, n, again) == n
      else Reaches(n, again.call, again.isController) || exists c | c in others :: c.key == first.call.key.value
  {
    var a, key := Do(limits, h, first), first.call.key.value;
    var others := Remembered(limits, a, steps);
    if forall c | c in others :: c.key != key {
      KeptAfter(limits, h, first, steps);
    } else {
      var c :| c in others && c.key == key;
      var i :| 0 <= i < |others| && others[i] == c;
      KeyReturnsLate(limits, h, first, steps, i);
    }
  }

  lemma WhyRejected(limits: Limits, h: Hub, id: Id, sending: Sending)
    ensures SendReply(limits, h, id, sending) == Now(CapacityReached) <==> |h.commands| >= limits.maxInFlight
    ensures SendReply(limits, h, id, sending) == Now(Unavailable) <==> |h.commands| < limits.maxInFlight && !h.open
  {
  }

  // What a command that gets as far as #sendCommand is answered.
  lemma ReachedReply(limits: Limits, h: Hub, call: Call, isController: bool, id: Id, sending: Sending)
    ensures
      var reply := CommandReply(limits, h, call, isController, id, sending);
      Reaches(h, call, isController) ==>
        && reply == Ok(SendReply(limits, h, id, sending))
        && (reply == Ok(Now(CapacityReached)) <==> |h.commands| >= limits.maxInFlight)
        && (reply == Ok(Now(Unavailable)) <==> |h.commands| < limits.maxInFlight && !h.open)
  {
    WhyRejected(limits, h, id, sending);
  }

  // ---- The hub as the object it is ------------------------------------------------------------

  class RemoteRichHub {
    const limits: Limits
    var commands: map<Id, Pending>
    var cache: seq<Cached>
    var anonymous: seq<Id>
    var waiter: Option<Id>
    var epoch: nat
    var connected: bool
    var open: bool
    var disposed: bool
    ghost var written: map<Id, seq<nat>>
    ghost var outcomes: map<Id, seq<Outcome>>
    ghost var answers: map<Id, seq<Outcome>>

    ghost function Abstract(): Hub
      reads this
    {
      Hub(commands, cache, anonymous, waiter, epoch, connected, open, disposed, written, outcomes, answers)
    }

    ghost predicate Valid()
      reads this
    {
      HubOk(limits, Abstract())
    }

    constructor (limits: Limits)
      ensures Valid() && Abstract() == FRESH_HUB && this.limits == limits
    {
      this.limits := limits;
      commands, cache, anonymous, waiter := map[], [], [], None;
      epoch, connected, open, disposed := 0, false, false, false;
      written, outcomes, answers := map[], map[], map[];
      new;
      FreshIsOk(limits);
    }

    // Resolve a command's promise and take it out of the table.
    method Settle(id: Id, outcome: Outcome)
      requires id in commands
      modifies this`commands, this`outcomes
      ensures Abstract() == Settled(old(Abstract()), id, outcome)
    {
      commands := commands - {id};
      outcomes := outcomes[id := [outcome]];
    }

    // #sendCommand (lines 689-767); the id is a fresh random one.
    method SendCommand(operation: Operation, correlationId: Id, id: Id, sending: Sending) returns (reply: Reply)
      requires id !in written && commands.Keys <= written.Keys
      modifies this`commands, this`written, this`outcomes
      ensures reply == SendReply(limits, old(Abstract()), id, sending)
      ensures Abstract() == Send(limits, old(Abstract()), operation, correlationId, id, sending)
    {
      if |commands| >= limits.maxInFlight { return Now(CapacityReached); }
      if !open { return Now(Unavailable); }
      commands := commands[id := Pending(operation, correlationId)];
      if sending.Written? {
        written := written[id := [epoch]];
        outcomes := outcomes[id := []];
        return Later(id);
      }
      written := written[id := []];
      outcomes := outcomes[id := [RefusalOf(sending)]];
      commands := commands - {id};
      assert commands == old(commands);
      reply := Now(RefusalOf(sending));
    }

    // command (lines 210-251).
    method Command(call: Call, isController: bool, correlationId: Id, id: Id, sending: Sending)
      returns (reply: Result<Reply, Outcome>)
      requires Valid() && id !in written
      modifies this`commands, this`written, this`outcomes, this`cache
      ensures Valid()
      ensures Abstract() == Do(limits, old(Abstract()), Step.Command(call, isController, correlationId, id, sending))
      ensures reply == CommandReply(limits, old(Abstract()), call, isController, id, sending)
      ensures old(Reaches(Abstract(), call, isController)) ==>
                && (reply == Ok(Now(CapacityReached)) <==> |old(commands)| >= limits.maxInFlight)
                && (reply == Ok(Now(Unavailable)) <==> |old(commands)| < limits.maxInFlight && !old(open))
    {
      ghost var h := Abstract();
      StepKeeps(limits, h, Step.Command(call, isController, correlationId, id, sending));
      ReachedReply(limits, h, call, isController, id, sending);
      assert commands.Keys <= written.Keys;
      hide HubOk, Send, SendReply, Find, Remember, EntryOf;
      if disposed { return Err(Closed); }
      if !isController && !call.readOnly { return Ok(Now(ControllerRequired)); }
      if call.key.Some? {
        var known := FindCached(call.key.value);
        if known.Some? {
          return Ok(if known.value.fingerprint == call.fingerprint then known.value.reply
              else Now(IdempotencyConflict));
        }
      }
      assert Reaches(h, call, isController);
      hide Reaches, CommandReply;
      var sent := SendRemembered(call, correlationId, id, sending);
      reply := Ok(sent);
    }

    // The command is sent and its promise remembered (lines 242-250).
    method SendRemembered(call: Call, correlationId: Id, id: Id, sending: Sending) returns (sent: Reply)
      requires id !in written && commands.Keys <= written.Keys
      modifies this`commands, this`written, this`outcomes, this`cache
      ensures sent == SendReply(limits, old(Abstract()), id, sending)
      ensures
        var n := Send(limits, old(Abstract()), call.operation, correlationId, id, sending);
        Abstract() == if call.key.None? then n
                      else n.(cache := Remember(old(cache), EntryOf(limits, old(Abstract()), call, id, sending),
                          limits.maxResults))
    {
      hide Remember;
      sent := SendCommand(call.operation, correlationId, id, sending);
      if call.key.Some? {
        cache := Remember(cache, Cached(call.key.value, call.fingerprint, sent), limits.maxResults);
      }
    }

    method FindCached(key: Id) returns (known: Option<Cached>)
      ensures known == Find(cache, key)
    {
      var i := 0;
      while i < |cache|
        invariant 0 <= i <= |cache| && Find(cache[i..], key) == Find(cache, key)
      {
        assert cache[i..][1..] == cache[i + 1..];
        if cache[i].key == key { return Some(cache[i]); }
        i := i + 1;
      }
      known := None;
    }

    // #onResponse (lines 561-579): a response without an id answers the oldest extension answer.
    method OnResponse(socket: nat, to: Option<Id>, data: Id)
      requires Valid()
      modifies this`commands, this`outcomes, this`anonymous, this`answers
      ensures Valid() && Abstract() == Do(limits, old(Abstract()), Response(socket, to, data))
    {
      hide HubOk, CommandsOk, RequestsOk, CacheOk, Dropped;
      StepKeeps(limits, Abstract(), Response(socket, to, data));
      if socket != epoch || disposed { return; }
      if to.Some? {
        if to.value in commands { Settle(to.value, Answered(data)); }
      } else if anonymous != [] {
        answers := answers[anonymous[0] := [Answered(data)]];
        anonymous := anonymous[1..];
      }
    }

    // #onTreeNavigateResult (lines 581-604).
    method OnTreeNavigateResult(socket: nat, to: Id, result: TreeResult)
      requires Valid()
      modifies this`commands, this`outcomes
      ensures Valid() && Abstract() == Do(limits, old(Abstract()), TreeAnswer(socket, to, result))
    {
      hide HubOk, CommandsOk, RequestsOk, CacheOk, Dropped;
      StepKeeps(limits, Abstract(), TreeAnswer(socket, to, result));
      if socket != epoch || disposed || to !in commands || !commands[to].operation.NavigateTree? { return; }
      if result.TreeError? {
        Settle(to, Refused(result.error));
      } else if result.TreeMissing? {
        Settle(to, ProtocolError);
      } else {
        Settle(to, Answered(result.data));
      }
    }

    // A command's timer (lines 710-721): it fires into nothing once the command left.
    method OnTimeout(id: Id)
      requires Valid()
      modifies this`commands, this`outcomes
      ensures Valid() && Abstract() == Do(limits, old(Abstract()), Timeout(id))
    {
      hide HubOk, CommandsOk, RequestsOk, CacheOk, Dropped;
      StepKeeps(limits, Abstract(), Timeout(id));
      if id in commands { Settle(id, TimedOut); }
    }

    // The request of an extension answer (lines 323-350).
    method AskExtension(id: Id, sending: Sending)
      requires Valid() && id !in answers
      modifies this`anonymous, this`answers
      ensures Valid() && Abstract() == Do(limits, old(Abstract()), Ask(id, sending))
    {
      hide HubOk, CommandsOk, RequestsOk, CacheOk, Dropped;
      StepKeeps(limits, Abstract(), Ask(id, sending));
      if !open { answers := answers[id := [if disposed then Closed else Unavailable]]; return; }
      anonymous := anonymous + [id];
      answers := answers[id := []];
      if !sending.Written? {
        anonymous := anonymous[..|anonymous| - 1];
        answers := answers[id := [RefusalOf(sending)]];
        assert anonymous == old(anonymous) && answers == old(answers)[id := [RefusalOf(sending)]];
      }
    }

    // Its timer (lines 328-335), which terminates the socket.
    method OnAskTimeout(id: Id)
      requires Valid() && id in anonymous
      modifies this`anonymous, this`answers, this`open
      ensures Valid() && Abstract() == Do(limits, old(Abstract()), AskTimeout(id))
    {
      hide HubOk, CommandsOk, RequestsOk, CacheOk, Dropped;
      StepKeeps(limits, Abstract(), AskTimeout(id));
      anonymous := Dropped(anonymous, id);
      open := false;
      answers := answers[id := [TimedOut]];
    }

    // #sendControl (lines 775-803).
    method SendControl(id: Id, sending: Sending)
      requires Valid() && id !in answers
      modifies this`waiter, this`answers
      ensures Valid() && Abstract() == Do(limits, old(Abstract()), Control(id, sending))
    {
      hide HubOk, CommandsOk, RequestsOk, CacheOk, Dropped;
      StepKeeps(limits, Abstract(), Control(id, sending));
      if !open { answers := answers[id := [if disposed then Closed else Unavailable]]; return; }
      if waiter.Some? { answers := answers[id := [ControlBusy]]; return; }
      waiter := Some(id);
      answers := answers[id := []];
      if !sending.Written? {
        waiter := None;
        answers := answers[id := [RefusalOf(sending)]];
        assert answers == old(answers)[id := [RefusalOf(sending)]];
      }
    }

    // Its timer (lines 785-794), which terminates the socket.
    method OnControlTimeout()
      requires Valid() && waiter.Some?
      modifies this`waiter, this`answers, this`open
      ensures Valid() && Abstract() == Do(limits, old(Abstract()), ControlTimeout)
    {
      hide HubOk, CommandsOk, RequestsOk, CacheOk, Dropped;
      StepKeeps(limits, Abstract(), ControlTimeout);
      answers := answers[waiter.value := [TimedOut]];
      waiter := None;
      open := false;
    }

    // The socket is being closed from this side; its close event is still to come.
    method OnClosing(socket: nat)
      requires Valid()
      modifies this`open
      ensures Valid() && Abstract() == Do(limits, old(Abstract()), Closing(socket))
    {
      hide HubOk, CommandsOk, RequestsOk, CacheOk, Dropped;
      StepKeeps(limits, Abstract(), Closing(socket));
      if socket == epoch { open := false; }
    }

    // #onControl, as far as the waiter goes (lines 606-617).
    method OnControl(socket: nat, data: Id)
      requires Valid()
      modifies this`waiter, this`answers
      ensures Valid() && Abstract() == Do(limits, old(Abstract()), ControlFrame(socket, data))
    {
      hide HubOk, CommandsOk, RequestsOk, CacheOk, Dropped;
      StepKeeps(limits, Abstract(), ControlFrame(socket, data));
      if socket == epoch && !disposed && waiter.Some? {
        answers := answers[waiter.value := [Answered(data)]];
        waiter := None;
      }
    }

    // #failInFlight (lines 875-894): the commands, the extension answers, the control waiter.
    method FailInFlight(outcome: Outcome)
      modifies this`commands, this`outcomes, this`anonymous, this`waiter, this`answers
      requires commands.Keys <= outcomes.Keys && Waiting(Abstract()) <= answers.Keys
      ensures Abstract() == FailAll(old(Abstract()), outcome)
    {
      ghost var asked, was := IdsOf(anonymous), answers;
      assert forall id | id in anonymous :: id in asked && id in answers by { assert asked <= Waiting(Abstract()); }
      assert waiter.Some? ==> waiter.value in answers;
      hide Failed, Waiting;
      FailCommands(outcome);
      FailAnonymous(outcome);
      if waiter.Some? {
        FailedOne(was, asked, waiter.value, outcome);
        answers := answers[waiter.value := [outcome]];
        waiter := None;
      }
      WaitingIs(old(Abstract()));
    }

    method FailAnonymous(outcome: Outcome)
      modifies this`anonymous, this`answers
      requires forall id | id in anonymous :: id in answers
      ensures anonymous == [] && answers == Failed(old(answers), IdsOf(old(anonymous)), outcome)
    {
      ghost var was, gone: set<Id> := answers, {};
      assert Failed(was, gone, outcome) == was;
      var rest := anonymous;
      while rest != []
        modifies this`answers
        invariant answers == Failed(was, gone, outcome)
        invariant forall id :: id in anonymous <==> id in gone || id in rest
        decreases |rest|
      {
        assert rest[0] in anonymous && rest == [rest[0]] + rest[1..];
        FailedOne(was, gone, rest[0], outcome);
        gone := gone + {rest[0]};
        answers := answers[rest[0] := [outcome]];
        rest := rest[1..];
      }
      assert gone == IdsOf(anonymous);
      anonymous := [];
    }

    method FailCommands(outcome: Outcome)
      modifies this`commands, this`outcomes
      requires commands.Keys <= outcomes.Keys
      ensures commands == map[] && outcomes == Failed(old(outcomes), old(commands).Keys, outcome)
    {
      ghost var was, gone: set<Id> := outcomes, {};
      assert Failed(was, gone, outcome) == was;
      while commands != map[]
        invariant outcomes == Failed(was, gone, outcome) && commands.Keys <= was.Keys
        invariant forall id :: id in old(commands) <==> id in commands || id in gone
        decreases |commands|
      {
        var id :| id in commands;
        assert (commands - {id}).Keys == commands.Keys - {id};
        FailedOne(was, gone, id, outcome);
        gone := gone + {id};
        Settle(id, outcome);
      }
      assert gone == old(commands).Keys;
    }

    // The socket of `socket` closed (lines 470-471, 628-638).
    method OnDisconnect(socket: nat)
      requires Valid()
      modifies this`commands, this`outcomes, this`anonymous, this`waiter, this`answers, this`connected, this`open
      ensures Valid() && Abstract() == Do(limits, old(Abstract()), Disconnect(socket))
    {
      assert commands.Keys <= outcomes.Keys && Waiting(Abstract()) <= answers.Keys;
      hide HubOk, CommandsOk, RequestsOk, CacheOk, Dropped;
      StepKeeps(limits, Abstract(), Disconnect(socket));
      if socket != epoch || disposed { return; }
      FailInFlight(ConnectionLost);
      connected, open := false, false;
    }

    // #connect and its attach_ready frame: a new socket, and nothing in flight on it.
    method OnReady()
      requires Valid()
      modifies this`epoch, this`connected, this`open
      ensures Valid() && Abstract() == Do(limits, old(Abstract()), Connect)
    {
      hide HubOk, CommandsOk, RequestsOk, CacheOk, Dropped;
      StepKeeps(limits, Abstract(), Connect);
      if connected || disposed { return; }
      epoch := epoch + 1;
      connected, open := true, true;
    }

    // dispose (lines 381-396).
    method Close()
      requires Valid()
      modifies this`commands, this`outcomes, this`anonymous, this`waiter, this`answers, this`connected, this`open,
               this`disposed, this`cache
      ensures Valid() && Abstract() == Do(limits, old(Abstract()), Dispose)
    {
      assert commands.Keys <= outcomes.Keys && Waiting(Abstract()) <= answers.Keys;
      hide HubOk, Waiting, Failed;
      StepKeeps(limits, Abstract(), Dispose);
      if disposed { return; }
      FailInFlight(Closed);
      disposed, connected, open, cache := true, false, false, [];
    }
  }

  lemma WaitingIs(h: Hub)
    ensures Waiting(h) == if h.waiter.Some? then IdsOf(h.anonymous) + {h.waiter.value} else IdsOf(h.anonymous)
  {
  }

  lemma FailedOne(was: map<Id, seq<Outcome>>, gone: set<Id>, id: Id, outcome: Outcome)
    requires id in was
    ensures Failed(was, gone + {id}, outcome) == Failed(was, gone, outcome)[id := [outcome]]
  {
  }
}
