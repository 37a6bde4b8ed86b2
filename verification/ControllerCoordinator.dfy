/**
 The coordinator of live controller leases: per resource a revision and its
 participants, and transfers as a release followed by a grant
 (src/dashboard-controller-coordinator.ts:49-266).

 What a participant's backend answers, and who is controller when asked, are given.
 */
module ControllerCoordinator {
  import opened Wrappers

  type Id = nat

  const MAX_RESOURCES := 1024
  const MAX_PARTICIPANTS := 64

  // A call that throws or ends indeterminate may still have changed who holds control.
  datatype Reply = Completed | Rejected | Unknown(landed: bool) | Throws(landed: bool)

  datatype Record = Record(revision: nat, participants: map<Id, Id>)

  datatype Role = Read | Control | Admin

  datatype Error =
    | ResourceCapacity
    | ParticipantCapacity
    | RevisionConflict
    | TargetUnavailable
    | TransferFailed
    | CallFailed

  // A control call to a participant's backend, with its answer.
  datatype Call = ReleaseCall(participant: Id, reply: Reply) | GrantCall(participant: Id, reply: Reply)

  function Changes(calls: seq<Call>): nat {
    if calls == [] then 0 else (if calls[0].reply.Completed? then 1 else 0) + Changes(calls[1..])
  }

  lemma {:induction false} ChangesAppend(a: seq<Call>, b: seq<Call>)
    ensures Changes(a + b) == Changes(a) + Changes(b)
  {
    if a == [] {
      assert a + b == b;
    } else {
      assert (a + b)[1..] == a[1..] + b;
      ChangesAppend(a[1..], b);
    }
  }

  // ---- Who holds control while the calls are made ---------------------------------------

  predicate Landed(reply: Reply) { reply.Completed? || ((reply.Throws? || reply.Unknown?) && reply.landed) }

  function HoldersAfter(s: set<Id>, call: Call): set<Id> {
    if !Landed(call.reply) then s else if call.ReleaseCall? then s - {call.participant} else s + {call.participant}
  }

  function Holders(s: set<Id>, calls: seq<Call>): set<Id>
    decreases |calls|
  {
    if calls == [] then s else HoldersAfter(Holders(s, calls[..|calls| - 1]), calls[|calls| - 1])
  }

  lemma HoldersOfFew(s: set<Id>, a: Call, b: Call)
    ensures Holders(s, [a]) == HoldersAfter(s, a) && Holders(s, [a, b]) == HoldersAfter(HoldersAfter(s, a), b)
  {
    assert [a][..0] == [] && [a, b][..1] == [a];
  }

  // A participant other than the current controller is granted control only right
  // after that controller's release completed.
  ghost predicate Handover(calls: seq<Call>, current: Option<Id>) {
    && |calls| <= 2
    && (forall i | 0 <= i < |calls| && calls[i].GrantCall? && current.Some? ::
          i == 1 && calls[0] == ReleaseCall(current.value, Completed) && calls[1].participant != current.value)
    && (forall i | 0 <= i < |calls| && calls[i].ReleaseCall? :: i == 0 && current == Some(calls[0].participant))
    && (current.None? ==> |calls| <= 1)
  }

  // Whatever the backends answer, a handover adds no holder: from the holders there are, the
  // one found among them, no moment of it has more of them, and with none there is one at most.
  // Once its grant completed, exactly the target took the place of the one found.
  lemma HandoverAddsNoHolder(calls: seq<Call>, current: Option<Id>, holders: set<Id>, k: nat)
    requires Handover(calls, current) && k <= |calls|
    requires if current.Some? then current.value in holders else holders == {}
    ensures |Holders(holders, calls[..k])| <= if holders == {} then 1 else |holders|
    ensures calls != [] && calls[|calls| - 1].GrantCall? && calls[|calls| - 1].reply.Completed? ==>
              Holders(holders, calls)
              == holders - (if current.Some? then {current.value} else {}) + {calls[|calls| - 1].participant}
  {
    assert calls[..0] == [] && calls[..|calls|] == calls;
    if |calls| >= 1 {
      HoldersOfFew(holders, calls[0], calls[|calls| - 1]);
      assert calls[..1] == [calls[0]];
    }
    if |calls| == 2 {
      assert calls == [calls[0], calls[1]] && calls[1].GrantCall?;
      var rest := holders - {current.value};
      assert |rest| == |holders| - 1;
      assert |rest + {calls[1].participant}| <= |rest| + 1;
    }
  }

  // The participant whose backend says controller, if any.
  ghost predicate IsCurrent(participants: map<Id, Id>, controls: Id -> bool, current: Option<Id>) {
    if current.Some? then current.value in participants && controls(current.value)
    else forall p | p in participants :: !controls(p)
  }

  // The least participant of an identity.
  ghost predicate IsLeast(participants: map<Id, Id>, identity: Id, target: Option<Id>) {
    if target.Some? then
      target.value in participants && participants[target.value] == identity
      && forall p | p in participants && participants[p] == identity :: target.value <= p
    else forall p | p in participants :: participants[p] != identity
  }

  // The named participant, if it is the identity's; without a name the least one.
  ghost predicate IsTarget(participants: map<Id, Id>, identity: Id, named: Option<Id>, target: Option<Id>) {
    if named.None? then IsLeast(participants, identity, target)
    else if target.Some? then target == named && target.value in participants && participants[target.value] == identity
    else named.value !in participants || participants[named.value] != identity
  }

  // The record a serialized operation works on: it is made where there is none.
  function RecordFor(records: map<Id, Record>, r: Id): Record { if r in records then records[r] else Record(0, map[]) }

  predicate HasRoom(records: map<Id, Record>, r: Id) { r in records || |records| < MAX_RESOURCES }

  // ---- Operations on the records ---------------------------------------------------------

  // `completed` is how many of an operation's control calls completed.
  datatype Op =
    | Registers(resource: Id, identity: Id, participant: Id)
    | Unregisters(resource: Id, participant: Id)
    | Calls(resource: Id, completed: nat)

  function After(records: map<Id, Record>, op: Op): map<Id, Record> {
    var r, rec := op.resource, RecordFor(records, op.resource);
    match op
    case Registers(_, identity, p) =>
      if !HasRoom(records, r) || |rec.participants| >= MAX_PARTICIPANTS then records
      else records[r := rec.(participants := rec.participants[p := identity])]
    case Unregisters(_, p) =>
      if r !in records then records
      else if rec.participants - {p} == map[] then records - {r}
      else records[r := rec.(participants := rec.participants - {p})]
    case Calls(_, completed) =>
      if !HasRoom(records, r) then records
      else records[r := rec.(revision := rec.revision + if rec.participants == map[] then 0 else completed)]
  }

  function Runs(records: map<Id, Record>, ops: seq<Op>): map<Id, Record>
    decreases |ops|
  {
    if ops == [] then records else After(Runs(records, ops[..|ops| - 1]), ops[|ops| - 1])
  }

  // The operation takes the last participant, and with it the record.
  predicate Departs(records: map<Id, Record>, op: Op, r: Id) {
    op.Unregisters? && op.resource == r && r in records && records[r].participants - {op.participant} == map[]
  }

  predicate Departed(records: map<Id, Record>, ops: seq<Op>, r: Id)
    decreases |ops|
  {
    ops != []
    && (Departed(records, ops[..|ops| - 1], r) || Departs(Runs(records, ops[..|ops| - 1]), ops[|ops| - 1], r))
  }

  // Participants come and go at any time: registration does not queue (lines 52-80).
  predicate ComeAndGo(ops: seq<Op>) { forall op | op in ops :: op.Registers? || op.Unregisters? }

  // What the records see up to the end of an awaited call: the comings and goings meanwhile,
  // and its count, unless the last participant has left since the operation took the record;
  // then it counts on a record that is forgotten.
  function Awaited(records: map<Id, Record>, before: seq<Op>, meanwhile: seq<Op>, r: Id, reply: Reply): seq<Op> {
    var ops := before + meanwhile;
    if reply.Completed? && !Departed(records, ops, r) then ops + [Calls(r, 1)] else ops
  }

  // The same for the one or two calls of a transfer.
  function AwaitedAll(records: map<Id, Record>, r: Id, calls: seq<Call>, releasing: seq<Op>, granting: seq<Op>): seq<Op>
    requires 1 <= |calls| <= 2
  {
    var first := Awaited(records, [], if calls[0].ReleaseCall? then releasing else granting, r, calls[0].reply);
    if |calls| == 1 then first else Awaited(records, first, granting, r, calls[1].reply)
  }

  lemma OneMoreOp(records: map<Id, Record>, ops: seq<Op>, op: Op, r: Id)
    ensures Runs(records, ops + [op]) == After(Runs(records, ops), op)
    ensures Departed(records, ops + [op], r) <==> Departed(records, ops, r) || Departs(Runs(records, ops), op, r)
  {
    assert (ops + [op])[..|ops + [op]| - 1] == ops;
  }

  // A call that throws passes its error on; ensureCompleted names any other that fell short.
  function FailureOf(reply: Reply): Error { if reply.Throws? then CallFailed else TransferFailed }

  // What a transfer of `calls` between `current` and `target` must have done.
  ghost predicate Transferred(rec: Record, identity: Id, named: Option<Id>, expected: nat, controls: Id -> bool,
                              result: Result<Option<Id>, Error>, calls: seq<Call>, current: Option<Id>,
                                  target: Option<Id>) {
    if rec.revision != expected then result == Err(RevisionConflict) && calls == []
    else
      && IsCurrent(rec.participants, controls, current)
      && IsTarget(rec.participants, identity, named, target)
      && (if target.None? then result == Err(TargetUnavailable) && calls == []
          else if current == target then result == Ok(Some(identity)) && calls == []
          else
            && calls != []
            && (var last := calls[|calls| - 1];
                if last == GrantCall(target.value, Completed)
                then result == Ok(if current.Some? then Some(rec.participants[current.value]) else None)
                else result == Err(if last.reply.Throws? then CallFailed else TransferFailed) && !last.reply.Completed?
                     && (last.GrantCall? ==> last.participant == target.value)))
  }

  class DashboardControllerCoordinator {
    var records: map<Id, Record>
    ghost var made: map<Id, seq<Call>>   // calls made while each record existed

    // A record's revision is the number of control changes it has seen.
    ghost predicate RecordOk(r: Id)
      reads this
      requires r in records
    {
      r in made && records[r].revision == Changes(made[r]) && |records[r].participants| <= MAX_PARTICIPANTS
    }

    ghost predicate Valid()
      reads this
    {
      |records| <= MAX_RESOURCES && forall r {:trigger RecordOk(r)} | r in records :: RecordOk(r)
    }

    constructor ()
      ensures Valid() && records == map[]
    {
      records, made := map[], map[];
    }

    // #record(resource, true): the record is made if there is none.
    method EnsureRecord(r: Id) returns (ok: bool)
      requires Valid()
      modifies this
      ensures Valid()
      ensures ok == HasRoom(old(records), r)
      ensures records == if ok then old(records)[r := RecordFor(old(records), r)] else old(records)
      ensures made == if ok && r !in old(records) then old(made)[r := []] else old(made)
    {
      if r in records {
        assert records == records[r := records[r]];
        return true;
      }
      if |records| >= MAX_RESOURCES { return false; }
      records := records[r := Record(0, map[])];
      made := made[r := []];
      forall s | s in records ensures RecordOk(s) { assert s != r ==> old(RecordOk(s)); }
      ok := true;
    }

    // register (lines 52-75); the participant id is a fresh random one.
    method Register(r: Id, identity: Id, participant: Id) returns (result: Result<Id, Error>)
      requires Valid()
      modifies this
      ensures Valid()
      ensures made == if r in old(records) || !HasRoom(old(records), r) then old(made) else old(made)[r := []]
      ensures
        var rec := RecordFor(old(records), r);
        if !HasRoom(old(records), r) then result == Err(ResourceCapacity) && records == old(records)
        else if |rec.participants| >= MAX_PARTICIPANTS
            then result == Err(ParticipantCapacity) && records == old(records)
        else
          && result == Ok(participant)
          && records == old(records)[r := rec.(participants := rec.participants[participant := identity])]
      ensures records == After(old(records), Registers(r, identity, participant))
    {
      var ok := EnsureRecord(r);
      if !ok { return Err(ResourceCapacity); }
      assert RecordOk(r);
      if |records[r].participants| >= MAX_PARTICIPANTS { return Err(ParticipantCapacity); }
      records := records[r := records[r].(participants := records[r].participants[participant := identity])];
      forall s | s in records ensures RecordOk(s) { assert s in old(records) ==> old(RecordOk(s)); }
      result := Ok(participant);
    }

    // Unregistering the last participant forgets the record, and its revision with it
    // (lines 74-79).
    method Unregister(r: Id, participant: Id)
      requires Valid()
      modifies this
      ensures Valid() && made == old(made)
      ensures records ==
        if r !in old(records) then old(records)
        else if old(records)[r].participants - {participant} == map[] then old(records) - {r}
        else old(records)[r := old(records)[r].(participants := old(records)[r].participants - {participant})]
      ensures records == After(old(records), Unregisters(r, participant))
    {
      if r !in records { return; }
      var rest := records[r].participants - {participant};
      assert RecordOk(r);
      assert rest.Keys <= records[r].participants.Keys;
      Fewer(rest.Keys, records[r].participants.Keys);
      records := if |rest| == 0 then records - {r} else records[r := records[r].(participants := rest)];
      Fewer(records.Keys, old(records).Keys);
      forall s | s in records ensures RecordOk(s) { assert old(RecordOk(s)); }
    }

    // One control call, counted when it completed.
    method Note(r: Id, call: Call)
      requires Valid() && r in records && r in made
      modifies this
      ensures Valid() && r in records && made == old(made)[r := old(made)[r] + [call]]
      ensures records == old(records)[r := old(records)[r].(revision := old(records)[r].revision + Changes([call]))]
    {
      assert RecordOk(r);
      ChangesAppend(made[r], [call]);
      assert [call][1..] == [];
      made := made[r := made[r] + [call]];
      if call.reply.Completed? {
        records := records[r := records[r].(revision := records[r].revision + 1)];
      } else {
        assert records == records[r := records[r]];
      }
      forall s | s in records ensures RecordOk(s) { assert old(RecordOk(s)); }
    }

    // What an operation on resource r still holds, after `ops` since it took the record.
    ghost predicate Holding(r: Id, start: map<Id, Record>, ops: seq<Op>, alive: bool)
      reads this
    {
      && Valid() && records == Runs(start, ops) && alive == !Departed(start, ops, r)
      && (alive ==> r in records && r in made && records[r].participants != map[])
    }

    method ComesOrGoes(op: Op)
      requires Valid() && (op.Registers? || op.Unregisters?)
      modifies this
      ensures Valid() && records == After(old(records), op)
      ensures forall r | r in old(made) :: r in made || r !in records
    {
      match op
      case Registers(r, identity, p) => var _ := Register(r, identity, p);
      case Unregisters(r, p) => Unregister(r, p);
    }

    method MeanwhileOne(r: Id, ghost start: map<Id, Record>, ghost before: seq<Op>, alive: bool, op: Op)
      returns (still: bool)
      requires Holding(r, start, before, alive) && (op.Registers? || op.Unregisters?)
      modifies this
      ensures Holding(r, start, before + [op], still)
    {
      hide DashboardControllerCoordinator.Valid;
      OneMoreOp(start, before, op, r);
      StaysOrDeparts(records, op, r);
      hide Runs, Departed, After, Departs;
      ComesOrGoes(op);
      still := alive && r in records;
    }

    // Participants come and go while a call is awaited; what the operation holds may be
    // forgotten, and then stays so.
    method Meanwhile(r: Id, ghost start: map<Id, Record>, ghost before: seq<Op>, alive: bool, ops: seq<Op>)
      returns (still: bool)
      requires Holding(r, start, before, alive) && ComeAndGo(ops)
      modifies this
      ensures Holding(r, start, before + ops, still)
    {
      hide DashboardControllerCoordinator.Holding;
      still := alive;
      var i := 0;
      assert before + ops[..0] == before;
      while i < |ops|
        invariant 0 <= i <= |ops| && Holding(r, start, before + ops[..i], still)
      {
        assert before + ops[..i + 1] == before + ops[..i] + [ops[i]];
        still := MeanwhileOne(r, start, before + ops[..i], still, ops[i]);
        i := i + 1;
      }
      assert before + ops[..i] == before + ops;
    }

    // One awaited control call of an operation, counted where its record is still the one.
    method AwaitCall(r: Id, call: Call, ghost start: map<Id, Record>, ghost before: seq<Op>, alive: bool, ops: seq<Op>)
      returns (still: bool)
      requires Holding(r, start, before, alive) && ComeAndGo(ops)
      modifies this
      ensures Holding(r, start, Awaited(start, before, ops, r, call.reply), still)
    {
      hide DashboardControllerCoordinator.Valid, After;
      still := Meanwhile(r, start, before, alive, ops);
      OneMoreOp(start, before + ops, Calls(r, 1), r);
      hide Runs, Departed;
      if still {
        CallCounts(records, r, call);
        Note(r, call);
      }
    }

    // requestControl and releaseControl (lines 107-131). A resource nobody registered
    // gets a record all the same, which no unregistration will ever remove.
    method CallParticipant(r: Id, call: Call, meanwhile: seq<Op>) returns (result: Result<Reply, Error>)
      requires Valid() && ComeAndGo(meanwhile)
      modifies this
      ensures Valid()
      ensures
        var rec := RecordFor(old(records), r);
        if !HasRoom(old(records), r) then result == Err(ResourceCapacity) && records == old(records)
        else if call.participant !in rec.participants then
          result == Err(TargetUnavailable) && records == old(records)[r := rec]
        else
          && result == (if call.reply.Throws? then Err(CallFailed) else Ok(call.reply))
          && records == Runs(old(records), Awaited(old(records), [], meanwhile, r, call.reply))
    {
      var ok := EnsureRecord(r);
      if !ok { return Err(ResourceCapacity); }
      if call.participant !in records[r].participants { return Err(TargetUnavailable); }
      assert RecordOk(r);
      assert records == old(records);
      var _ := AwaitCall(r, call, records, [], true, meanwhile);
      result := if call.reply.Throws? then Err(CallFailed) else Ok(call.reply);
    }

    method FindController(participants: map<Id, Id>, controls: Id -> bool) returns (current: Option<Id>)
      ensures IsCurrent(participants, controls, current)
    {
      var rest := participants.Keys;
      current := None;
      while rest != {} && current.None?
        invariant rest <= participants.Keys
        invariant current.None? ==> forall p | p in participants && p !in rest :: !controls(p)
        invariant current.Some? ==> current.value in participants && controls(current.value)
        decreases |rest|
      {
        var p :| p in rest;
        rest := rest - {p};
        if controls(p) { current := Some(p); }
      }
    }

    method LeastOf(participants: map<Id, Id>, identity: Id) returns (target: Option<Id>)
      ensures IsLeast(participants, identity, target)
    {
      var rest := participants.Keys;
      target := None;
      while rest != {}
        invariant rest <= participants.Keys
        invariant target.None? ==> forall p | p in participants && p !in rest :: participants[p] != identity
        invariant target.Some? ==> target.value in participants && participants[target.value] == identity
        invariant target.Some? ==>
            forall p | p in participants && p !in rest && participants[p] == identity :: target.value <= p
        decreases |rest|
      {
        var p :| p in rest;
        rest := rest - {p};
        if participants[p] == identity && (target.None? || p < target.value) { target := Some(p); }
      }
    }

    method ChooseTarget(participants: map<Id, Id>, identity: Id, named: Option<Id>) returns (target: Option<Id>)
      ensures IsTarget(participants, identity, named, target)
    {
      if named.None? {
        target := LeastOf(participants, identity);
      } else {
        target := if named.value in participants && participants[named.value] == identity then named else None;
      }
    }

    // The release, and only when it completed the grant (lines 174-191).
    method HandOver(r: Id, holder: Option<Id>, target: Id, release: Reply, grant: Reply, releasing: seq<Op>,
        granting: seq<Op>)
      returns (done: bool, ghost calls: seq<Call>)
      requires Holding(r, records, [], true) && holder != Some(target) && ComeAndGo(releasing) && ComeAndGo(granting)
      modifies this
      ensures Valid() && Handover(calls, holder) && 1 <= |calls| <= 2
      ensures records == Runs(old(records), AwaitedAll(old(records), r, calls, releasing, granting))
      ensures if done then calls[|calls| - 1] == GrantCall(target, Completed) else !calls[|calls| - 1].reply.Completed?
      ensures calls[|calls| - 1].GrantCall? ==> calls[|calls| - 1].participant == target
      ensures !done ==> calls[|calls| - 1].reply == if calls[|calls| - 1].ReleaseCall? then release else grant
      ensures calls[|calls| - 1].ReleaseCall? <==> holder.Some? && !release.Completed?
    {
      hide DashboardControllerCoordinator.Valid;
      ghost var start := records;
      var alive := true;
      ghost var seen: seq<Op> := [];
      calls := [];
      if holder.Some? {
        alive := AwaitCall(r, ReleaseCall(holder.value, release), start, [], true, releasing);
        seen := Awaited(start, [], releasing, r, release);
        calls := [ReleaseCall(holder.value, release)];
        if !release.Completed? { return false, calls; }
      }
      alive := AwaitCall(r, GrantCall(target, grant), start, seen, alive, granting);
      calls := calls + [GrantCall(target, grant)];
      done := grant.Completed?;
    }

    // transfer (lines 133-199).
    method Transfer(r: Id, identity: Id, named: Option<Id>, expected: nat, controls: Id -> bool, release: Reply,
        grant: Reply, releasing: seq<Op>, granting: seq<Op>)
      returns (result: Result<Option<Id>, Error>, ghost calls: seq<Call>, ghost current: Option<Id>,
          ghost target: Option<Id>)
      requires Valid() && ComeAndGo(releasing) && ComeAndGo(granting)
      modifies this
      ensures Valid()
      ensures !HasRoom(old(records), r) ==> result == Err(ResourceCapacity) && records == old(records)
      ensures HasRoom(old(records), r) ==>
                var rec := RecordFor(old(records), r);
                && Handover(calls, current)
                && Transferred(rec, identity, named, expected, controls, result, calls, current, target)
                && records == if calls == [] then old(records)[r := rec]
                              else Runs(old(records), AwaitedAll(old(records), r, calls, releasing, granting))
    {
      calls, current, target := [], None, None;
      var ok := EnsureRecord(r);
      if !ok { return Err(ResourceCapacity), calls, current, target; }
      assert RecordOk(r);
      var record := records[r];
      if record.revision != expected { return Err(RevisionConflict), calls, current, target; }
      var holder := FindController(record.participants, controls);
      var chosen := ChooseTarget(record.participants, identity, named);
      current, target := holder, chosen;
      var previous := if holder.Some? then Some(record.participants[holder.value]) else None;
      if chosen.None? { return Err(TargetUnavailable), calls, current, target; }
      if holder == chosen { return Ok(previous), calls, current, target; }
      assert chosen.value in record.participants && records == old(records);
      assert Holding(r, records, [], true);
      hide DashboardControllerCoordinator.Valid, IsCurrent, AwaitedAll;
      var done;
      done, calls := HandOver(r, holder, chosen.value, release, grant, releasing, granting);
      var last := if holder.Some? && !release.Completed? then release else grant;
      result := if done then Ok(previous) else Err(FailureOf(last));
    }

    // One participant of a reader: a controller is released, or else closed (lines 218-229).
    method ReleaseOrClose(r: Id, p: Id, controls: Id -> bool, replies: Id -> Reply) returns (close: bool)
      requires Valid() && r in records && r in made
      modifies this
      ensures Valid() && r in records && r in made
      ensures close == (controls(p) && !replies(p).Completed?)
      ensures records == Raised(old(records), r, if controls(p) && replies(p).Completed? then 1 else 0)
    {
      if !controls(p) {
        assert records == records[r := records[r]];
        return false;
      }
      Note(r, ReleaseCall(p, replies(p)));
      assert [ReleaseCall(p, replies(p))][1..] == [];
      close := !replies(p).Completed?;
    }

    // Once the participants in `visited` were asked.
    ghost predicate Lowered(r: Id, was: map<Id, Record>, visited: set<Id>, controls: Id -> bool, replies: Id -> Reply,
        closed: set<Id>)
      reads this
    {
      && Valid() && r in was && r in records && r in made
      && closed == Unreleased(visited, controls, replies)
      && records == Raised(was, r, |Released(visited, controls, replies)|)
    }

    method LowerOne(r: Id, ghost was: map<Id, Record>, ghost visited: set<Id>, p: Id, controls: Id -> bool,
        replies: Id -> Reply, closed: set<Id>)
      returns (more: set<Id>)
      requires Lowered(r, was, visited, controls, replies, closed) && p !in visited
      modifies this
      ensures Lowered(r, was, visited + {p}, controls, replies, more)
    {
      hide DashboardControllerCoordinator.Valid, Released, Unreleased, Raised;
      OneMoreReleased(visited, p, controls, replies);
      RaisedTwice(was, r, |Released(visited, controls, replies)|,
                  if controls(p) && replies(p).Completed? then 1 else 0);
      var close := ReleaseOrClose(r, p, controls, replies);
      more := if close then closed + {p} else closed;
    }

    // The loop over the identity's participants (lines 217-230).
    method LowerToReader(r: Id, mine: set<Id>, controls: Id -> bool, replies: Id -> Reply) returns (closed: set<Id>)
      requires Valid() && r in records && r in made
      modifies this
      ensures Valid() && closed == Unreleased(mine, controls, replies)
      ensures records == Raised(old(records), r, |Released(mine, controls, replies)|)
    {
      NoneReleased(controls, replies);
      assert records == Raised(records, r, 0) by { assert records == records[r := records[r]]; }
      closed := {};
      var rest := mine;
      ghost var was, visited: set<Id> := records, {};
      assert Lowered(r, was, visited, controls, replies, closed);
      hide DashboardControllerCoordinator.Lowered;
      while rest != {}
        invariant rest <= mine && visited == mine - rest
        invariant Lowered(r, was, visited, controls, replies, closed)
        decreases |rest|
      {
        var p :| p in rest;
        NextVisited(mine, rest, p);
        closed := LowerOne(r, was, visited, p, controls, replies, closed);
        visited, rest := visited + {p}, rest - {p};
      }
      assert visited == mine;
      LoweredGives(r, was, mine, controls, replies, closed);
    }

    lemma LoweredGives(r: Id, was: map<Id, Record>, mine: set<Id>, controls: Id -> bool, replies: Id -> Reply,
        closed: set<Id>)
      requires Lowered(r, was, mine, controls, replies, closed)
      ensures Valid() && r in was && closed == Unreleased(mine, controls, replies)
      ensures records == Raised(was, r, |Released(mine, controls, replies)|)
    {
    }

    // applyIdentityRole (lines 201-232): without a role every participant of the identity
    // is closed; a reader's controllers are released, or closed where that fails.
    method ApplyIdentityRole(r: Id, identity: Id, role: Option<Role>, controls: Id -> bool, replies: Id -> Reply)
      returns (closed: set<Id>)
      requires Valid()
      modifies this
      ensures Valid()
      ensures r !in old(records) ==> records == old(records) && closed == {}
      ensures r in old(records) ==>
                var rec := old(records)[r];
                var mine := OfIdentity(rec.participants, identity);
                && closed == (if role.None? then mine else if role.value.Read?
                    then Unreleased(mine, controls, replies) else {})
                && records == if role == Some(Read)
                              then After(old(records), Calls(r, |Released(mine, controls, replies)|))
                              else old(records)
    {
      closed := {};
      if r !in records { return; }
      assert RecordOk(r);
      var mine := OfIdentity(records[r].participants, identity);
      if role.None? { return mine; }
      if role.value.Read? { closed := LowerToReader(r, mine, controls, replies); }
    }
  }

  lemma NextVisited(mine: set<Id>, rest: set<Id>, p: Id)
    requires rest <= mine && p in rest
    ensures mine - rest + {p} == mine - (rest - {p}) && rest - {p} <= mine && |rest - {p}| < |rest|
  {
  }

  // The record's revision, n changes later.
  function Raised(records: map<Id, Record>, r: Id, n: nat): map<Id, Record>
    requires r in records
  {
    records[r := records[r].(revision := records[r].revision + n)]
  }

  lemma RaisedTwice(records: map<Id, Record>, r: Id, a: nat, b: nat)
    requires r in records
    ensures r in Raised(records, r, a) && Raised(Raised(records, r, a), r, b) == Raised(records, r, a + b)
  {
  }

  function OfIdentity(participants: map<Id, Id>, identity: Id): set<Id> {
    set p | p in participants && participants[p] == identity
  }

  // The controllers among `ps` whose release completed, and the others.
  ghost function Released(ps: set<Id>, controls: Id -> bool, replies: Id -> Reply): set<Id> {
    set p | p in ps && controls(p) && replies(p).Completed?
  }

  ghost function Unreleased(ps: set<Id>, controls: Id -> bool, replies: Id -> Reply): set<Id> {
    set p | p in ps && controls(p) && !replies(p).Completed?
  }

  lemma NoneReleased(controls: Id -> bool, replies: Id -> Reply)
    ensures Released({}, controls, replies) == {} == Unreleased({}, controls, replies)
  {
  }

  lemma OneMoreReleased(ps: set<Id>, p: Id, controls: Id -> bool, replies: Id -> Reply)
    requires p !in ps
    ensures |Released(ps + {p}, controls, replies)|
         == |Released(ps, controls, replies)| + (if controls(p) && replies(p).Completed? then 1 else 0)
    ensures Unreleased(ps + {p}, controls, replies)
         == Unreleased(ps, controls, replies) + (if controls(p) && !replies(p).Completed? then {p} else {})
  {
    if controls(p) && replies(p).Completed? {
      assert Released(ps + {p}, controls, replies) == Released(ps, controls, replies) + {p};
    } else {
      assert Released(ps + {p}, controls, replies) == Released(ps, controls, replies);
    }
  }

  // What a call adds to the record it counts on.
  lemma CallCounts(records: map<Id, Record>, r: Id, call: Call)
    requires r in records && records[r].participants != map[]
    ensures
      var rec := records[r];
      && Changes([call]) == (if call.reply.Completed? then 1 else 0)
      && (call.reply.Completed? ==> After(records, Calls(r, 1)) == records[r := rec.(revision := rec.revision + 1)])
      && (!call.reply.Completed? ==> records == records[r := rec.(revision := rec.revision + Changes([call]))])
      && !Departs(records, Calls(r, 1), r)
  {
    assert [call][1..] == [];
  }

  // While the record has participants, only a departure removes it.
  lemma StaysOrDeparts(records: map<Id, Record>, op: Op, r: Id)
    requires op.Registers? || op.Unregisters?
    ensures r in records && records[r].participants != map[] ==>
              (r !in After(records, op) <==> Departs(records, op, r))
              && (r in After(records, op) ==> After(records, op)[r].participants != map[])
  {
  }

  // ---- Revisions over any run of operations -------------------------------------------------

  function RevisionOf(records: map<Id, Record>, r: Id): nat { RecordFor(records, r).revision }

  // Some operation of the run moved the revision on.
  predicate Changed(records: map<Id, Record>, ops: seq<Op>, r: Id)
    decreases |ops|
  {
    ops != []
    && (Changed(records, ops[..|ops| - 1], r)
        || RevisionOf(Runs(records, ops), r) > RevisionOf(Runs(records, ops[..|ops| - 1]), r))
  }

  // A revision falls exactly when the last participant leaves a record that changed.
  lemma RevisionFallsByDeparture(records: map<Id, Record>, op: Op, r: Id)
    ensures RevisionOf(After(records, op), r) < RevisionOf(records, r)
       <==> Departs(records, op, r) && RevisionOf(records, r) > 0
    ensures Departs(records, op, r) ==> r !in After(records, op) && RevisionOf(After(records, op), r) == 0
  {
  }

  lemma {:induction false} RevisionNeverFalls(records: map<Id, Record>, ops: seq<Op>, r: Id)
    requires !Departed(records, ops, r)
    ensures RevisionOf(Runs(records, ops), r) >= RevisionOf(records, r)
    ensures Changed(records, ops, r) ==> RevisionOf(Runs(records, ops), r) > RevisionOf(records, r)
    decreases |ops|
  {
    if ops != [] {
      RevisionNeverFalls(records, ops[..|ops| - 1], r);
      RevisionFallsByDeparture(Runs(records, ops[..|ops| - 1]), ops[|ops| - 1], r);
    }
  }

  // After a change, whoever still expects the revision before it passes the check again
  // only if the last participant has left since; and then can be made to pass by calls
  // alone exactly as long as the new record has seen no more changes than the old had.
  lemma {:induction false} StaleRevisionPasses(records: map<Id, Record>, ops: seq<Op>, r: Id)
    requires Changed(records, ops, r)
    ensures
      var n, stale := Runs(records, ops), RevisionOf(records, r);
      && (RevisionOf(n, r) <= stale ==> Departed(records, ops, r))
      && (HasRoom(n, r) ==>
            (RevisionOf(n, r) <= stale
             <==> exists more :: !Departed(n, more, r) && RevisionOf(Runs(n, more), r) == stale))
  {
    var n, stale := Runs(records, ops), RevisionOf(records, r);
    if !Departed(records, ops, r) { RevisionNeverFalls(records, ops, r); }
    if HasRoom(n, r) && RevisionOf(n, r) <= stale {
      var more := ReachesRevision(n, r, stale);
    }
    forall more | !Departed(n, more, r) && RevisionOf(Runs(n, more), r) == stale ensures RevisionOf(n, r) <= stale {
      RevisionNeverFalls(n, more, r);
    }
  }

  // A participant registers where there is none, and asks for control until the revision is reached.
  lemma {:induction false} ReachesRevision(records: map<Id, Record>, r: Id, target: nat) returns (more: seq<Op>)
    requires HasRoom(records, r) && RevisionOf(records, r) <= target
    ensures !Departed(records, more, r) && RevisionOf(Runs(records, more), r) == target
    ensures r in Runs(records, more) && Runs(records, more)[r].participants != map[]
    decreases target - RevisionOf(records, r)
  {
    if RevisionOf(records, r) == target {
      if r in records && records[r].participants != map[] {
        more := [];
      } else {
        more := [Registers(r, 0, 0)];
        assert more[..0] == [];
      }
    } else {
      var but := ReachesRevision(records, r, target - 1);
      more := but + [Calls(r, 1)];
      assert more[..|more| - 1] == but;
    }
  }

  lemma Fewer<T>(a: set<T>, b: set<T>)
    requires a <= b
    ensures |a| <= |b|
  {
    assert b == a + (b - a);
  }
}
