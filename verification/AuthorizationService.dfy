/**
 The authorization service as the object it is: the state and its policy index,
 changed in place, written, and rolled back (src/dashboard-authorization.ts:128-745).
 */
module AuthorizationService {
  import opened Wrappers
  import opened Sorting
  import opened Ledger
  import opened LedgerInvariant
  import opened LedgerRuns
  import opened LedgerRoles

  // The index holds each policy under its resource key, and nothing else.
  ghost predicate Indexes(policies: seq<Keyed<Policy>>, index: map<string, Policy>) {
    && (forall i | 0 <= i < |policies| :: policies[i].key in index && index[policies[i].key] == policies[i].value)
    && (forall k | k in index :: Keyed(k, index[k]) in policies)
  }

  lemma IndexLookup(policies: seq<Keyed<Policy>>, index: map<string, Policy>, key: string)
    requires Indexes(policies, index)
    ensures Lookup(policies, key) == if key in index then Some(index[key]) else None
  {
    LookupIn(policies, key);
    if Lookup(policies, key).Some? {
      var i :| 0 <= i < |policies| && policies[i] == Keyed(key, Lookup(policies, key).value);
    }
    if key in index {
      var i :| 0 <= i < |policies| && policies[i] == Keyed(key, index[key]);
    }
  }

  lemma IndexOfCreated(cfg: Config, st: State, index: map<string, Policy>, r: Resource, owner: string, now: Time)
    requires PoliciesOk(cfg, st.policies) && Indexes(st.policies, index) && PolicyOf(st, r).None?
        && |st.policies| < cfg.maxPolicies
    ensures
      var created := NewPolicy(r, owner, now);
      Indexes(Sort(cfg.le, st.policies + [Keyed(ResourceKey(r), created)]), index[ResourceKey(r) := created])
  {
    hide ResourceKey, Sort;
    var x := Keyed(ResourceKey(r), NewPolicy(r, owner, now));
    CreatedPolicies(cfg, st, owner, r, now);
    IndexLookup(st.policies, index, ResourceKey(r));
    var a := Sort(cfg.le, st.policies + [x]);
    var index' := index[x.key := x.value];
    forall i | 0 <= i < |a| ensures a[i].key in index' && index'[a[i].key] == a[i].value {
      assert a[i] in a;
      if a[i] != x { var j :| 0 <= j < |st.policies| && st.policies[j] == a[i]; }
    }
    forall k | k in index' ensures Keyed(k, index'[k]) in a {
      assert k != x.key ==> Keyed(k, index[k]) in st.policies;
    }
  }

  lemma IndexOfReplaced(policies: seq<Keyed<Policy>>, index: map<string, Policy>, key: string, p: Policy)
    requires UniqueKeys(policies) && Indexes(policies, index) && Lookup(policies, key).Some?
    ensures Indexes(Replaced(policies, key, p), index[key := p])
  {
    hide Lookup, Replaced;
    var a, index' := Replaced(policies, key, p), index[key := p];
    ReplacedIs(policies, key, p);
    LookupIn(policies, key);
    forall k | k in index' ensures Keyed(k, index'[k]) in a {
      if k == key {
        var i :| 0 <= i < |policies| && policies[i] == Keyed(key, Lookup(policies, key).value);
        assert a[i] == Keyed(key, p);
      } else {
        var i :| 0 <= i < |policies| && policies[i] == Keyed(k, index[k]);
        assert a[i] == policies[i];
      }
    }
  }

  class DashboardAuthorizationService {
    const cfg: Config
    var state: State
    var index: map<string, Policy>
    var terminal: bool
    var file: Option<State>
    ghost var log: seq<Receipt>
    ghost var fileLog: seq<Receipt>

    ghost function Abstract(): Service
      reads this
    {
      Service(state, log, file, fileLog, terminal)
    }

    ghost predicate Valid()
      reads this
    {
      ServiceOk(cfg, Abstract()) && Indexes(state.policies, index)
    }

    // A service over a file that readAuthorizationState accepts, or over none.
    constructor (cfg: Config, file: Option<State>, ghost log: seq<Receipt>)
      requires ServiceOk(cfg, Service(EMPTY, [], file, log, true))
      ensures this.cfg == cfg && Valid() && !terminal
      ensures Abstract() == Service(if file.Some? then file.value else EMPTY, log, file, log, false)
    {
      this.cfg := cfg;
      this.file := file;
      this.log, fileLog, terminal := log, log, false;
      state := if file.Some? then file.value else EMPTY;
      index := map[];
      new;
      Reindex();
    }

    // #reindexPolicies (lines 533-537).
    method Reindex()
      requires PoliciesOk(cfg, state.policies)
      modifies this`index
      ensures Indexes(state.policies, index)
    {
      index := map[];
      for i := 0 to |state.policies|
        invariant forall j | 0 <= j < i ::
            state.policies[j].key in index && index[state.policies[j].key] == state.policies[j].value
        invariant forall k | k in index :: Keyed(k, index[k]) in state.policies
      {
        index := index[state.policies[i].key := state.policies[i].value];
      }
    }

    // #effectiveRole (lines 539-552).
    method EffectiveRole(p: Principal, r: Resource) returns (role: Option<Role>)
      requires Indexes(state.policies, index)
      ensures role == RoleOf(cfg, state, p, r)
    {
      IndexLookup(state.policies, index, ResourceKey(r));
      if p.globalRole.Administrator? { return Some(Admin); }
      if ResourceKey(r) !in index {
        return if cfg.singleOwner && p.identity == cfg.localOwner then Some(Admin) else None;
      }
      var policy := index[ResourceKey(r)];
      if policy.owner == p.identity { return Some(Admin); }
      role := FindGrant(policy.grants, p.identity);
    }

    method FindGrant(grants: seq<Keyed<Role>>, identity: string) returns (role: Option<Role>)
      ensures role == Lookup(grants, identity)
    {
      var i := 0;
      while i < |grants|
        invariant 0 <= i <= |grants| && Lookup(grants[i..], identity) == Lookup(grants, identity)
      {
        assert grants[i..][1..] == grants[i + 1..];
        if grants[i].key == identity { return Some(grants[i].value); }
        i := i + 1;
      }
      role := None;
    }

    method ReplayReceipt(pending: Pending) returns (receipt: Option<Receipt>)
      ensures receipt == FindReceipt(state.receipts, pending.actor, pending.key)
    {
      var i := 0;
      while i < |state.receipts|
        invariant 0 <= i <= |state.receipts|
        invariant FindReceipt(state.receipts[i..], pending.actor, pending.key)
               == FindReceipt(state.receipts, pending.actor, pending.key)
      {
        var r := state.receipts[i];
        assert state.receipts[i..][1..] == state.receipts[i + 1..];
        if r.pending.actor == pending.actor && r.pending.key == pending.key { return Some(r); }
        i := i + 1;
      }
      receipt := None;
    }

    // appendAudit (lines 728-745).
    method RecordFact(fact: Fact, now: Time)
      modifies this`state
      ensures state == AppendAudit(cfg, old(state), fact, now)
    {
      ghost var all := state.audit + [Event(state.nextSequence, now, fact)];
      state := state.(audit := state.audit + [Event(state.nextSequence, now, fact)],
          nextSequence := state.nextSequence + 1);
      ghost var i := 0;
      while |state.audit| > cfg.maxAudit
        invariant 0 <= i <= |all| && state.audit == all[i..] && i <= Excess(|all|, cfg.maxAudit)
        invariant state == old(state).(audit := state.audit, dropped := old(state).dropped + i,
                                       nextSequence := old(state).nextSequence + 1)
        decreases |state.audit|
      {
        assert all[i..][1..] == all[i + 1..];
        state := state.(audit := state.audit[1..], dropped := state.dropped + 1);
        i := i + 1;
      }
    }

    // #appendReceipt (lines 658-665).
    method KeepReceipt(pending: Option<Pending>, result: Policy)
      modifies this`state
      ensures state == AppendReceipt(old(state), pending, result)
    {
      if pending.Some? {
        var receipts := state.receipts + [Receipt(pending.value, result)];
        state := state.(receipts := receipts[Excess(|receipts|, MAX_RECEIPTS)..]);
      }
    }

    // #write (lines 667-684): evict receipts, then audit events, until the state fits.
    method WriteState(outcome: Outcome) returns (failure: Option<Error>)
      modifies this`state, this`file
      ensures
        match Fit(cfg, old(state))
        case None => failure == Some(StateCapacity) && file == old(file)
        case Some(w) =>
          && state == w
          && failure == (match outcome
                         case Publishes => None
                         case FailsBefore => Some(WriteFailed)
                         case Unknown(_) => Some(Indeterminate))
          && file == (match outcome
                      case Publishes => Some(w)
                      case FailsBefore => old(file)
                      case Unknown(landed) => if landed then Some(w) else old(file))
    {
      while state.receipts != [] && TooLarge(cfg, state)
        invariant EvictReceipts(cfg, state) == EvictReceipts(cfg, old(state)) && file == old(file)
        decreases |state.receipts|
      {
        state := state.(receipts := state.receipts[1..]);
      }
      ghost var trimmed := state;
      while state.audit != [] && TooLarge(cfg, state)
        invariant EvictAudit(cfg, state) == EvictAudit(cfg, trimmed) && file == old(file)
        decreases |state.audit|
      {
        state := state.(audit := state.audit[1..], dropped := state.dropped + 1);
      }
      if TooLarge(cfg, state) { return Some(StateCapacity); }
      match outcome
      case Publishes => file := Some(state); failure := None;
      case FailsBefore => failure := Some(WriteFailed);
      case Unknown(landed) => if landed { file := Some(state); } failure := Some(Indeterminate);
    }

    // ---- Bodies: what a mutation did before #mutate looks at its outcome ---------------------

    // The answer to the caller, and the state and file the body leaves.
    ghost predicate Left(m: Mutation, was: State, wasFile: Option<State>, outcome: Outcome, result: Result<Policy,
        Error>)
      reads this`state, this`file
    {
      match m
      case Refused(e) => result == Err(e) && file == wasFile
      case Answered(p) => result == Ok(p) && file == wasFile && state == was
      case Changed(n, answer) =>
        match Fit(cfg, n)
        case None => result == Err(StateCapacity) && file == wasFile
        case Some(w) =>
          match outcome
          case Publishes => result == Ok(answer) && file == Some(w) && state == w
          case FailsBefore => result == Err(WriteFailed) && file == wasFile
          case Unknown(landed) =>
            result == Err(Indeterminate) && state == w && file == (if landed then Some(w) else wasFile)
    }

    method FinishWrite(m: Mutation, ghost was: State, outcome: Outcome) returns (result: Result<Policy, Error>)
      requires m.Changed? && state == m.next
      modifies this`state, this`file
      ensures Left(m, was, old(file), outcome, result)
      ensures result.Ok? ==> state.policies == old(state).policies
      ensures result == Err(Indeterminate) ==> state.policies == old(state).policies
    {
      EvictionKeepsPolicies(cfg, state);
      var failure := WriteState(outcome);
      result := if failure.None? then Ok(m.answer) else Err(failure.value);
    }

    // #createPolicy (lines 564-599).
    method CreatePolicyNow(actor: string, owner: string, r: Resource, action: Action, now: Time, outcome: Outcome)
      returns (result: Result<Policy, Error>)
      requires PoliciesOk(cfg, state.policies) && Indexes(state.policies, index) && PolicyOf(state, r).None?
      modifies this`state, this`index, this`file
      ensures Left(CreatePolicy(cfg, old(state), actor, owner, r, action, now), old(state), old(file), outcome, result)
      ensures result.Ok? || result == Err(Indeterminate) ==> Indexes(state.policies, index)
    {
      hide Left, ResourceKey, Sort, Fit, Indexes;
      if |state.policies| >= cfg.maxPolicies {
        result := Err(PolicyCapacity);
        assert Left(Refused(PolicyCapacity), old(state), file, outcome, result) by { LeftRefused(PolicyCapacity,
            old(state), outcome); }
        return;
      }
      ghost var m := CreatePolicy(cfg, state, actor, owner, r, action, now);
      IndexOfCreated(cfg, state, index, r, owner, now);
      var policy := NewPolicy(r, owner, now);
      state := state.(policies := Sort(cfg.le, state.policies + [Keyed(ResourceKey(r), policy)]),
          revision := state.revision + 1);
      index := index[ResourceKey(r) := policy];
      RecordFact(Fact(actor, action, r, owner, None, None, None), now);
      result := FinishWrite(Changed(state, policy), old(state), outcome);
    }

    // #replacePolicy (lines 601-625).
    method ReplacePolicyNow(previous: Policy, owner: string, grants: seq<Keyed<Role>>, fact: Fact,
        pending: Option<Pending>,
                            now: Time, outcome: Outcome)
      returns (result: Result<Policy, Error>)
      requires PoliciesOk(cfg, state.policies) && Indexes(state.policies, index)
      requires Lookup(state.policies, ResourceKey(previous.resource)).Some?
      modifies this`state, this`index, this`file
      ensures Left(ReplacePolicy(cfg, old(state), previous, owner, grants, fact, pending, now), old(state),
          old(file), outcome, result)
      ensures result.Ok? || result == Err(Indeterminate) ==> Indexes(state.policies, index)
    {
      hide Left, ResourceKey, Lookup, Fit, Indexes, Replaced;
      var updated := Policy(previous.resource, owner, grants, previous.revision + 1, previous.createdAt, now);
      var key := ResourceKey(previous.resource);
      IndexOfReplaced(state.policies, index, key, updated);
      var policies := ReplaceAt(state.policies, key, updated);
      state := state.(policies := policies, revision := state.revision + 1);
      index := index[key := updated];
      RecordFact(fact, now);
      KeepReceipt(pending, updated);
      result := FinishWrite(Changed(state, updated), old(state), outcome);
    }

    method ReplaceAt(policies: seq<Keyed<Policy>>, key: string, p: Policy) returns (r: seq<Keyed<Policy>>)
      ensures r == Replaced(policies, key, p)
    {
      var i := 0;
      while i < |policies|
        invariant 0 <= i <= |policies|
        invariant Replaced(policies, key, p) == policies[..i] + Replaced(policies[i..], key, p)
      {
        assert policies[i..][1..] == policies[i + 1..];
        if policies[i].key == key { return policies[..i] + [Keyed(key, p)] + policies[i + 1..]; }
        assert policies[..i] + [policies[i]] == policies[..i + 1];
        i := i + 1;
      }
      r := policies;
    }

    // #recordReceipt (lines 627-636).
    method RecordReceiptNow(policy: Policy, pending: Option<Pending>, outcome: Outcome)
      returns (result: Result<Policy, Error>)
      requires Indexes(state.policies, index)
      modifies this`state, this`file
      ensures Left(RecordReceipt(old(state), policy, pending), old(state), old(file), outcome, result)
      ensures result.Ok? || result == Err(Indeterminate) ==> Indexes(state.policies, index)
    {
      if pending.None? { return Ok(policy); }
      hide Left, Fit, Indexes;
      state := state.(revision := state.revision + 1);
      KeepReceipt(pending, policy);
      result := FinishWrite(Changed(state, policy), old(state), outcome);
    }

    lemma LeftRefused(e: Error, was: State, outcome: Outcome)
      ensures Left(Refused(e), was, file, outcome, Err(e))
    {
    }

    // Replay, authority and revision, before a mutation's own part (lines 288-291).
    method Admit(op: Op, now: Time) returns (early: Option<Result<Policy, Error>>, policy: Policy)
      requires !op.Register? && !op.Adopt? && Indexes(state.policies, index)
      ensures early.Some? && early.value.Ok? ==> Apply(cfg, state, op, now) == Answered(early.value.value)
      ensures early.Some? && early.value.Err? ==> Apply(cfg, state, op, now) == Refused(early.value.error)
      ensures early.None? ==> Apply(cfg, state, op, now) == Administer(cfg, state, op, policy, now)
      ensures early.None? ==> PolicyOf(state, op.resource) == Some(policy)
    {
      hide Administer, ResourceKey, Indexes, Lookup;
      policy := NewPolicy(op.resource, "", now);
      var pending := PendingOf(op);
      if pending.Some? {
        var retained := ReplayReceipt(pending.value);
        if retained.Some? {
          return Some(if retained.value.pending.request != pending.value.request then Err(KeyConflict)
              else Ok(retained.value.result)), policy;
        }
      }
      var role := EffectiveRole(op.who, op.resource);
      if role != Some(Admin) { return Some(Err(NotFound)), policy; }
      IndexLookup(state.policies, index, ResourceKey(op.resource));
      if ResourceKey(op.resource) !in index { return Some(Err(NotFound)), policy; }
      policy := index[ResourceKey(op.resource)];
      if policy.revision != Expected(op) { return Some(Err(RevisionConflict)), policy; }
      early := None;
    }

    method RegisterBody(actor: string, owner: string, r: Resource, action: Action, now: Time, outcome: Outcome)
      returns (result: Result<Policy, Error>)
      requires PoliciesOk(cfg, state.policies) && Indexes(state.policies, index)
      modifies this`state, this`index, this`file
      ensures Left(RegisterFor(cfg, old(state), r, actor, owner, action, now), old(state), old(file), outcome, result)
      ensures result.Ok? || result == Err(Indeterminate) ==> Indexes(state.policies, index)
    {
      IndexLookup(state.policies, index, ResourceKey(r));
      if ResourceKey(r) in index {
        var existing := index[ResourceKey(r)];
        return if existing.owner == owner then Ok(existing) else Err(ResourceConflict);
      }
      hide Left, ResourceKey, Indexes, CreatePolicy, PoliciesOk;
      result := CreatePolicyNow(actor, owner, r, action, now, outcome);
    }

    method AdministerBody(op: Op, policy: Policy, now: Time, outcome: Outcome) returns (result: Result<Policy, Error>)
      requires PoliciesOk(cfg, state.policies) && Indexes(state.policies, index) && !op.Register? && !op.Adopt?
      requires PolicyOf(state, op.resource) == Some(policy) && policy.resource == op.resource
      modifies this`state, this`index, this`file
      ensures Left(Administer(cfg, old(state), op, policy, now), old(state), old(file), outcome, result)
      ensures result.Ok? || result == Err(Indeterminate) ==> Indexes(state.policies, index)
    {
      hide Left, ResourceKey, Indexes, PoliciesOk, ReplacePolicy, Lookup, Without, Sort, GrantsWith,
          GrantsAfterTransfer, RecordReceipt, Fit;
      match op
      case SetGrant(who, r, subject, role, _, _) =>
        LeftRefused(OwnerGrant, old(state), outcome);
        LeftRefused(GrantCapacity, old(state), outcome);
        if subject == policy.owner { return Err(OwnerGrant); }
        var grants := GrantsWith(cfg, policy.grants, subject, role);
        if |grants| > cfg.maxGrants { return Err(GrantCapacity); }
        result := ReplacePolicyNow(policy, policy.owner, grants, Fact(who.identity, GrantSet, r, subject,
            Some(role), None, None),
                                   PendingOf(op), now, outcome);
      case RevokeGrant(who, r, subject, _, _) =>
        var grants := Without(policy.grants, subject);
        if |grants| == |policy.grants| {
          result := RecordReceiptNow(policy, PendingOf(op), outcome);
        } else {
          result := ReplacePolicyNow(policy, policy.owner, grants, Fact(who.identity, GrantRevoked, r, subject,
              None, None, None),
                                     PendingOf(op), now, outcome);
        }
      case TransferOwnership(who, r, newOwner, role, _, _) =>
        if policy.owner == newOwner {
          result := RecordReceiptNow(policy, PendingOf(op), outcome);
        } else {
          result := ReplacePolicyNow(policy, newOwner, GrantsAfterTransfer(cfg, policy, newOwner, role),
                                     Fact(who.identity, OwnershipTransferred, r, newOwner, role,
                                         Some(policy.owner), None),
                                     PendingOf(op), now, outcome);
        }
      case RecordController(who, r, previous, next, _, _) =>
        result := RecordControllerNow(op, policy, now, outcome);
      case _ =>
    }

    method RecordControllerNow(op: Op, policy: Policy, now: Time, outcome: Outcome)
      returns (result: Result<Policy, Error>)
      requires Indexes(state.policies, index) && op.RecordController?
      modifies this`state, this`file
      ensures Left(Administer(cfg, old(state), op, policy, now), old(state), old(file), outcome, result)
      ensures result.Ok? || result == Err(Indeterminate) ==> Indexes(state.policies, index)
    {
      hide Left, Fit, Indexes;
      state := state.(revision := state.revision + 1);
      RecordFact(Fact(op.who.identity, ControllerTransferred, op.resource, op.next, None, None, op.previous), now);
      KeepReceipt(PendingOf(op), policy);
      result := FinishWrite(Changed(state, policy), old(state), outcome);
    }

    method Body(op: Op, now: Time, outcome: Outcome) returns (result: Result<Policy, Error>)
      requires LedgerOk(cfg, state) && Indexes(state.policies, index)
      modifies this`state, this`index, this`file
      ensures Left(Apply(cfg, old(state), op, now), old(state), old(file), outcome, result)
      ensures result.Ok? || result == Err(Indeterminate) ==> Indexes(state.policies, index)
    {
      hide ResourceKey, Indexes, RegisterFor, Administer, Fit, PoliciesOk, AuditOk, ReceiptsOk, Lookup;
      match op
      case Register(who, r) => result := RegisterBody(who.identity, who.identity, r, Created, now, outcome);
      case Adopt(who, r, owner) =>
        if !who.globalRole.Administrator? { return Err(NotFound); }
        result := RegisterBody(who.identity, owner, r, Adopted, now, outcome);
      case _ =>
        var early, policy := Admit(op, now);
        if early.Some? { return early.value; }
        FoundIsNamed(cfg, state, op.resource);
        result := AdministerBody(op, policy, now, outcome);
    }

    // ---- #mutate (lines 686-706) ------------------------------------------------------------

    // Any mutation: the service becomes what its run step says, and the caller gets its reply.
    method Perform(op: Op, now: Time, outcome: Outcome) returns (result: Result<Policy, Error>)
      requires Valid()
      modifies this
      ensures Valid()
      ensures Abstract() == Do(cfg, old(Abstract()), Mutate(op, now, outcome))
      ensures result == if old(terminal) then Err(Indeterminate) else Reply(cfg, old(state), op, now, outcome)
    {
      hide Apply, Fit, Indexes, LedgerOk, SuffixOf, TooLarge;
      MutateKeeps(cfg, Abstract(), op, now, outcome);
      NeverRefusedAsUnknown(cfg, state, op, now);
      if terminal { return Err(Indeterminate); }
      var previous := state;
      result := Body(op, now, outcome);
      ghost var m := Apply(cfg, previous, op, now);
      if result == Err(Indeterminate) {
        terminal := true;
        log := Logged(log, op, m.answer);
        if outcome.landed { fileLog := log; }
      } else if result.Err? {
        state := previous;
        RollBack();
      } else if m.Changed? {
        log := Logged(log, op, m.answer);
        fileLog := log;
      }
    }

    method RollBack()
      requires LedgerOk(cfg, state)
      modifies this`index
      ensures Indexes(state.policies, index)
    {
      Reindex();
    }
  }

  // What a caller is told.
  function Reply(cfg: Config, st: State, op: Op, now: Time, outcome: Outcome): Result<Policy, Error> {
    match Apply(cfg, st, op, now)
    case Refused(e) => Err(e)
    case Answered(p) => Ok(p)
    case Changed(n, answer) =>
      if Fit(cfg, n).None? then Err(StateCapacity)
      else
        match outcome
        case Publishes => Ok(answer)
        case FailsBefore => Err(WriteFailed)
        case Unknown(_) => Err(Indeterminate)
  }

  lemma NeverRefusedAsUnknown(cfg: Config, st: State, op: Op, now: Time)
    ensures Apply(cfg, st, op, now) != Refused(Indeterminate)
  {
    hide Lookup, Sort, Without, ResourceKey, FindReceipt;
  }

  lemma {:induction false} EvictionKeepsPolicies(cfg: Config, st: State)
    ensures Fit(cfg, st).Some? ==> Fit(cfg, st).value.policies == st.policies
  {
    ReceiptsEvicted(cfg, st);
    AuditEvicted(cfg, EvictReceipts(cfg, st));
  }

  lemma {:induction false} ReceiptsEvicted(cfg: Config, st: State)
    ensures EvictReceipts(cfg, st).policies == st.policies
    decreases |st.receipts|
  {
    if st.receipts != [] && TooLarge(cfg, st) { ReceiptsEvicted(cfg, st.(receipts := st.receipts[1..])); }
  }

  lemma {:induction false} AuditEvicted(cfg: Config, st: State)
    ensures EvictAudit(cfg, st).policies == st.policies
    decreases |st.audit|
  {
    if st.audit != [] && TooLarge(cfg, st) { AuditEvicted(cfg, st.(audit := st.audit[1..],
        dropped := st.dropped + 1)); }
  }
}
