/**
 The authorization ledger: policies, a bounded audit log and idempotency receipts,
 and what each mutation makes of them (src/dashboard-authorization.ts:222-745).

 A receipt keeps the request itself where the source keeps the hash of its JSON.
 */
module Ledger {
  import opened Wrappers
  import opened Sorting

  type Time = int

  datatype Kind = Session | Workspace | Draft | DraftTicket | ActivationTicket | ExportTicket | Schedule

  datatype Resource = Resource(kind: Kind, id: string)

  datatype Role = Read | Control | Admin

  datatype GlobalRole = Administrator | Member

  datatype Principal = Principal(identity: string, globalRole: GlobalRole)

  // Grants are keyed by the grantee.
  datatype Policy = Policy(
    resource: Resource,
    owner: string,
    grants: seq<Keyed<Role>>,
    revision: nat,
    createdAt: Time,
    updatedAt: Time)

  datatype Action = Created | Adopted | GrantSet | GrantRevoked | OwnershipTransferred | ControllerTransferred

  datatype Fact = Fact(
    actor: string,
    action: Action,
    resource: Resource,
    subject: string,
    role: Option<Role>,
    previousOwner: Option<string>,
    previousController: Option<string>)

  datatype Event = Event(sequence: nat, occurredAt: Time, fact: Fact)

  datatype Request =
    | SetRequest(resource: Resource, subject: string, role: Role, expected: nat)
    | RevokeRequest(resource: Resource, subject: string, expected: nat)
    | TransferRequest(resource: Resource, newOwner: string, previousOwnerRole: Option<Role>, expected: nat)
    | ControllerRequest(resource: Resource, previous: Option<string>, next: string, expected: nat)

  datatype Pending = Pending(actor: string, key: string, request: Request)

  datatype Receipt = Receipt(pending: Pending, result: Policy)

  // Policies are keyed by their resource key.
  datatype State = State(
    revision: nat,
    nextSequence: nat,
    dropped: nat,
    policies: seq<Keyed<Policy>>,
    audit: seq<Event>,
    receipts: seq<Receipt>)

  // `bytes` is the length of the state's JSON; `le` is localeCompare.
  datatype Config = Config(
    le: Order,
    singleOwner: bool,
    localOwner: string,
    maxPolicies: nat,
    maxGrants: nat,
    maxAudit: nat,
    maxBytes: nat,
    bytes: State -> nat)

  const MAX_RECEIPTS := 1024

  datatype Error =
    | NotFound
    | ResourceConflict
    | PolicyCapacity
    | RevisionConflict
    | OwnerGrant
    | GrantCapacity
    | KeyConflict
    | StateCapacity
    | WriteFailed
    | Indeterminate

  function KindName(k: Kind): string {
    match k
    case Session => "session"
    case Workspace => "workspace"
    case Draft => "draft"
    case DraftTicket => "draft-ticket"
    case ActivationTicket => "activation-ticket"
    case ExportTicket => "export-ticket"
    case Schedule => "schedule"
  }

  function ResourceKey(r: Resource): string { KindName(r.kind) + ":" + r.id }

  function Lookup<T>(s: seq<Keyed<T>>, key: string): Option<T> {
    if s == [] then None else if s[0].key == key then Some(s[0].value) else Lookup(s[1..], key)
  }

  function Without<T>(s: seq<Keyed<T>>, key: string): seq<Keyed<T>> {
    if s == [] then [] else if s[0].key == key then Without(s[1..], key) else [s[0]] + Without(s[1..], key)
  }

  // Put `value` where `key` is.
  function Replaced<T>(s: seq<Keyed<T>>, key: string, value: T): seq<Keyed<T>> {
    if s == [] then [] else if s[0].key == key then [Keyed(key, value)] + s[1..]
        else [s[0]] + Replaced(s[1..], key, value)
  }

  function PolicyOf(st: State, r: Resource): Option<Policy> { Lookup(st.policies, ResourceKey(r)) }

  // #effectiveRole (lines 539-552).
  function RoleOf(cfg: Config, st: State, p: Principal, r: Resource): Option<Role> {
    if p.globalRole.Administrator? then Some(Admin)
    else
      match PolicyOf(st, r)
      case None => if cfg.singleOwner && p.identity == cfg.localOwner then Some(Admin) else None
      case Some(policy) => if policy.owner == p.identity then Some(Admin) else Lookup(policy.grants, p.identity)
  }

  // ---- Audit and receipts -----------------------------------------------------------------

  function Excess(n: nat, limit: nat): nat { if n > limit then n - limit else 0 }

  function AppendAudit(cfg: Config, st: State, fact: Fact, now: Time): State {
    var audit := st.audit + [Event(st.nextSequence, now, fact)];
    var excess := Excess(|audit|, cfg.maxAudit);
    st.(audit := audit[excess..], dropped := st.dropped + excess, nextSequence := st.nextSequence + 1)
  }

  function AppendReceipt(st: State, pending: Option<Pending>, result: Policy): State {
    if pending.None? then st
    else
      var receipts := st.receipts + [Receipt(pending.value, result)];
      st.(receipts := receipts[Excess(|receipts|, MAX_RECEIPTS)..])
  }

  function FindReceipt(receipts: seq<Receipt>, actor: string, key: string): Option<Receipt> {
    if receipts == [] then None
    else if receipts[0].pending.actor == actor && receipts[0].pending.key == key then Some(receipts[0])
    else FindReceipt(receipts[1..], actor, key)
  }

  // ---- Mutations ----------------------------------------------------------------------------

  datatype Mutation = Refused(error: Error) | Answered(policy: Policy) | Changed(next: State, answer: Policy)

  datatype Op =
    | Register(who: Principal, resource: Resource)
    | Adopt(who: Principal, resource: Resource, owner: string)
    | SetGrant(who: Principal, resource: Resource, subject: string, role: Role, expected: nat, key: Option<string>)
    | RevokeGrant(who: Principal, resource: Resource, subject: string, expected: nat, key: Option<string>)
    | TransferOwnership(who: Principal, resource: Resource, newOwner: string, previousOwnerRole: Option<Role>,
        expected: nat,
                        key: Option<string>)
    | RecordController(who: Principal, resource: Resource, previous: Option<string>, next: string, expected: nat,
        newKey: string)

  // pendingReceipt (lines 280-286, 335-340, 377-383, 433-439, 1073-1087).
  function PendingOf(op: Op): Option<Pending> {
    match op
    case SetGrant(who, r, subject, role, expected, Some(key)) =>
      Some(Pending(who.identity, key, SetRequest(r, subject, role, expected)))
    case RevokeGrant(who, r, subject, expected, Some(key)) =>
      Some(Pending(who.identity, key, RevokeRequest(r, subject, expected)))
    case TransferOwnership(who, r, newOwner, role, expected, Some(key)) =>
      Some(Pending(who.identity, key, TransferRequest(r, newOwner, role, expected)))
    case RecordController(who, r, previous, next, expected, key) =>
      Some(Pending(who.identity, key, ControllerRequest(r, previous, next, expected)))
    case _ => None
  }

  function NewPolicy(r: Resource, owner: string, now: Time): Policy { Policy(r, owner, [], 1, now, now) }

  // #createPolicy up to its write (lines 564-596).
  function CreatePolicy(cfg: Config, st: State, actor: string, owner: string, r: Resource, action: Action,
      now: Time): Mutation {
    if |st.policies| >= cfg.maxPolicies then Refused(PolicyCapacity)
    else
      var policy := NewPolicy(r, owner, now);
      var n := st.(policies := Sort(cfg.le, st.policies + [Keyed(ResourceKey(r), policy)]),
          revision := st.revision + 1);
      Changed(AppendAudit(cfg, n, Fact(actor, action, r, owner, None, None, None), now), policy)
  }

  // #replacePolicy up to its write (lines 601-622).
  function ReplacePolicy(cfg: Config, st: State, previous: Policy, owner: string, grants: seq<Keyed<Role>>, fact: Fact,
                         pending: Option<Pending>, now: Time): Mutation {
    var updated := Policy(previous.resource, owner, grants, previous.revision + 1, previous.createdAt, now);
    var n := st.(policies := Replaced(st.policies, ResourceKey(previous.resource), updated),
        revision := st.revision + 1);
    Changed(AppendReceipt(AppendAudit(cfg, n, fact, now), pending, updated), updated)
  }

  // #recordReceipt up to its write (lines 627-633).
  function RecordReceipt(st: State, policy: Policy, pending: Option<Pending>): Mutation {
    if pending.None? then Answered(policy)
    else Changed(AppendReceipt(st.(revision := st.revision + 1), pending, policy), policy)
  }

  function GrantsWith(cfg: Config, grants: seq<Keyed<Role>>, subject: string, role: Role): seq<Keyed<Role>> {
    Sort(cfg.le, Without(grants, subject) + [Keyed(subject, role)])
  }

  function GrantsAfterTransfer(cfg: Config, policy: Policy, newOwner: string, role: Option<Role>): seq<Keyed<Role>> {
    var kept := Without(Without(policy.grants, newOwner), policy.owner);
    Sort(cfg.le, if role.Some? then kept + [Keyed(policy.owner, role.value)] else kept)
  }

  function RegisterFor(cfg: Config, st: State, r: Resource, actor: string, owner: string, action: Action,
      now: Time): Mutation {
    match PolicyOf(st, r)
    case Some(policy) => if policy.owner == owner then Answered(policy) else Refused(ResourceConflict)
    case None => CreatePolicy(cfg, st, actor, owner, r, action, now)
  }

  // The four mutations that need an administrator of the resource.
  function Administer(cfg: Config, st: State, op: Op, policy: Policy, now: Time): Mutation {
    match op
    case SetGrant(who, r, subject, role, _, _) =>
      if subject == policy.owner then Refused(OwnerGrant)
      else
        var grants := GrantsWith(cfg, policy.grants, subject, role);
        if |grants| > cfg.maxGrants then Refused(GrantCapacity)
        else
          ReplacePolicy(cfg, st, policy, policy.owner, grants,
                        Fact(who.identity, GrantSet, r, subject, Some(role), None, None), PendingOf(op), now)
    case RevokeGrant(who, r, subject, _, _) =>
      var grants := Without(policy.grants, subject);
      if |grants| == |policy.grants| then RecordReceipt(st, policy, PendingOf(op))
      else
        ReplacePolicy(cfg, st, policy, policy.owner, grants,
                      Fact(who.identity, GrantRevoked, r, subject, None, None, None), PendingOf(op), now)
    case TransferOwnership(who, r, newOwner, role, _, _) =>
      if policy.owner == newOwner then RecordReceipt(st, policy, PendingOf(op))
      else
        ReplacePolicy(cfg, st, policy, newOwner, GrantsAfterTransfer(cfg, policy, newOwner, role),
                      Fact(who.identity, OwnershipTransferred, r, newOwner, role, Some(policy.owner), None),
                          PendingOf(op), now)
    case RecordController(who, r, previous, next, _, _) =>
      var n := AppendAudit(cfg, st.(revision := st.revision + 1),
                           Fact(who.identity, ControllerTransferred, r, next, None, None, previous), now);
      Changed(AppendReceipt(n, PendingOf(op), policy), policy)
    case _ => Refused(NotFound)
  }

  function Expected(op: Op): nat {
    match op
    case SetGrant(_, _, _, _, expected, _) => expected
    case RevokeGrant(_, _, _, expected, _) => expected
    case TransferOwnership(_, _, _, _, expected, _) => expected
    case RecordController(_, _, _, _, expected, _) => expected
    case _ => 0
  }

  // What an operation does to the records, before its write.
  function Apply(cfg: Config, st: State, op: Op, now: Time): Mutation {
    match op
    case Register(who, r) => RegisterFor(cfg, st, r, who.identity, who.identity, Created, now)
    case Adopt(who, r, owner) =>
      if !who.globalRole.Administrator? then Refused(NotFound)
      else RegisterFor(cfg, st, r, who.identity, owner, Adopted, now)
    case _ =>
      var pending := PendingOf(op);
      var retained := if pending.Some? then FindReceipt(st.receipts, pending.value.actor, pending.value.key) else None;
      if retained.Some? then
        if retained.value.pending.request != pending.value.request then Refused(KeyConflict)
        else Answered(retained.value.result)
      else if RoleOf(cfg, st, op.who, op.resource) != Some(Admin) then Refused(NotFound)
      else
        match PolicyOf(st, op.resource)
        case None => Refused(NotFound)
        case Some(policy) =>
          if policy.revision != Expected(op) then Refused(RevisionConflict) else Administer(cfg, st, op, policy, now)
  }

  // ---- #write (lines 667-684) -------------------------------------------------------------------

  predicate TooLarge(cfg: Config, st: State) { cfg.bytes(st) + 1 > cfg.maxBytes }

  function EvictReceipts(cfg: Config, st: State): State
    decreases |st.receipts|
  {
    if st.receipts != [] && TooLarge(cfg, st) then EvictReceipts(cfg, st.(receipts := st.receipts[1..])) else st
  }

  function EvictAudit(cfg: Config, st: State): State
    decreases |st.audit|
  {
    if st.audit != [] && TooLarge(cfg, st)
        then EvictAudit(cfg, st.(audit := st.audit[1..], dropped := st.dropped + 1)) else st
  }

  // The state as written, if it can be made small enough.
  function Fit(cfg: Config, st: State): Option<State> {
    var n := EvictAudit(cfg, EvictReceipts(cfg, st));
    if TooLarge(cfg, n) then None else Some(n)
  }

  // ---- The invariant ------------------------------------------------------------------------------

  predicate PolicyOk(p: Policy) {
    && UniqueKeys(p.grants)
    && (forall i | 0 <= i < |p.grants| :: p.grants[i].key != p.owner)
    && p.revision >= 1
  }

  predicate PoliciesOk(cfg: Config, policies: seq<Keyed<Policy>>) {
    && UniqueKeys(policies)
    && |policies| <= cfg.maxPolicies
    && (forall i | 0 <= i < |policies| ::
          policies[i].key == ResourceKey(policies[i].value.resource) && PolicyOk(policies[i].value))
  }

  // Consecutive sequence numbers, right after the dropped ones.
  predicate AuditOk(cfg: Config, st: State) {
    && |st.audit| <= cfg.maxAudit
    && st.dropped + |st.audit| + 1 == st.nextSequence
    && (forall i | 0 <= i < |st.audit| :: st.audit[i].sequence == st.dropped + 1 + i)
  }

  predicate ReceiptsOk(receipts: seq<Receipt>) {
    && |receipts| <= MAX_RECEIPTS
    && (forall i | 0 <= i < |receipts| :: PolicyOk(receipts[i].result))
    && (forall i, j | 0 <= i < j < |receipts| ::
          receipts[i].pending.actor != receipts[j].pending.actor || receipts[i].pending.key != receipts[j].pending.key)
  }

  predicate LedgerOk(cfg: Config, st: State) {
    PoliciesOk(cfg, st.policies) && AuditOk(cfg, st) && ReceiptsOk(st.receipts)
  }

  const EMPTY := State(0, 1, 0, [], [], [])
}
