/** Exactly whose access a ledger mutation changes, and the grant cap. */
module LedgerRoles {
  import opened Wrappers
  import opened Sorting
  import opened Ledger
  import opened LedgerInvariant

  lemma FoundIsNamed(cfg: Config, st: State, r: Resource)
    requires PoliciesOk(cfg, st.policies) && PolicyOf(st, r).Some?
    ensures PolicyOk(PolicyOf(st, r).value) && PolicyOf(st, r).value.resource == r
  {
    FoundPolicy(cfg, st, r);
    ResourceKeyTells(PolicyOf(st, r).value.resource, r);
  }

  // What a policy alone gives a member.
  function Gives(p: Policy, identity: string): Option<Role> {
    if p.owner == identity then Some(Admin) else Lookup(p.grants, identity)
  }

  lemma ReplacedPolicyOf(cfg: Config, st: State, r: Resource, p: Policy, s: Resource)
    requires PoliciesOk(cfg, st.policies) && PolicyOf(st, r).Some?
    ensures Lookup(Replaced(st.policies, ResourceKey(r), p), ResourceKey(s)) == if s == r then Some(p)
        else PolicyOf(st, s)
  {
    ReplacedLookup(st.policies, ResourceKey(r), p, ResourceKey(s));
    if ResourceKey(r) == ResourceKey(s) { ResourceKeyTells(r, s); }
  }

  lemma CreatedPolicyOf(cfg: Config, st: State, r: Resource, owner: string, now: Time, s: Resource)
    requires PoliciesOk(cfg, st.policies) && PolicyOf(st, r).None? && |st.policies| < cfg.maxPolicies
    ensures
      var created := Keyed(ResourceKey(r), NewPolicy(r, owner, now));
      Lookup(Sort(cfg.le, st.policies + [created]), ResourceKey(s)) == if s == r then Some(created.value)
          else PolicyOf(st, s)
  {
    hide ResourceKey, Sort;
    var created := Keyed(ResourceKey(r), NewPolicy(r, owner, now));
    CreatedPolicies(cfg, st, owner, r, now);
    var a := Sort(cfg.le, st.policies + [created]);
    if s == r {
      InLookup(a, created);
    } else {
      if ResourceKey(r) == ResourceKey(s) { ResourceKeyTells(r, s); }
      LookupIn(a, ResourceKey(s));
      LookupIn(st.policies, ResourceKey(s));
      if PolicyOf(st, s).Some? { InLookup(a, Keyed(ResourceKey(s), PolicyOf(st, s).value)); }
      if Lookup(a, ResourceKey(s)).Some? { InLookup(st.policies, Keyed(ResourceKey(s), Lookup(a,
          ResourceKey(s)).value)); }
    }
  }

  lemma AdministeredPolicyOf(cfg: Config, st: State, op: Op, p: Policy, now: Time, s: Resource)
    requires LedgerOk(cfg, st) && !op.Register? && !op.Adopt?
    requires PolicyOf(st, op.resource) == Some(p) && p.resource == op.resource
        && Administer(cfg, st, op, p, now).Changed?
    ensures
      var m := Administer(cfg, st, op, p, now);
      PolicyOf(m.next, s) == if s == op.resource then Some(m.answer) else PolicyOf(st, s)
  {
    hide ResourceKey, Lookup, Replaced, Sort, Without;
    ReplacedPolicyOf(cfg, st, op.resource, Administer(cfg, st, op, p, now).answer, s);
  }

  lemma ChangedPolicyOf(cfg: Config, st: State, op: Op, now: Time, s: Resource)
    requires LedgerOk(cfg, st) && Apply(cfg, st, op, now).Changed?
    ensures
      var m := Apply(cfg, st, op, now);
      PolicyOf(m.next, s) == if s == op.resource then Some(m.answer) else PolicyOf(st, s)
  {
    hide ResourceKey, Lookup, Administer, Sort;
    match op
    case Register(who, r) => CreatedPolicyOf(cfg, st, r, who.identity, now, s);
    case Adopt(who, r, owner) => CreatedPolicyOf(cfg, st, r, owner, now, s);
    case _ =>
      FoundIsNamed(cfg, st, op.resource);
      AdministeredPolicyOf(cfg, st, op, PolicyOf(st, op.resource).value, now, s);
  }

  // No mutation touches another resource, or what an administrator may do.
  lemma OthersKeepTheirRoles(cfg: Config, st: State, op: Op, now: Time, q: Principal, s: Resource)
    requires LedgerOk(cfg, st) && Apply(cfg, st, op, now).Changed?
    requires q.globalRole.Administrator? || s != op.resource
    ensures RoleOf(cfg, Apply(cfg, st, op, now).next, q, s) == RoleOf(cfg, st, q, s)
  {
    hide Apply;
    ChangedPolicyOf(cfg, st, op, now, s);
  }

  lemma RoleIsGiven(cfg: Config, st: State, op: Op, now: Time, q: Principal)
    requires LedgerOk(cfg, st) && Apply(cfg, st, op, now).Changed? && q.globalRole.Member?
    ensures RoleOf(cfg, Apply(cfg, st, op, now).next, q, op.resource)
        == Gives(Apply(cfg, st, op, now).answer, q.identity)
  {
    hide Apply;
    ChangedPolicyOf(cfg, st, op, now, op.resource);
  }

  lemma AnswerOfSet(cfg: Config, st: State, op: Op, now: Time)
    requires LedgerOk(cfg, st) && op.SetGrant? && Apply(cfg, st, op, now).Changed?
    ensures
      var p := PolicyOf(st, op.resource);
      && p.Some? && PolicyOk(p.value) && op.subject != p.value.owner
      && Apply(cfg, st, op, now).answer.owner == p.value.owner
      && Apply(cfg, st, op, now).answer.grants == GrantsWith(cfg, p.value.grants, op.subject, op.role)
      && |GrantsWith(cfg, p.value.grants, op.subject, op.role)| <= cfg.maxGrants
  {
    hide Lookup, ResourceKey, GrantsWith;
    FoundIsNamed(cfg, st, op.resource);
  }

  // Setting a grant gives the grantee exactly that role, and changes nobody else's.
  lemma SetGrantGives(cfg: Config, st: State, op: Op, now: Time, q: Principal)
    requires LedgerOk(cfg, st) && op.SetGrant? && Apply(cfg, st, op, now).Changed? && q.globalRole.Member?
    ensures RoleOf(cfg, Apply(cfg, st, op, now).next, q, op.resource)
         == if q.identity == op.subject then Some(op.role) else RoleOf(cfg, st, q, op.resource)
  {
    hide Apply;
    RoleIsGiven(cfg, st, op, now, q);
    AnswerOfSet(cfg, st, op, now);
    var p := PolicyOf(st, op.resource).value;
    var grants := GrantsWith(cfg, p.grants, op.subject, op.role);
    GrantsWithKeep(cfg, p, op.subject, op.role);
    if q.identity == op.subject { InLookup(grants, Keyed(op.subject, op.role)); }
    else { SameEntry(p.grants, grants, q.identity); }
  }

  // Two grant lists that agree about one identity.
  lemma SameEntry(a: seq<Keyed<Role>>, b: seq<Keyed<Role>>, id: string)
    requires UniqueKeys(a) && UniqueKeys(b)
    requires forall x: Keyed<Role> | x.key == id :: x in a <==> x in b
    ensures Lookup(a, id) == Lookup(b, id)
  {
    LookupIn(a, id);
    LookupIn(b, id);
    if Lookup(a, id).Some? { InLookup(b, Keyed(id, Lookup(a, id).value)); }
    if Lookup(b, id).Some? { InLookup(a, Keyed(id, Lookup(b, id).value)); }
  }

  lemma AnswerOfRevoke(cfg: Config, st: State, op: Op, now: Time)
    requires LedgerOk(cfg, st) && op.RevokeGrant? && Apply(cfg, st, op, now).Changed?
    ensures
      var p := PolicyOf(st, op.resource);
      && p.Some? && PolicyOk(p.value)
      && Apply(cfg, st, op, now).answer.owner == p.value.owner
      && (Apply(cfg, st, op, now).answer.grants == Without(p.value.grants, op.subject)
          || (Apply(cfg, st, op, now).answer == p.value && |Without(p.value.grants, op.subject)| == |p.value.grants|))
  {
    hide Lookup, ResourceKey, Without;
    FoundIsNamed(cfg, st, op.resource);
  }

  // Revoking takes exactly the grantee's access; an owner has none to revoke.
  lemma RevokeGrantTakes(cfg: Config, st: State, op: Op, now: Time, q: Principal)
    requires LedgerOk(cfg, st) && op.RevokeGrant? && Apply(cfg, st, op, now).Changed? && q.globalRole.Member?
    ensures PolicyOf(st, op.resource).Some?
    ensures RoleOf(cfg, Apply(cfg, st, op, now).next, q, op.resource)
         == if q.identity == op.subject && q.identity != PolicyOf(st, op.resource).value.owner then None
            else RoleOf(cfg, st, q, op.resource)
  {
    hide Apply;
    RoleIsGiven(cfg, st, op, now, q);
    AnswerOfRevoke(cfg, st, op, now);
    var p := PolicyOf(st, op.resource).value;
    WithoutIs(p.grants, op.subject);
    LookupIn(p.grants, op.subject);
    LookupIn(Without(p.grants, op.subject), op.subject);
    if q.identity != op.subject { SameEntry(p.grants, Without(p.grants, op.subject), q.identity); }
  }

  lemma AnswerOfTransfer(cfg: Config, st: State, op: Op, now: Time)
    requires LedgerOk(cfg, st) && op.TransferOwnership? && Apply(cfg, st, op, now).Changed?
    ensures
      var p := PolicyOf(st, op.resource);
      && p.Some? && PolicyOk(p.value)
      && Apply(cfg, st, op, now).answer.owner == op.newOwner
      && (if p.value.owner == op.newOwner then Apply(cfg, st, op, now).answer == p.value
          else
            Apply(cfg, st, op, now).answer.grants
            == GrantsAfterTransfer(cfg, p.value, op.newOwner, op.previousOwnerRole))
  {
    hide Lookup, ResourceKey, GrantsAfterTransfer;
    FoundIsNamed(cfg, st, op.resource);
  }

  // A transfer makes the new owner an administrator, leaves the old owner exactly the
  // stated role, and changes nobody else's.
  lemma TransferMoves(cfg: Config, st: State, op: Op, now: Time, q: Principal)
    requires LedgerOk(cfg, st) && op.TransferOwnership? && Apply(cfg, st, op, now).Changed? && q.globalRole.Member?
    ensures PolicyOf(st, op.resource).Some?
    ensures RoleOf(cfg, Apply(cfg, st, op, now).next, q, op.resource)
         == if q.identity == op.newOwner then Some(Admin)
            else if q.identity == PolicyOf(st, op.resource).value.owner then op.previousOwnerRole
            else RoleOf(cfg, st, q, op.resource)
  {
    hide Apply;
    RoleIsGiven(cfg, st, op, now, q);
    AnswerOfTransfer(cfg, st, op, now);
    var p := PolicyOf(st, op.resource).value;
    if p.owner != op.newOwner
        && q.identity != op.newOwner { TransferredEntries(cfg, p, op.newOwner, op.previousOwnerRole, q.identity); }
  }

  lemma TransferredEntries(cfg: Config, p: Policy, newOwner: string, role: Option<Role>, id: string)
    requires PolicyOk(p) && p.owner != newOwner && id != newOwner
    ensures Lookup(GrantsAfterTransfer(cfg, p, newOwner, role), id) == if id == p.owner then role
        else Lookup(p.grants, id)
  {
    hide GrantsAfterTransfer;
    var grants := GrantsAfterTransfer(cfg, p, newOwner, role);
    TransferredKeep(cfg, p, newOwner, role);
    if id == p.owner {
      LookupIn(grants, id);
      if role.Some? { InLookup(grants, Keyed(id, role.value)); }
      forall x | x in p.grants ensures x.key != p.owner { var i :| 0 <= i < |p.grants| && p.grants[i] == x; }
    } else {
      SameEntry(p.grants, grants, id);
    }
  }

  // A registered or adopted resource belongs to its owner alone.
  lemma NewResourceIsTheOwners(cfg: Config, st: State, op: Op, now: Time, q: Principal)
    requires LedgerOk(cfg, st) && (op.Register? || op.Adopt?) && Apply(cfg, st, op, now).Changed?
        && q.globalRole.Member?
    ensures RoleOf(cfg, Apply(cfg, st, op, now).next, q, op.resource)
         == if q.identity == (if op.Adopt? then op.owner else op.who.identity) then Some(Admin) else None
  {
    RoleIsGiven(cfg, st, op, now, q);
  }

  // ---- The grant cap ------------------------------------------------------------------------

  predicate Capped(cfg: Config, p: Policy) { |p.grants| <= cfg.maxGrants }

  ghost predicate AllCapped(cfg: Config, st: State) {
    && (forall i | 0 <= i < |st.policies| :: Capped(cfg, st.policies[i].value))
    && (forall i | 0 <= i < |st.receipts| :: Capped(cfg, st.receipts[i].result))
  }

  // transferOwnership adds the old owner's grant without looking at the cap (lines 393-399).
  predicate OverflowsCap(cfg: Config, p: Policy, op: Op) {
    op.TransferOwnership? && p.owner != op.newOwner && |p.grants| == cfg.maxGrants
    && Lookup(p.grants, op.newOwner).None? && op.previousOwnerRole.Some?
  }

  // The answer respects the cap exactly when it is not such a transfer.
  lemma AnswerCapped(cfg: Config, st: State, op: Op, now: Time)
    requires LedgerOk(cfg, st) && AllCapped(cfg, st) && Apply(cfg, st, op, now).Changed?
    requires !op.Register? && !op.Adopt?
    ensures PolicyOf(st, op.resource).Some?
    ensures Capped(cfg, Apply(cfg, st, op, now).answer) <==> !OverflowsCap(cfg, PolicyOf(st, op.resource).value, op)
  {
    hide ResourceKey, Lookup, Without, GrantsAfterTransfer, GrantsWith;
    FoundIsNamed(cfg, st, op.resource);
    var p := PolicyOf(st, op.resource).value;
    LookupIn(st.policies, ResourceKey(op.resource));
    var i :| 0 <= i < |st.policies| && st.policies[i] == Keyed(ResourceKey(op.resource), p);
    match op
    case SetGrant(_, _, _, _, _, _) => AnswerOfSet(cfg, st, op, now);
    case RevokeGrant(_, _, subject, _, _) => AnswerOfRevoke(cfg, st, op, now); WithoutIs(p.grants, subject);
    case TransferOwnership(_, _, newOwner, role, _, _) =>
      AnswerOfTransfer(cfg, st, op, now);
      if p.owner != newOwner { TransferredKeep(cfg, p, newOwner, role); }
    case RecordController(_, _, _, _, _, _) =>
    case _ =>
  }

  // ---- What a restart accepts ------------------------------------------------------------------

  // storedOpaqueString (lines 1211-1221). pendingReceipt bounds a key's length as the reader
  // does, but not its characters (lines 1079-1081).
  predicate ReadableKey(key: string) { '\r' !in key && '\n' !in key && '\0' !in key }

  ghost predicate KeysReadable(st: State) {
    forall i | 0 <= i < |st.receipts| :: ReadableKey(st.receipts[i].pending.key)
  }

  // validateStoredState (lines 794-856), on a state whose fields parse.
  ghost predicate ReloadAccepts(cfg: Config, st: State) {
    && cfg.bytes(st) + 1 <= cfg.maxBytes
    && |st.policies| <= cfg.maxPolicies && |st.audit| <= cfg.maxAudit && |st.receipts| <= MAX_RECEIPTS
    && (forall i | 0 <= i < |st.policies| :: PolicyOk(st.policies[i].value) && Capped(cfg, st.policies[i].value))
    && (forall i, j | 0 <= i < j < |st.policies| ::
          ResourceKey(st.policies[i].value.resource) != ResourceKey(st.policies[j].value.resource))
    && (forall i | 0 <= i < |st.receipts| :: PolicyOk(st.receipts[i].result) && Capped(cfg, st.receipts[i].result))
    && (forall i | 0 <= i < |st.receipts| :: ReadableKey(st.receipts[i].pending.key))
    && (forall i, j | 0 <= i < j < |st.receipts| ::
          st.receipts[i].pending.actor != st.receipts[j].pending.actor
              || st.receipts[i].pending.key != st.receipts[j].pending.key)
    && (forall i | 0 < i < |st.audit| :: st.audit[i - 1].sequence < st.audit[i].sequence)
    && (st.audit != [] ==> st.audit[|st.audit| - 1].sequence < st.nextSequence)
  }

  // What the ledger writes is read back exactly when every policy and every retained
  // result respects the cap and every retained key is readable.
  lemma ReloadsExactly(cfg: Config, st: State)
    requires LedgerOk(cfg, st) && !TooLarge(cfg, st)
    ensures ReloadAccepts(cfg, st) <==> AllCapped(cfg, st) && KeysReadable(st)
  {
    hide ResourceKey, ReadableKey;
    forall i, j | 0 <= i < j < |st.policies|
      ensures ResourceKey(st.policies[i].value.resource) != ResourceKey(st.policies[j].value.resource)
    {
      assert st.policies[i].key != st.policies[j].key;
    }
  }

  // A transfer at the cap is written, and then the file is refused.
  lemma TransferAtCapBlocksReload(cfg: Config, st: State, op: Op, now: Time)
    requires LedgerOk(cfg, st) && AllCapped(cfg, st) && Apply(cfg, st, op, now).Changed? && op.TransferOwnership?
    requires PolicyOf(st, op.resource).Some? && OverflowsCap(cfg, PolicyOf(st, op.resource).value, op)
    requires Fit(cfg, Apply(cfg, st, op, now).next).Some?
    ensures !ReloadAccepts(cfg, Fit(cfg, Apply(cfg, st, op, now).next).value)
  {
    hide Apply, Fit, OverflowsCap, ResourceKey, Lookup;
    var m := Apply(cfg, st, op, now);
    ApplyKeeps(cfg, st, op, now);
    FitKeeps(cfg, m.next);
    AnswerCapped(cfg, st, op, now);
    ChangedPolicyOf(cfg, st, op, now, op.resource);
    var n := Fit(cfg, m.next).value;
    LookupIn(n.policies, ResourceKey(op.resource));
    var i :| 0 <= i < |n.policies| && n.policies[i] == Keyed(ResourceKey(op.resource), m.answer);
  }
}
