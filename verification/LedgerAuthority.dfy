/**
 Who can change the ledger: administrators of the resource, and each state of a policy
 only once (src/dashboard-authorization.ts:288-299, 539-562).
 */
module LedgerAuthority {
  import opened Wrappers
  import opened Sorting
  import opened Ledger
  import opened LedgerInvariant
  import opened LedgerRoles
  import opened LedgerRuns

  predicate Opens(op: Op) { op.Register? || op.Adopt? }

  // An operation changes the records only for a resource nobody has, as its own or as an
  // administrator's, or for an administrator of the resource who has seen its last revision.
  lemma OnlyAdministratorsChange(cfg: Config, st: State, op: Op, now: Time)
    requires Apply(cfg, st, op, now).Changed?
    ensures !op.Register? ==> RoleOf(cfg, st, op.who, op.resource) == Some(Admin)
    ensures PolicyOf(st, op.resource).None? <==> Opens(op)
    ensures !Opens(op) ==> PolicyOf(st, op.resource).value.revision == Expected(op)
  {
    hide Administer, Lookup, Sort, FindReceipt, ResourceKey;
  }

  predicate IsRetry(st: State, op: Op) {
    PendingOf(op).Some? && FindReceipt(st.receipts, PendingOf(op).value.actor, PendingOf(op).value.key).Some?
  }

  // Anybody else is told the same whatever the records are, so that no answer gives away
  // whether the resource exists, who has it or what its revision is.
  lemma OthersLearnNothing(cfg: Config, a: State, b: State, op: Op, now: Time)
    requires !op.Register? && !IsRetry(a, op) && !IsRetry(b, op)
    requires RoleOf(cfg, a, op.who, op.resource) != Some(Admin) && RoleOf(cfg, b, op.who, op.resource) != Some(Admin)
    ensures Apply(cfg, a, op, now) == Apply(cfg, b, op, now) == Refused(NotFound)
  {
    hide Administer, Lookup, Sort, ResourceKey;
  }

  // Whom an administrator who has seen the last revision is refused for: nobody but a grant to the
  // owner, or to one more grantee than the cap allows.
  lemma RefusedExactly(cfg: Config, st: State, op: Op, now: Time)
    requires LedgerOk(cfg, st) && !Opens(op) && !IsRetry(st, op)
    ensures
      var m, p := Apply(cfg, st, op, now), PolicyOf(st, op.resource);
      && (m == Refused(NotFound) <==> RoleOf(cfg, st, op.who, op.resource) != Some(Admin) || p.None?)
      && (m == Refused(RevisionConflict) <==>
            RoleOf(cfg, st, op.who, op.resource) == Some(Admin) && p.Some? && p.value.revision != Expected(op))
      && (m == Refused(OwnerGrant) <==> MayChange(cfg, st, op) && op.SetGrant? && op.subject == p.value.owner)
      && (m == Refused(GrantCapacity) <==>
            && MayChange(cfg, st, op) && op.SetGrant? && op.subject != p.value.owner
            && |p.value.grants| + (if Lookup(p.value.grants, op.subject).Some? then 0 else 1) > cfg.maxGrants)
      && (m.Refused? ==> m.error in {NotFound, RevisionConflict, OwnerGrant, GrantCapacity})
  {
    if PolicyOf(st, op.resource).Some? {
      FoundIsNamed(cfg, st, op.resource);
      var p := PolicyOf(st, op.resource).value;
      if op.SetGrant? && op.subject != p.owner { GrantsWithKeep(cfg, p, op.subject, op.role); }
    }
    hide Lookup, ResourceKey, Sort, Without, Replaced, GrantsWith, GrantsAfterTransfer, FindReceipt;
  }

  // An administrator of the resource who has seen its last revision.
  predicate MayChange(cfg: Config, st: State, op: Op) {
    && RoleOf(cfg, st, op.who, op.resource) == Some(Admin) && PolicyOf(st, op.resource).Some?
    && PolicyOf(st, op.resource).value.revision == Expected(op)
  }

  // A new policy starts at its first revision, shared with nobody; and every change of the records
  // counts the ledger's own revision up by one.
  lemma OpeningIsFresh(cfg: Config, st: State, op: Op, now: Time)
    requires Apply(cfg, st, op, now).Changed?
    ensures
      var m := Apply(cfg, st, op, now);
      && m.next.revision == st.revision + 1
      && (Opens(op) ==>
            && m.answer.revision == 1 && m.answer.grants == [] && m.answer.resource == op.resource
            && m.answer.createdAt == now == m.answer.updatedAt)
  {
    hide Lookup, ResourceKey, Sort, Without, Replaced, GrantsWith, GrantsAfterTransfer, FindReceipt;
  }

  // Registering again what one owns is answered, and what another owns refused.
  lemma ReopenedExactly(cfg: Config, st: State, op: Op, now: Time)
    requires Opens(op) && PolicyOf(st, op.resource).Some? && (op.Adopt? ==> op.who.globalRole.Administrator?)
    ensures
      var p := PolicyOf(st, op.resource).value;
      Apply(cfg, st, op, now)
      == if p.owner == (if op.Adopt? then op.owner else op.who.identity) then Answered(p) else Refused(ResourceConflict)
  {
    hide Lookup, ResourceKey;
  }

  // What a receipt keeps of a request tells it from every other request of the same actor.
  lemma RequestTells(a: Op, b: Op)
    requires PendingOf(a).Some? && PendingOf(b).Some? && PendingOf(a).value == PendingOf(b).value
    ensures a.who.identity == b.who.identity && a.resource == b.resource && Expected(a) == Expected(b)
    ensures match a
            case SetGrant(_, _, subject, role, _, key) =>
              b.SetGrant? && b.subject == subject && b.role == role && b.key == key
            case RevokeGrant(_, _, subject, _, key) => b.RevokeGrant? && b.subject == subject && b.key == key
            case TransferOwnership(_, _, newOwner, role, _, key) =>
              b.TransferOwnership? && b.newOwner == newOwner && b.previousOwnerRole == role && b.key == key
            case RecordController(_, _, previous, next, _, key) =>
              b.RecordController? && b.previous == previous && b.next == next && b.newKey == key
            case _ => true
  {
  }

  // ---- Over runs: without an administrator nobody's role changes ------------------------------

  // An administrator of the resource acts on it.
  ghost predicate Empowered(cfg: Config, s: Service, step: Step, r: Resource) {
    step.Mutate? && step.op.resource == r && RoleOf(cfg, s.st, step.op.who, r) == Some(Admin)
  }

  ghost predicate NeverEmpowered(cfg: Config, s: Service, steps: seq<Step>, r: Resource) {
    forall k | 0 <= k < |steps| :: !Empowered(cfg, Runs(cfg, s, steps[..k]), steps[k], r)
  }

  // Memory and file have this policy of the resource.
  ghost predicate Holds(s: Service, r: Resource, p: Policy) {
    PolicyOf(s.st, r) == Some(p) && PolicyOf(FileState(s), r) == Some(p)
  }

  lemma FittedPolicyOf(cfg: Config, st: State, r: Resource)
    requires LedgerOk(cfg, st) && Fit(cfg, st).Some?
    ensures PolicyOf(Fit(cfg, st).value, r) == PolicyOf(st, r)
  {
    hide Fit, LedgerOk, Lookup;
    FitKeeps(cfg, st);
  }

  lemma PowerlessStep(cfg: Config, s: Service, step: Step, r: Resource, p: Policy)
    requires ServiceOk(cfg, s) && Holds(s, r, p) && !Empowered(cfg, s, step, r)
    ensures Holds(Do(cfg, s, step), r, p)
  {
    hide Apply, Fit, LedgerOk, SuffixOf, TooLarge, ReloadAccepts, PolicyOf, RoleOf;
    if step.Mutate? && Apply(cfg, s.st, step.op, step.now).Changed? {
      var m := Apply(cfg, s.st, step.op, step.now);
      OnlyAdministratorsChange(cfg, s.st, step.op, step.now);
      ChangedPolicyOf(cfg, s.st, step.op, step.now, r);
      ApplyKeeps(cfg, s.st, step.op, step.now);
      if Fit(cfg, m.next).Some? { FittedPolicyOf(cfg, m.next, r); }
    }
  }

  lemma {:induction false} PolicyHolds(cfg: Config, s: Service, steps: seq<Step>, r: Resource, p: Policy)
    requires ServiceOk(cfg, s) && Holds(s, r, p) && NeverEmpowered(cfg, s, steps, r)
    ensures Holds(Runs(cfg, s, steps), r, p)
    decreases |steps|
  {
    hide ServiceOk, Holds, Do, Empowered;
    if steps != [] {
      var but := steps[..|steps| - 1];
      forall k | 0 <= k < |but| ensures !Empowered(cfg, Runs(cfg, s, but[..k]), but[k], r) {
        assert but[..k] == steps[..k];
      }
      PolicyHolds(cfg, s, but, r, p);
      RunKeeps(cfg, s, but);
      PowerlessStep(cfg, Runs(cfg, s, but), steps[|steps| - 1], r, p);
    }
  }

  // Along any run of writes that are published, fail or end unknown, and of restarts, in which
  // no administrator of a resource acts on it, nobody's role on it changes.
  lemma PowerlessChangeNothing(cfg: Config, s: Service, steps: seq<Step>, r: Resource, q: Principal)
    requires ServiceOk(cfg, s) && !s.failed && PolicyOf(s.st, r).Some? && NeverEmpowered(cfg, s, steps, r)
    ensures RoleOf(cfg, Runs(cfg, s, steps).st, q, r) == RoleOf(cfg, s.st, q, r)
  {
    hide NeverEmpowered, LedgerOk, TooLarge, SuffixOf, PolicyOf;
    PolicyHolds(cfg, s, steps, r, PolicyOf(s.st, r).value);
  }

  // ---- A revision is changed once --------------------------------------------------------------

  // The operation is one that changes who has access.
  predicate Counts(p: Policy, op: Op) {
    op.SetGrant? || (op.RevokeGrant? && Lookup(p.grants, op.subject).Some?)
    || (op.TransferOwnership? && op.newOwner != p.owner)
  }

  // Such an operation counts the revision up by one, any other leaves the policy as it is.
  lemma ChangeCounts(cfg: Config, st: State, op: Op, now: Time)
    requires LedgerOk(cfg, st) && Apply(cfg, st, op, now).Changed? && !Opens(op)
    ensures PolicyOf(st, op.resource).Some?
    ensures
      var p, answer := PolicyOf(st, op.resource).value, Apply(cfg, st, op, now).answer;
      if Counts(p, op)
      then answer == p.(owner := answer.owner, grants := answer.grants, revision := p.revision + 1, updatedAt := now)
      else answer == p
  {
    FoundIsNamed(cfg, st, op.resource);
    var p := PolicyOf(st, op.resource).value;
    if op.RevokeGrant? { WithoutIs(p.grants, op.subject); }
    hide Lookup, ResourceKey, Sort, Without, Replaced, GrantsWith, GrantsAfterTransfer;
  }

  // The policy of the resource is at revision n or later, in memory and on file.
  ghost predicate Past(s: Service, r: Resource, n: nat) {
    && PolicyOf(s.st, r).Some? && PolicyOf(s.st, r).value.revision >= n
    && PolicyOf(FileState(s), r).Some? && PolicyOf(FileState(s), r).value.revision >= n
  }

  lemma PastStep(cfg: Config, s: Service, step: Step, r: Resource, n: nat)
    requires ServiceOk(cfg, s) && Past(s, r, n)
    ensures Past(Do(cfg, s, step), r, n)
  {
    hide Apply, Fit, LedgerOk, SuffixOf, TooLarge, ReloadAccepts, PolicyOf, RoleOf, Counts;
    if step.Mutate? && Apply(cfg, s.st, step.op, step.now).Changed? {
      var m := Apply(cfg, s.st, step.op, step.now);
      if r == step.op.resource {
        OnlyAdministratorsChange(cfg, s.st, step.op, step.now);
        ChangeCounts(cfg, s.st, step.op, step.now);
      }
      ChangedPolicyOf(cfg, s.st, step.op, step.now, r);
      ApplyKeeps(cfg, s.st, step.op, step.now);
      if Fit(cfg, m.next).Some? { FittedPolicyOf(cfg, m.next, r); }
    }
  }

  lemma {:induction false} StaysPast(cfg: Config, s: Service, steps: seq<Step>, r: Resource, n: nat)
    requires ServiceOk(cfg, s) && Past(s, r, n)
    ensures Past(Runs(cfg, s, steps), r, n)
    decreases |steps|
  {
    hide ServiceOk, Past, Do;
    if steps != [] {
      StaysPast(cfg, s, steps[..|steps| - 1], r, n);
      RunKeeps(cfg, s, steps[..|steps| - 1]);
      PastStep(cfg, Runs(cfg, s, steps[..|steps| - 1]), steps[|steps| - 1], r, n);
    }
  }

  // No update is lost: once a change of a policy was published, no run brings back a state in
  // which an operation that expects the revision it had expected changes anything.
  lemma StaleRevisionNeverChanges(cfg: Config, s: Service, op: Op, now: Time, steps: seq<Step>, other: Op, later: Time)
    requires ServiceOk(cfg, s) && !s.failed && !Opens(op) && !Opens(other)
    requires Apply(cfg, s.st, op, now).Changed? && Fit(cfg, Apply(cfg, s.st, op, now).next).Some?
    requires PolicyOf(s.st, op.resource).Some? && Counts(PolicyOf(s.st, op.resource).value, op)
    requires other.resource == op.resource && Expected(other) == Expected(op)
    ensures !Apply(cfg, Runs(cfg, Do(cfg, s, Mutate(op, now, Publishes)), steps).st, other, later).Changed?
  {
    hide Apply, Fit, LedgerOk, SuffixOf, TooLarge, PolicyOf, Counts, Runs, Logged;
    var r, m := op.resource, Apply(cfg, s.st, op, now);
    var a := Do(cfg, s, Mutate(op, now, Publishes));
    OnlyAdministratorsChange(cfg, s.st, op, now);
    ChangeCounts(cfg, s.st, op, now);
    ChangedPolicyOf(cfg, s.st, op, now, r);
    ApplyKeeps(cfg, s.st, op, now);
    FittedPolicyOf(cfg, m.next, r);
    MutateKeeps(cfg, s, op, now, Publishes);
    StaysPast(cfg, a, steps, r, Expected(op) + 1);
    var n := Runs(cfg, a, steps);
    if Apply(cfg, n.st, other, later).Changed? { OnlyAdministratorsChange(cfg, n.st, other, later); }
  }
}
