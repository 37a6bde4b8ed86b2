/**
 The audit log tells who has access: read from its beginning it gives every role that
 the policies give (src/dashboard-authorization.ts:564-745).
 */
module LedgerAudit {
  import opened Wrappers
  import opened Sorting
  import opened Ledger
  import opened LedgerInvariant
  import opened LedgerRoles
  import opened LedgerRuns
  import opened LedgerAuthority

  // The role on a resource that an identity has after an event, by the event alone.
  function RoleAfter(was: Option<Role>, f: Fact, r: Resource, who: string): Option<Role> {
    if f.resource != r then was
    else
      match f.action
      case Created => if who == f.subject then Some(Admin) else None
      case Adopted => if who == f.subject then Some(Admin) else None
      case GrantSet => if who == f.subject then f.role else was
      case GrantRevoked => if who == f.subject then None else was
      case OwnershipTransferred =>
        if who == f.subject then Some(Admin) else if Some(who) == f.previousOwner then f.role else was
      case ControllerTransferred => was
  }

  // ... and after all of them.
  function ToldRole(events: seq<Event>, r: Resource, who: string): Option<Role> {
    if events == [] then None
    else RoleAfter(ToldRole(events[..|events| - 1], r, who), events[|events| - 1].fact, r, who)
  }

  // Who the log says was the controller last.
  function ToldController(events: seq<Event>, r: Resource): Option<string> {
    if events == [] then None
    else
      var f := events[|events| - 1].fact;
      if f.resource == r && f.action.ControllerTransferred? then Some(f.subject)
      else ToldController(events[..|events| - 1], r)
  }

  // The role that the policies give an identity.
  function GivenRole(st: State, r: Resource, who: string): Option<Role> {
    match PolicyOf(st, r)
    case None => None
    case Some(p) => Gives(p, who)
  }

  // ---- One operation ------------------------------------------------------------------------

  // The operation writes an event: every one does but a repeated revocation and a transfer to
  // the present owner.
  predicate Audited(st: State, op: Op) {
    Opens(op) || op.RecordController? || (PolicyOf(st, op.resource).Some? && Counts(PolicyOf(st, op.resource).value, op))
  }

  lemma AuditOfOpening(cfg: Config, st: State, op: Op, now: Time) returns (f: Fact)
    requires LedgerOk(cfg, st) && Opens(op) && Apply(cfg, st, op, now).Changed?
    ensures f.actor == op.who.identity && f.resource == op.resource && (f.action.Created? || f.action.Adopted?)
    ensures f.subject == Apply(cfg, st, op, now).answer.owner
    ensures Apply(cfg, st, op, now).next.audit == AppendAudit(cfg, st, f, now).audit
    ensures Apply(cfg, st, op, now).next.dropped == AppendAudit(cfg, st, f, now).dropped
  {
    var owner := if op.Adopt? then op.owner else op.who.identity;
    f := Fact(op.who.identity, if op.Adopt? then Adopted else Created, op.resource, owner, None, None, None);
    hide Lookup, ResourceKey, Sort;
  }

  lemma AuditOfChange(cfg: Config, st: State, op: Op, now: Time) returns (f: Fact)
    requires LedgerOk(cfg, st) && !Opens(op) && Apply(cfg, st, op, now).Changed? && Audited(st, op)
    ensures PolicyOf(st, op.resource).Some?
    ensures f.actor == op.who.identity && f.resource == op.resource
    ensures f.action.ControllerTransferred? <==> op.RecordController?
    ensures op.RecordController? ==> f.subject == op.next && f.previousController == op.previous
    ensures op.SetGrant? ==> f.action.GrantSet? && f.subject == op.subject && f.role == Some(op.role)
    ensures op.RevokeGrant? ==> f.action.GrantRevoked? && f.subject == op.subject
    ensures op.TransferOwnership? ==>
              && f.action.OwnershipTransferred? && f.subject == op.newOwner && f.role == op.previousOwnerRole
              && f.previousOwner == Some(PolicyOf(st, op.resource).value.owner)
    ensures Apply(cfg, st, op, now).next.audit == AppendAudit(cfg, st, f, now).audit
    ensures Apply(cfg, st, op, now).next.dropped == AppendAudit(cfg, st, f, now).dropped
  {
    FoundIsNamed(cfg, st, op.resource);
    var p := PolicyOf(st, op.resource).value;
    if op.RevokeGrant? { WithoutIs(p.grants, op.subject); }
    hide Lookup, ResourceKey, Sort, Without, Replaced, GrantsWith, GrantsAfterTransfer;
    match op
    case SetGrant(who, r, subject, role, _, _) => f := Fact(who.identity, GrantSet, r, subject, Some(role), None, None);
    case RevokeGrant(who, r, subject, _, _) => f := Fact(who.identity, GrantRevoked, r, subject, None, None, None);
    case TransferOwnership(who, r, newOwner, role, _, _) =>
      f := Fact(who.identity, OwnershipTransferred, r, newOwner, role, Some(p.owner), None);
    case RecordController(who, r, previous, next, _, _) =>
      f := Fact(who.identity, ControllerTransferred, r, next, None, None, previous);
  }

  lemma NoAudit(cfg: Config, st: State, op: Op, now: Time)
    requires LedgerOk(cfg, st) && Apply(cfg, st, op, now).Changed? && !Audited(st, op)
    ensures Apply(cfg, st, op, now).next.audit == st.audit && Apply(cfg, st, op, now).next.dropped == st.dropped
  {
    FoundIsNamed(cfg, st, op.resource);
    var p := PolicyOf(st, op.resource).value;
    if op.RevokeGrant? { WithoutIs(p.grants, op.subject); }
    hide Lookup, ResourceKey, Sort, Without, Replaced, GrantsWith, GrantsAfterTransfer;
  }

  lemma RolesAreGiven(cfg: Config, st: State, op: Op, now: Time, r: Resource, who: string)
    requires LedgerOk(cfg, st) && Apply(cfg, st, op, now).Changed?
    ensures
      var n := Apply(cfg, st, op, now).next;
      && (PolicyOf(st, r).Some? ==> GivenRole(st, r, who) == RoleOf(cfg, st, Principal(who, Member), r))
      && (PolicyOf(n, r).Some? ==> GivenRole(n, r, who) == RoleOf(cfg, n, Principal(who, Member), r))
      && (r != op.resource ==> GivenRole(n, r, who) == GivenRole(st, r, who))
      && PolicyOf(n, op.resource) == Some(Apply(cfg, st, op, now).answer)
  {
    hide Apply, Lookup, ResourceKey;
    ChangedPolicyOf(cfg, st, op, now, r);
    ChangedPolicyOf(cfg, st, op, now, op.resource);
  }

  // The event tells exactly how the operation changed everybody's role.
  lemma EventTells(cfg: Config, st: State, op: Op, now: Time, r: Resource, who: string) returns (f: Fact)
    requires LedgerOk(cfg, st) && Apply(cfg, st, op, now).Changed? && Audited(st, op)
    ensures f.actor == op.who.identity && f.resource == op.resource
    ensures f.action.ControllerTransferred? <==> op.RecordController?
    ensures op.RecordController? ==> f.subject == op.next && f.previousController == op.previous
    ensures
      var n := Apply(cfg, st, op, now).next;
      && n.audit == AppendAudit(cfg, st, f, now).audit && n.dropped == AppendAudit(cfg, st, f, now).dropped
      && GivenRole(n, r, who) == RoleAfter(GivenRole(st, r, who), f, r, who)
  {
    hide Apply, PolicyOf, RoleOf, LedgerOk;
    var q := Principal(who, Member);
    RolesAreGiven(cfg, st, op, now, r, who);
    OnlyAdministratorsChange(cfg, st, op, now);
    if Opens(op) {
      f := AuditOfOpening(cfg, st, op, now);
      if r == op.resource { OpenedRoles(cfg, st, op, now, q); }
    } else {
      f := AuditOfChange(cfg, st, op, now);
      if r == op.resource { ChangedRoles(cfg, st, op, now, q); }
    }
  }

  lemma OpenedRoles(cfg: Config, st: State, op: Op, now: Time, q: Principal)
    requires LedgerOk(cfg, st) && Opens(op) && Apply(cfg, st, op, now).Changed? && q.globalRole.Member?
    ensures
      var m := Apply(cfg, st, op, now);
      && m.answer.owner == (if op.Adopt? then op.owner else op.who.identity)
      && RoleOf(cfg, m.next, q, op.resource) == if q.identity == m.answer.owner then Some(Admin) else None
  {
    NewResourceIsTheOwners(cfg, st, op, now, q);
    hide Lookup, ResourceKey, Sort;
  }

  lemma ChangedRoles(cfg: Config, st: State, op: Op, now: Time, q: Principal)
    requires LedgerOk(cfg, st) && !Opens(op) && Apply(cfg, st, op, now).Changed? && Audited(st, op)
    requires q.globalRole.Member?
    ensures PolicyOf(st, op.resource).Some?
    ensures
      var m, p := Apply(cfg, st, op, now), PolicyOf(st, op.resource).value;
      var now', was := RoleOf(cfg, m.next, q, op.resource), RoleOf(cfg, st, q, op.resource);
      match op
      case SetGrant(_, _, subject, role, _, _) => now' == if q.identity == subject then Some(role) else was
      case RevokeGrant(_, _, subject, _, _) => now' == if q.identity == subject then None else was
      case TransferOwnership(_, _, newOwner, role, _, _) =>
        now' == if q.identity == newOwner then Some(Admin) else if q.identity == p.owner then role else was
      case _ => now' == was
  {
    ChangeCounts(cfg, st, op, now);
    match op
    case SetGrant(_, _, _, _, _, _) => SetGrantGives(cfg, st, op, now, q);
    case RevokeGrant(_, _, subject, _, _) =>
      RevokeGrantTakes(cfg, st, op, now, q);
      FoundIsNamed(cfg, st, op.resource);
      LookupIn(PolicyOf(st, op.resource).value.grants, subject);
    case TransferOwnership(_, _, _, _, _, _) => TransferMoves(cfg, st, op, now, q);
    case RecordController(_, _, _, _, _, _) => hide Apply; RolesAreGiven(cfg, st, op, now, op.resource, q.identity);
  }

  function Least(a: nat, b: nat): nat { if a <= b then a else b }

  // The last of `was` and what was added, as many as the limit allows.
  ghost predicate Newest<T>(was: seq<T>, added: nat, limit: nat, now: seq<T>) {
    && |now| == Least(|was| + added, limit)
    && forall i | 0 <= i < |now| && i + |was| + added - |now| < |was| :: now[i] == was[i + |was| + added - |now|]
  }

  lemma TrimmedIsNewest<T>(was: seq<T>, x: T, limit: nat)
    ensures Newest(was, 1, limit, (was + [x])[Excess(|was| + 1, limit)..])
  {
  }

  lemma AppendedIsNewest(cfg: Config, st: State, f: Fact, now: Time)
    ensures
      var n := AppendAudit(cfg, st, f, now);
      Newest(st.audit, 1, cfg.maxAudit, n.audit) && n.dropped == st.dropped + |st.audit| + 1 - |n.audit|
  {
    TrimmedIsNewest(st.audit, Event(st.nextSequence, now, f), cfg.maxAudit);
    hide Newest;
  }

  // A mutation keeps the newest receipts and audit events that their limits allow, and counts the
  // events it drops.
  lemma KeepsTheNewest(cfg: Config, st: State, op: Op, now: Time)
    requires LedgerOk(cfg, st) && Apply(cfg, st, op, now).Changed?
    ensures
      var n := Apply(cfg, st, op, now).next;
      var events := if Audited(st, op) then 1 else 0;
      && Newest(st.receipts, if PendingOf(op).Some? then 1 else 0, MAX_RECEIPTS, n.receipts)
      && Newest(st.audit, events, cfg.maxAudit, n.audit)
      && n.dropped == st.dropped + |st.audit| + events - |n.audit|
  {
    AppliedReceipts(cfg, st, op, now);
    var n := Apply(cfg, st, op, now).next;
    if PendingOf(op).Some? {
      TrimmedIsNewest(st.receipts, Receipt(PendingOf(op).value, Apply(cfg, st, op, now).answer), MAX_RECEIPTS);
    }
    assert |st.audit| <= cfg.maxAudit && |st.receipts| <= MAX_RECEIPTS;
    hide Apply, Audited, LedgerOk, AppendAudit;
    if Audited(st, op) {
      var f := EventTells(cfg, st, op, now, op.resource, "");
      AppendedIsNewest(cfg, st, f, now);
    } else {
      NoAudit(cfg, st, op, now);
    }
  }

  // ---- Over runs --------------------------------------------------------------------------------

  // The log tells every role, as long as nothing was dropped from it.
  ghost predicate AuditTells(st: State, r: Resource, who: string) {
    st.dropped == 0 ==> ToldRole(st.audit, r, who) == GivenRole(st, r, who)
  }

  lemma AppendTells(cfg: Config, st: State, f: Fact, now: Time, r: Resource, who: string)
    ensures AppendAudit(cfg, st, f, now).dropped == 0 ==>
              && st.dropped == 0
              && ToldRole(AppendAudit(cfg, st, f, now).audit, r, who) == RoleAfter(ToldRole(st.audit, r, who), f, r, who)
  {
    var e := Event(st.nextSequence, now, f);
    assert (st.audit + [e])[..|st.audit|] == st.audit;
    assert (st.audit + [e])[0..] == st.audit + [e];
  }

  lemma ApplyTells(cfg: Config, st: State, op: Op, now: Time, r: Resource, who: string)
    requires LedgerOk(cfg, st) && AuditTells(st, r, who) && Apply(cfg, st, op, now).Changed?
    ensures AuditTells(Apply(cfg, st, op, now).next, r, who)
  {
    hide Apply, LedgerOk, GivenRole, ToldRole, RoleAfter, AppendAudit;
    if Audited(st, op) {
      var f := EventTells(cfg, st, op, now, r, who);
      AppendTells(cfg, st, f, now, r, who);
    } else {
      NoAudit(cfg, st, op, now);
      QuietKeepsRoles(cfg, st, op, now, r, who);
    }
  }

  lemma QuietKeepsRoles(cfg: Config, st: State, op: Op, now: Time, r: Resource, who: string)
    requires LedgerOk(cfg, st) && Apply(cfg, st, op, now).Changed? && !Audited(st, op)
    ensures GivenRole(Apply(cfg, st, op, now).next, r, who) == GivenRole(st, r, who)
  {
    hide Apply, Lookup, ResourceKey;
    OnlyAdministratorsChange(cfg, st, op, now);
    ChangeCounts(cfg, st, op, now);
    ChangedPolicyOf(cfg, st, op, now, r);
  }

  lemma {:induction false} EvictedAudit(cfg: Config, st: State)
    ensures EvictAudit(cfg, st).dropped >= st.dropped
    ensures EvictAudit(cfg, st).dropped == st.dropped ==> EvictAudit(cfg, st).audit == st.audit
    decreases |st.audit|
  {
    if st.audit != [] && TooLarge(cfg, st) {
      EvictedAudit(cfg, st.(audit := st.audit[1..], dropped := st.dropped + 1));
    }
  }

  lemma FitTells(cfg: Config, st: State, r: Resource, who: string)
    requires LedgerOk(cfg, st) && AuditTells(st, r, who) && Fit(cfg, st).Some?
    ensures AuditTells(Fit(cfg, st).value, r, who)
  {
    EvictReceiptsKeeps(cfg, st);
    EvictedAudit(cfg, EvictReceipts(cfg, st));
    FittedPolicyOf(cfg, st, r);
    hide LedgerOk, ToldRole, EvictReceipts, EvictAudit;
  }

  lemma StepTells(cfg: Config, s: Service, step: Step, r: Resource, who: string)
    requires ServiceOk(cfg, s) && AuditTells(s.st, r, who) && AuditTells(FileState(s), r, who)
    ensures AuditTells(Do(cfg, s, step).st, r, who) && AuditTells(FileState(Do(cfg, s, step)), r, who)
  {
    hide Apply, Fit, LedgerOk, SuffixOf, TooLarge, ReloadAccepts, AuditTells;
    if step.Mutate? && Apply(cfg, s.st, step.op, step.now).Changed? {
      var m := Apply(cfg, s.st, step.op, step.now);
      ApplyTells(cfg, s.st, step.op, step.now, r, who);
      ApplyKeeps(cfg, s.st, step.op, step.now);
      if Fit(cfg, m.next).Some? { FitTells(cfg, m.next, r, who); }
    }
  }

  lemma {:induction false} RunTells(cfg: Config, steps: seq<Step>, r: Resource, who: string)
    ensures
      var n := Runs(cfg, FRESH_SERVICE, steps);
      AuditTells(n.st, r, who) && AuditTells(FileState(n), r, who)
    decreases |steps|
  {
    if steps == [] {
      hide LedgerOk;
    } else {
      var but := steps[..|steps| - 1];
      hide ServiceOk, Do, AuditTells;
      FreshIsOk(cfg);
      RunTells(cfg, but, r, who);
      RunKeeps(cfg, FRESH_SERVICE, but);
      StepTells(cfg, Runs(cfg, FRESH_SERVICE, but), steps[|steps| - 1], r, who);
    }
  }

  // In every run from an empty ledger, of writes that are published, fail or end unknown and of
  // restarts: as long as no event was dropped, reading the audit log from its beginning gives
  // exactly the role that every member has on every registered resource.
  lemma AuditTellsRoles(cfg: Config, steps: seq<Step>, r: Resource, who: string)
    ensures
      var st := Runs(cfg, FRESH_SERVICE, steps).st;
      st.dropped == 0 && PolicyOf(st, r).Some? ==>
        ToldRole(st.audit, r, who) == RoleOf(cfg, st, Principal(who, Member), r)
  {
    RunTells(cfg, steps, r, who);
    hide ToldRole;
  }

  // A transfer of control that was recorded is what the log says of the controller, after
  // whatever it said before.
  lemma ControllerIsTold(cfg: Config, st: State, op: Op, now: Time)
    requires LedgerOk(cfg, st) && op.RecordController? && Apply(cfg, st, op, now).Changed? && cfg.maxAudit > 0
    ensures
      var n := Apply(cfg, st, op, now).next;
      && ToldController(n.audit, op.resource) == Some(op.next)
      && n.audit != [] && n.audit[|n.audit| - 1].fact.previousController == op.previous
      && n.audit[|n.audit| - 1].fact.actor == op.who.identity && n.audit[|n.audit| - 1].occurredAt == now
  {
    hide Apply, LedgerOk;
    var f := EventTells(cfg, st, op, now, op.resource, "");
  }
}
