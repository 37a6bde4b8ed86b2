/** Every ledger mutation, eviction and rollback keeps the ledger's invariant. */
module LedgerInvariant {
  import opened Wrappers
  import opened Sorting
  import opened Ledger

  // ---- Keyed sequences ------------------------------------------------------------------

  lemma {:induction false} LookupIn<T>(s: seq<Keyed<T>>, key: string)
    ensures Lookup(s, key).Some? ==> Keyed(key, Lookup(s, key).value) in s
    ensures Lookup(s, key).None? ==> forall i | 0 <= i < |s| :: s[i].key != key
  {
    if s != [] && s[0].key != key { LookupIn(s[1..], key); }
  }

  lemma {:induction false} InLookup<T>(s: seq<Keyed<T>>, x: Keyed<T>)
    requires UniqueKeys(s) && x in s
    ensures Lookup(s, x.key) == Some(x.value)
  {
    if s[0].key != x.key {
      InLookup(s[1..], x);
    } else {
      var i :| 0 <= i < |s| && s[i] == x;
      assert i == 0;
    }
  }

  lemma {:induction false} WithoutIs<T(!new)>(s: seq<Keyed<T>>, key: string)
    requires UniqueKeys(s)
    ensures UniqueKeys(Without(s, key))
    ensures forall x :: x in Without(s, key) <==> x in s && x.key != key
    ensures |Without(s, key)| == |s| - (if Lookup(s, key).Some? then 1 else 0)
  {
    if s != [] {
      WithoutIs(s[1..], key);
      assert forall x :: x in s <==> x == s[0] || x in s[1..];
      if s[0].key == key {
        LookupIn(s[1..], key);
      } else {
        OneInFront(s[0], Without(s[1..], key), s);
      }
    }
  }

  lemma OneInFront<T(!new)>(x: Keyed<T>, w: seq<Keyed<T>>, s: seq<Keyed<T>>)
    requires UniqueKeys(s) && s != [] && s[0] == x && UniqueKeys(w)
    requires forall y :: y in w ==> y in s[1..]
    ensures UniqueKeys([x] + w)
    ensures forall y :: y in [x] + w <==> y == x || y in w
  {
    forall j | 0 <= j < |w| ensures w[j].key != x.key {
      assert w[j] in w;
      var k :| 1 <= k < |s| && s[k] == w[j];
    }
  }

  lemma PushIs<T(!new)>(s: seq<Keyed<T>>, x: Keyed<T>)
    requires UniqueKeys(s) && forall i | 0 <= i < |s| :: s[i].key != x.key
    ensures UniqueKeys(s + [x])
    ensures forall y :: y in s + [x] <==> y in s || y == x
  {
  }

  lemma SortIs<T(!new)>(le: Order, s: seq<Keyed<T>>)
    requires UniqueKeys(s)
    ensures UniqueKeys(Sort(le, s)) && |Sort(le, s)| == |s|
    ensures forall x :: x in Sort(le, s) <==> x in s
  {
    SortUnique(le, s);
    SortKeeps(le, s);
  }

  lemma {:induction false} ReplacedIs<T>(s: seq<Keyed<T>>, key: string, value: T)
    requires UniqueKeys(s) && Lookup(s, key).Some?
    ensures |Replaced(s, key, value)| == |s|
    ensures forall i | 0 <= i < |s| ::
              Replaced(s, key, value)[i] == if s[i].key == key then Keyed(key, value) else s[i]
  {
    if s[0].key != key { ReplacedIs(s[1..], key, value); }
  }

  lemma ReplacedLookup<T>(s: seq<Keyed<T>>, key: string, value: T, other: string)
    requires UniqueKeys(s) && Lookup(s, key).Some?
    ensures UniqueKeys(Replaced(s, key, value))
    ensures Lookup(Replaced(s, key, value), other) == if other == key then Some(value) else Lookup(s, other)
  {
    hide Lookup, Replaced;
    var r := Replaced(s, key, value);
    ReplacedIs(s, key, value);
    LookupIn(s, key);
    LookupIn(s, other);
    LookupIn(r, other);
    if other == key {
      var i :| 0 <= i < |s| && s[i] == Keyed(key, Lookup(s, key).value);
      assert r[i] == Keyed(key, value);
      InLookup(r, r[i]);
    } else if Lookup(s, other).Some? {
      var i :| 0 <= i < |s| && s[i] == Keyed(other, Lookup(s, other).value);
      assert r[i] == s[i];
      InLookup(r, r[i]);
    } else {
      forall i | 0 <= i < |r| ensures r[i].key != other { }
    }
  }

  // ---- The parts of a mutation --------------------------------------------------------------

  lemma AppendAuditKeeps(cfg: Config, st: State, fact: Fact, now: Time)
    requires AuditOk(cfg, st)
    ensures AuditOk(cfg, AppendAudit(cfg, st, fact, now))
    ensures AppendAudit(cfg, st, fact, now).policies == st.policies
    ensures AppendAudit(cfg, st, fact, now).receipts == st.receipts
  {
  }

  lemma {:induction false} NoReceipt(receipts: seq<Receipt>, actor: string, key: string)
    ensures FindReceipt(receipts, actor, key).None? ==>
              forall i | 0 <= i < |receipts| :: receipts[i].pending.actor != actor || receipts[i].pending.key != key
    ensures FindReceipt(receipts, actor, key).Some? ==>
              var r := FindReceipt(receipts, actor, key).value;
              r in receipts && r.pending.actor == actor && r.pending.key == key
  {
    if receipts != [] { NoReceipt(receipts[1..], actor, key); }
  }

  lemma AppendReceiptKeeps(st: State, pending: Option<Pending>, result: Policy)
    requires ReceiptsOk(st.receipts) && PolicyOk(result)
    requires pending.Some? ==> FindReceipt(st.receipts, pending.value.actor, pending.value.key).None?
    ensures ReceiptsOk(AppendReceipt(st, pending, result).receipts)
  {
    if pending.Some? { NoReceipt(st.receipts, pending.value.actor, pending.value.key); }
  }

  lemma FoundPolicy(cfg: Config, st: State, r: Resource)
    requires PoliciesOk(cfg, st.policies) && PolicyOf(st, r).Some?
    ensures PolicyOk(PolicyOf(st, r).value)
    ensures ResourceKey(PolicyOf(st, r).value.resource) == ResourceKey(r)
  {
    LookupIn(st.policies, ResourceKey(r));
    var i :| 0 <= i < |st.policies| && st.policies[i] == Keyed(ResourceKey(r), PolicyOf(st, r).value);
  }

  lemma CreatedPolicies(cfg: Config, st: State, owner: string, r: Resource, now: Time)
    requires PoliciesOk(cfg, st.policies) && PolicyOf(st, r).None? && |st.policies| < cfg.maxPolicies
    ensures
      var s := Sort(cfg.le, st.policies + [Keyed(ResourceKey(r), NewPolicy(r, owner, now))]);
      && PoliciesOk(cfg, s)
      && (forall x :: x in s <==> x in st.policies || x == Keyed(ResourceKey(r), NewPolicy(r, owner, now)))
  {
    hide ResourceKey, Sort;
    var x := Keyed(ResourceKey(r), NewPolicy(r, owner, now));
    LookupIn(st.policies, ResourceKey(r));
    PushIs(st.policies, x);
    SortIs(cfg.le, st.policies + [x]);
    var s := Sort(cfg.le, st.policies + [x]);
    forall i | 0 <= i < |s| ensures s[i].key == ResourceKey(s[i].value.resource) && PolicyOk(s[i].value) {
      assert s[i] in s;
    }
  }

  lemma CreateKeeps(cfg: Config, st: State, actor: string, owner: string, r: Resource, action: Action, now: Time)
    requires LedgerOk(cfg, st) && PolicyOf(st, r).None?
    ensures
      var m := CreatePolicy(cfg, st, actor, owner, r, action, now);
      m.Changed? ==> LedgerOk(cfg, m.next)
  {
    hide ResourceKey, Sort, PoliciesOk, ReceiptsOk;
    if |st.policies| < cfg.maxPolicies {
      CreatedPolicies(cfg, st, owner, r, now);
      var n := st.(policies := Sort(cfg.le, st.policies + [Keyed(ResourceKey(r), NewPolicy(r, owner, now))]),
                   revision := st.revision + 1);
      AppendAuditKeeps(cfg, n, Fact(actor, action, r, owner, None, None, None), now);
    }
  }

  lemma ReplaceKeeps(cfg: Config, st: State, r: Resource, owner: string, grants: seq<Keyed<Role>>, fact: Fact,
                     pending: Option<Pending>, now: Time)
    requires LedgerOk(cfg, st) && PolicyOf(st, r).Some?
    requires UniqueKeys(grants) && forall i | 0 <= i < |grants| :: grants[i].key != owner
    requires pending.Some? ==> FindReceipt(st.receipts, pending.value.actor, pending.value.key).None?
    ensures LedgerOk(cfg, ReplacePolicy(cfg, st, PolicyOf(st, r).value, owner, grants, fact, pending, now).next)
  {
    var previous := PolicyOf(st, r).value;
    FoundPolicy(cfg, st, r);
    var m := ReplacePolicy(cfg, st, previous, owner, grants, fact, pending, now);
    var key := ResourceKey(previous.resource);
    ReplacedIs(st.policies, key, m.answer);
    ReplacedLookup(st.policies, key, m.answer, key);
    var n := st.(policies := Replaced(st.policies, key, m.answer), revision := st.revision + 1);
    AppendAuditKeeps(cfg, n, fact, now);
    AppendReceiptKeeps(AppendAudit(cfg, n, fact, now), pending, m.answer);
  }

  lemma GrantsWithKeep(cfg: Config, p: Policy, subject: string, role: Role)
    requires PolicyOk(p) && subject != p.owner
    ensures
      var grants := GrantsWith(cfg, p.grants, subject, role);
      && UniqueKeys(grants) && (forall i | 0 <= i < |grants| :: grants[i].key != p.owner)
      && (forall x :: x in grants <==> (x in p.grants && x.key != subject) || x == Keyed(subject, role))
      && |grants| == |p.grants| + (if Lookup(p.grants, subject).Some? then 0 else 1)
  {
    var kept := Without(p.grants, subject);
    WithoutIs(p.grants, subject);
    forall i | 0 <= i < |kept| ensures kept[i].key != subject { assert kept[i] in kept; }
    PushIs(kept, Keyed(subject, role));
    SortIs(cfg.le, kept + [Keyed(subject, role)]);
    var grants := GrantsWith(cfg, p.grants, subject, role);
    forall i | 0 <= i < |grants| ensures grants[i].key != p.owner { assert grants[i] in grants; }
  }

  lemma RevokedKeep(p: Policy, subject: string)
    requires PolicyOk(p)
    ensures
      var grants := Without(p.grants, subject);
      UniqueKeys(grants) && forall i | 0 <= i < |grants| :: grants[i].key != p.owner
  {
    var grants := Without(p.grants, subject);
    WithoutIs(p.grants, subject);
    forall i | 0 <= i < |grants| ensures grants[i].key != p.owner { assert grants[i] in grants; }
  }

  lemma KeptAfterTransfer(p: Policy, newOwner: string)
    requires PolicyOk(p) && newOwner != p.owner
    ensures
      var kept := Without(Without(p.grants, newOwner), p.owner);
      && UniqueKeys(kept) && (forall i | 0 <= i < |kept| :: kept[i].key != p.owner)
      && (forall x :: x in kept <==> x in p.grants && x.key != newOwner)
      && |kept| == |p.grants| - (if Lookup(p.grants, newOwner).Some? then 1 else 0)
  {
    var others := Without(p.grants, newOwner);
    WithoutIs(p.grants, newOwner);
    WithoutIs(others, p.owner);
    LookupIn(others, p.owner);
    var kept := Without(others, p.owner);
    forall i | 0 <= i < |kept| ensures kept[i].key != p.owner { assert kept[i] in kept; }
    forall x | x in p.grants ensures x.key != p.owner { var i :| 0 <= i < |p.grants| && p.grants[i] == x; }
  }

  lemma TransferredKeep(cfg: Config, p: Policy, newOwner: string, role: Option<Role>)
    requires PolicyOk(p) && newOwner != p.owner
    ensures
      var grants := GrantsAfterTransfer(cfg, p, newOwner, role);
      && UniqueKeys(grants) && (forall i | 0 <= i < |grants| :: grants[i].key != newOwner)
      && (forall x :: x in grants <==>
            (x in p.grants && x.key != newOwner) || (role.Some? && x == Keyed(p.owner, role.value)))
      && |grants| == |p.grants| - (if Lookup(p.grants, newOwner).Some? then 1 else 0) + (if role.Some? then 1 else 0)
  {
    hide Without, Sort, Lookup;
    KeptAfterTransfer(p, newOwner);
    var kept := Without(Without(p.grants, newOwner), p.owner);
    if role.Some? { PushIs(kept, Keyed(p.owner, role.value)); }
    var unsorted := if role.Some? then kept + [Keyed(p.owner, role.value)] else kept;
    SortIs(cfg.le, unsorted);
    var grants := Sort(cfg.le, unsorted);
    forall i | 0 <= i < |grants| ensures grants[i].key != newOwner { assert grants[i] in grants; }
  }

  lemma AdministerKeeps(cfg: Config, st: State, op: Op, now: Time)
    requires LedgerOk(cfg, st) && !op.Register? && !op.Adopt? && PolicyOf(st, op.resource).Some?
    requires PendingOf(op).Some? ==> FindReceipt(st.receipts, PendingOf(op).value.actor, PendingOf(op).value.key).None?
    ensures
      var m := Administer(cfg, st, op, PolicyOf(st, op.resource).value, now);
      m.Changed? ==> LedgerOk(cfg, m.next)
  {
    var p := PolicyOf(st, op.resource).value;
    FoundPolicy(cfg, st, op.resource);
    match op
    case SetGrant(who, r, subject, role, _, _) =>
      if subject != p.owner {
        GrantsWithKeep(cfg, p, subject, role);
        ReplaceKeeps(cfg, st, r, p.owner, GrantsWith(cfg, p.grants, subject, role),
                     Fact(who.identity, GrantSet, r, subject, Some(role), None, None), PendingOf(op), now);
      }
    case RevokeGrant(who, r, subject, _, _) =>
      RevokedKeep(p, subject);
      AppendReceiptKeeps(st.(revision := st.revision + 1), PendingOf(op), p);
      ReplaceKeeps(cfg, st, r, p.owner, Without(p.grants, subject),
                   Fact(who.identity, GrantRevoked, r, subject, None, None, None), PendingOf(op), now);
    case TransferOwnership(who, r, newOwner, role, _, _) =>
      AppendReceiptKeeps(st.(revision := st.revision + 1), PendingOf(op), p);
      if p.owner != newOwner {
        TransferredKeep(cfg, p, newOwner, role);
        ReplaceKeeps(cfg, st, r, newOwner, GrantsAfterTransfer(cfg, p, newOwner, role),
                     Fact(who.identity, OwnershipTransferred, r, newOwner, role, Some(p.owner), None),
                         PendingOf(op), now);
      }
    case RecordController(who, r, previous, next, _, _) =>
      var fact := Fact(who.identity, ControllerTransferred, r, next, None, None, previous);
      AppendAuditKeeps(cfg, st.(revision := st.revision + 1), fact, now);
      AppendReceiptKeeps(AppendAudit(cfg, st.(revision := st.revision + 1), fact, now), PendingOf(op), p);
    case _ =>
  }

  lemma ApplyKeeps(cfg: Config, st: State, op: Op, now: Time)
    requires LedgerOk(cfg, st)
    ensures Apply(cfg, st, op, now).Changed? ==> LedgerOk(cfg, Apply(cfg, st, op, now).next)
  {
    match op
    case Register(who, r) =>
      if PolicyOf(st, r).None? { CreateKeeps(cfg, st, who.identity, who.identity, r, Created, now); }
    case Adopt(who, r, owner) =>
      if PolicyOf(st, r).None? { CreateKeeps(cfg, st, who.identity, owner, r, Adopted, now); }
    case _ =>
      if PolicyOf(st, op.resource).Some? && Apply(cfg, st, op, now).Changed? { AdministerKeeps(cfg, st, op, now); }
  }

  // ---- Eviction by bytes ------------------------------------------------------------------------

  lemma {:induction false} EvictReceiptsKeeps(cfg: Config, st: State)
    requires LedgerOk(cfg, st)
    ensures LedgerOk(cfg, EvictReceipts(cfg, st))
    ensures EvictReceipts(cfg, st) == st.(receipts := EvictReceipts(cfg, st).receipts)
    ensures exists k: nat :: k <= |st.receipts| && EvictReceipts(cfg, st).receipts == st.receipts[k..]
    decreases |st.receipts|
  {
    if st.receipts != [] && TooLarge(cfg, st) {
      var n := st.(receipts := st.receipts[1..]);
      EvictReceiptsKeeps(cfg, n);
      var k: nat :| k <= |n.receipts| && EvictReceipts(cfg, n).receipts == n.receipts[k..];
      assert n.receipts[k..] == st.receipts[k + 1..];
    } else {
      assert st.receipts[0..] == st.receipts;
    }
  }

  lemma {:induction false} EvictAuditKeeps(cfg: Config, st: State)
    requires LedgerOk(cfg, st)
    ensures LedgerOk(cfg, EvictAudit(cfg, st))
    ensures EvictAudit(cfg, st) == st.(audit := EvictAudit(cfg, st).audit, dropped := EvictAudit(cfg, st).dropped)
    decreases |st.audit|
  {
    if st.audit != [] && TooLarge(cfg, st) {
      EvictAuditKeeps(cfg, st.(audit := st.audit[1..], dropped := st.dropped + 1));
    }
  }

  // What is written keeps every policy and a suffix of the receipts.
  lemma FitKeeps(cfg: Config, st: State)
    requires LedgerOk(cfg, st)
    ensures
      Fit(cfg, st).Some? ==>
        var n := Fit(cfg, st).value;
        && LedgerOk(cfg, n) && !TooLarge(cfg, n)
        && n.policies == st.policies && n.revision == st.revision
        && (exists k: nat :: k <= |st.receipts| && n.receipts == st.receipts[k..])
  {
    EvictReceiptsKeeps(cfg, st);
    EvictAuditKeeps(cfg, EvictReceipts(cfg, st));
  }

  lemma EmptyIsOk(cfg: Config)
    ensures LedgerOk(cfg, EMPTY)
  {
  }

  // ---- Resource keys --------------------------------------------------------------------------------

  lemma KindNamesDiffer(a: Kind, b: Kind)
    ensures |KindName(a)| == |KindName(b)| ==> a == b
  {
  }

  lemma KindNameHasNoColon(k: Kind)
    ensures forall i | 0 <= i < |KindName(k)| :: KindName(k)[i] != ':'
  {
  }

  // No two resources share a key.
  lemma ResourceKeyTells(a: Resource, b: Resource)
    requires ResourceKey(a) == ResourceKey(b)
    ensures a == b
  {
    var m, n := |KindName(a.kind)|, |KindName(b.kind)|;
    KindNameHasNoColon(a.kind);
    KindNameHasNoColon(b.kind);
    assert ResourceKey(a)[m] == ':' && ResourceKey(b)[n] == ':';
    KindNamesDiffer(a.kind, b.kind);
    assert ResourceKey(a)[m + 1..] == a.id && ResourceKey(b)[n + 1..] == b.id;
  }
}
