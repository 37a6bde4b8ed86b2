/**
 Runs of the authorization service: mutations whose writes are published, fail
 before, or end unknown, and restarts from the file
 (src/dashboard-authorization.ts:522-527, 638-706).
 */
module LedgerRuns {
  import opened Wrappers
  import opened Sorting
  import opened Ledger
  import opened LedgerInvariant
  import opened LedgerRoles

  // How atomicWritePrivateJson ends; when it cannot say, the file may have landed.
  datatype Outcome = Publishes | FailsBefore | Unknown(landed: bool)

  // `log` is every receipt ever appended, `fileLog` those of the file.
  datatype Service = Service(st: State, log: seq<Receipt>, file: Option<State>, fileLog: seq<Receipt>, failed: bool)

  datatype Step = Mutate(op: Op, now: Time, outcome: Outcome) | Restart

  function FileState(s: Service): State { if s.file.Some? then s.file.value else EMPTY }

  function Logged(log: seq<Receipt>, op: Op, answer: Policy): seq<Receipt> {
    if PendingOf(op).Some? then log + [Receipt(PendingOf(op).value, answer)] else log
  }

  // #write and #mutate after the operation changed the records to `n`.
  function Settle(cfg: Config, s: Service, op: Op, n: State, answer: Policy, outcome: Outcome): Service {
    match Fit(cfg, n)
    case None => s
    case Some(w) =>
      var log := Logged(s.log, op, answer);
      match outcome
      case Publishes => Service(w, log, Some(w), log, false)
      case FailsBefore => s
      case Unknown(landed) =>
        Service(w, log, if landed then Some(w) else s.file, if landed then log else s.fileLog, true)
  }

  ghost function Do(cfg: Config, s: Service, step: Step): Service {
    match step
    case Mutate(op, now, outcome) =>
      if s.failed then s
      else
        (match Apply(cfg, s.st, op, now)
         case Changed(n, answer) => Settle(cfg, s, op, n, answer, outcome)
         case _ => s)
    case Restart =>
      if s.file.None? || ReloadAccepts(cfg, s.file.value)
      then Service(FileState(s), s.fileLog, s.file, s.fileLog, false)
      else s.(failed := true)
  }

  ghost function Runs(cfg: Config, s: Service, steps: seq<Step>): Service
    decreases |steps|
  {
    if steps == [] then s else Do(cfg, Runs(cfg, s, steps[..|steps| - 1]), steps[|steps| - 1])
  }

  const FRESH_SERVICE := Service(EMPTY, [], None, [], false)

  // ---- What every run keeps -------------------------------------------------------------

  predicate SuffixOf(a: seq<Receipt>, b: seq<Receipt>) { |a| <= |b| && a == b[|b| - |a|..] }

  ghost predicate ServiceOk(cfg: Config, s: Service) {
    && LedgerOk(cfg, s.st) && LedgerOk(cfg, FileState(s))
    && (s.file.Some? ==> !TooLarge(cfg, s.file.value))
    && SuffixOf(s.st.receipts, s.log) && SuffixOf(FileState(s).receipts, s.fileLog)
    && (!s.failed ==> s.st == FileState(s) && s.log == s.fileLog)
  }

  lemma SuffixAfter(a: seq<Receipt>, b: seq<Receipt>, x: Receipt, k: nat)
    requires SuffixOf(a, b) && k <= |a| + 1
    ensures SuffixOf((a + [x])[k..], b + [x])
  {
  }

  lemma SuffixShorter(a: seq<Receipt>, b: seq<Receipt>, k: nat)
    requires SuffixOf(a, b) && k <= |a|
    ensures SuffixOf(a[k..], b)
  {
  }

  // A mutation appends its receipt, and then perhaps forgets the oldest.
  lemma AppliedReceipts(cfg: Config, st: State, op: Op, now: Time)
    requires Apply(cfg, st, op, now).Changed?
    ensures
      var m := Apply(cfg, st, op, now);
      if PendingOf(op).None? then m.next.receipts == st.receipts
      else
        var receipts := st.receipts + [Receipt(PendingOf(op).value, m.answer)];
        m.next.receipts == receipts[Excess(|receipts|, MAX_RECEIPTS)..]
  {
    hide Sort, Lookup, ResourceKey, Without, Replaced, FindReceipt, RoleOf;
  }

  lemma AppliedKeepsSuffix(cfg: Config, st: State, log: seq<Receipt>, op: Op, now: Time)
    requires Apply(cfg, st, op, now).Changed? && SuffixOf(st.receipts, log)
    ensures SuffixOf(Apply(cfg, st, op, now).next.receipts, Logged(log, op, Apply(cfg, st, op, now).answer))
  {
    hide Apply;
    AppliedReceipts(cfg, st, op, now);
    if PendingOf(op).Some? {
      var x := Receipt(PendingOf(op).value, Apply(cfg, st, op, now).answer);
      SuffixAfter(st.receipts, log, x, Excess(|st.receipts + [x]|, MAX_RECEIPTS));
    }
  }

  // What is written of a mutation.
  lemma FittedKeeps(cfg: Config, st: State, log: seq<Receipt>, op: Op, now: Time)
    requires LedgerOk(cfg, st) && SuffixOf(st.receipts, log)
    requires Apply(cfg, st, op, now).Changed? && Fit(cfg, Apply(cfg, st, op, now).next).Some?
    ensures
      var m := Apply(cfg, st, op, now);
      var n := Fit(cfg, m.next).value;
      LedgerOk(cfg, n) && !TooLarge(cfg, n) && SuffixOf(n.receipts, Logged(log, op, m.answer))
  {
    hide Apply, Fit, LedgerOk, SuffixOf, TooLarge;
    var m := Apply(cfg, st, op, now);
    ApplyKeeps(cfg, st, op, now);
    FitKeeps(cfg, m.next);
    AppliedKeepsSuffix(cfg, st, log, op, now);
    var k: nat :| k <= |m.next.receipts| && Fit(cfg, m.next).value.receipts == m.next.receipts[k..];
    SuffixShorter(m.next.receipts, Logged(log, op, m.answer), k);
  }

  lemma MutateKeeps(cfg: Config, s: Service, op: Op, now: Time, outcome: Outcome)
    requires ServiceOk(cfg, s)
    ensures ServiceOk(cfg, Do(cfg, s, Mutate(op, now, outcome)))
  {
    hide Apply, Fit, LedgerOk, SuffixOf, TooLarge, Logged;
    var m := Apply(cfg, s.st, op, now);
    if !s.failed && m.Changed? && Fit(cfg, m.next).Some? { FittedKeeps(cfg, s.st, s.log, op, now); }
  }

  lemma StepKeeps(cfg: Config, s: Service, step: Step)
    requires ServiceOk(cfg, s)
    ensures ServiceOk(cfg, Do(cfg, s, step))
  {
    match step
    case Mutate(op, now, outcome) => MutateKeeps(cfg, s, op, now, outcome);
    case Restart =>
  }

  // In every run the retained audit is consecutive after the dropped events, every
  // resource has at most one policy, no owner is a grantee, and the retained receipts
  // are a suffix of all receipts.
  lemma {:induction false} RunKeeps(cfg: Config, s: Service, steps: seq<Step>)
    requires ServiceOk(cfg, s)
    ensures ServiceOk(cfg, Runs(cfg, s, steps))
    decreases |steps|
  {
    if steps != [] {
      RunKeeps(cfg, s, steps[..|steps| - 1]);
      StepKeeps(cfg, Runs(cfg, s, steps[..|steps| - 1]), steps[|steps| - 1]);
    }
  }

  lemma FreshIsOk(cfg: Config)
    ensures ServiceOk(cfg, FRESH_SERVICE)
  {
    EmptyIsOk(cfg);
  }

  // ---- What is kept ------------------------------------------------------------------------

  // A write forgets receipts, oldest first, and only then audit events, each only because the
  // state was still too large with it.
  lemma {:induction false} ReceiptsEvictedLast(cfg: Config, st: State)
    ensures
      var n := EvictReceipts(cfg, st);
      var k := |st.receipts| - |n.receipts|;
      && 0 <= k && n == st.(receipts := st.receipts[k..])
      && (forall j | 0 <= j < k :: TooLarge(cfg, st.(receipts := st.receipts[j..])))
      && (TooLarge(cfg, n) ==> n.receipts == [])
    decreases |st.receipts|
  {
    if st.receipts != [] && TooLarge(cfg, st) {
      var but := st.(receipts := st.receipts[1..]);
      ReceiptsEvictedLast(cfg, but);
      var n := EvictReceipts(cfg, st);
      var k := |st.receipts| - |n.receipts|;
      assert but.receipts[k - 1..] == st.receipts[k..];
      forall j | 0 <= j < k ensures TooLarge(cfg, st.(receipts := st.receipts[j..])) {
        if j == 0 { assert st.receipts[0..] == st.receipts; }
        else {
          assert st.receipts[j..] == but.receipts[j - 1..];
          assert TooLarge(cfg, but.(receipts := but.receipts[j - 1..]));
        }
      }
    }
  }

  lemma {:induction false} AuditEvictedLast(cfg: Config, st: State)
    ensures
      var n := EvictAudit(cfg, st);
      var k := |st.audit| - |n.audit|;
      && 0 <= k && n == st.(audit := st.audit[k..], dropped := st.dropped + k)
      && (forall j | 0 <= j < k :: TooLarge(cfg, st.(audit := st.audit[j..], dropped := st.dropped + j)))
      && (TooLarge(cfg, n) ==> n.audit == [])
    decreases |st.audit|
  {
    if st.audit != [] && TooLarge(cfg, st) {
      var but := st.(audit := st.audit[1..], dropped := st.dropped + 1);
      AuditEvictedLast(cfg, but);
      var n := EvictAudit(cfg, st);
      var k := |st.audit| - |n.audit|;
      assert but.audit[k - 1..] == st.audit[k..];
      forall j | 0 <= j < k ensures TooLarge(cfg, st.(audit := st.audit[j..], dropped := st.dropped + j)) {
        if j == 0 { assert st.audit[0..] == st.audit; }
        else {
          assert st.audit[j..] == but.audit[j - 1..];
          assert TooLarge(cfg, but.(audit := but.audit[j - 1..], dropped := but.dropped + (j - 1)));
        }
      }
    }
  }

  // The state with the first i receipts and the first j audit events forgotten.
  function Forgetting(st: State, i: nat, j: nat): State
    requires i <= |st.receipts| && j <= |st.audit|
  {
    st.(receipts := st.receipts[i..], audit := st.audit[j..], dropped := st.dropped + j)
  }

  // What is written is the first state of this order that is small enough: all of it, then with
  // ever fewer receipts, then with none and ever fewer events; and nothing is written exactly
  // when even the state without any is too large.
  lemma FitIsMinimal(cfg: Config, st: State)
    ensures Fit(cfg, st).None? <==> TooLarge(cfg, Forgetting(st, |st.receipts|, |st.audit|))
                                    && (forall i | 0 <= i <= |st.receipts| :: TooLarge(cfg, Forgetting(st, i, 0)))
                                    && (forall j | 0 <= j <= |st.audit| ::
                                          TooLarge(cfg, Forgetting(st, |st.receipts|, j)))
    ensures Fit(cfg, st).Some? ==>
              exists i, j | 0 <= i <= |st.receipts| && 0 <= j <= |st.audit| ::
                && Fit(cfg, st).value == Forgetting(st, i, j) && !TooLarge(cfg, Forgetting(st, i, j))
                && (j > 0 ==> i == |st.receipts|)
                && (forall k | 0 <= k < i :: TooLarge(cfg, Forgetting(st, k, 0)))
                && (forall k | 0 <= k < j :: TooLarge(cfg, Forgetting(st, i, k)))
  {
    ReceiptsEvictedLast(cfg, st);
    var r := EvictReceipts(cfg, st);
    AuditEvictedLast(cfg, r);
    var n := EvictAudit(cfg, r);
    var i, j := |st.receipts| - |r.receipts|, |r.audit| - |n.audit|;
    hide EvictReceipts, EvictAudit, TooLarge;
    assert st.audit[0..] == st.audit;
    forall k | 0 <= k <= i ensures Forgetting(st, k, 0) == st.(receipts := st.receipts[k..]) { }
    forall k | 0 <= k <= j ensures Forgetting(st, i, k) == r.(audit := r.audit[k..], dropped := r.dropped + k) { }
    assert n == Forgetting(st, i, j);
    assert r == Forgetting(st, i, 0);
  }

  // The writer keeps all of a state exactly where the reader takes a file of its size.
  lemma FitsAsItIs(cfg: Config, st: State)
    ensures Fit(cfg, st) == Some(st) <==> cfg.bytes(st) + 1 <= cfg.maxBytes
  {
    ReceiptsEvictedLast(cfg, st);
    AuditEvictedLast(cfg, EvictReceipts(cfg, st));
  }

  // ---- Retries ---------------------------------------------------------------------------

  predicate Retained(s: Service, i: nat) { i < |s.log| && |s.log| - |s.st.receipts| <= i }

  lemma {:induction false} FindsOnly(receipts: seq<Receipt>, i: nat)
    requires i < |receipts|
    requires forall j, k | 0 <= j < k < |receipts| ::
               receipts[j].pending.actor != receipts[k].pending.actor
                   || receipts[j].pending.key != receipts[k].pending.key
    ensures FindReceipt(receipts, receipts[i].pending.actor, receipts[i].pending.key) == Some(receipts[i])
  {
    if i > 0 { FindsOnly(receipts[1..], i - 1); }
  }

  // A retry under a retained receipt's actor and key: the same content gets the first
  // result, other content is refused, and neither changes anything.
  lemma RetryIsSilent(cfg: Config, s: Service, i: nat, op: Op, now: Time, outcome: Outcome)
    requires ServiceOk(cfg, s) && !s.failed && Retained(s, i)
    requires PendingOf(op).Some?
    requires PendingOf(op).value.actor == s.log[i].pending.actor && PendingOf(op).value.key == s.log[i].pending.key
    ensures Apply(cfg, s.st, op, now)
         == if PendingOf(op).value.request == s.log[i].pending.request then Answered(s.log[i].result)
             else Refused(KeyConflict)
    ensures Do(cfg, s, Mutate(op, now, outcome)) == s
  {
    hide RoleOf, Administer, PolicyOf, PoliciesOk, AuditOk;
    var j := i - (|s.log| - |s.st.receipts|);
    assert s.st.receipts[j] == s.log[i];
    FindsOnly(s.st.receipts, j);
  }

  lemma StepGrowsFileLog(cfg: Config, s: Service, step: Step)
    requires ServiceOk(cfg, s)
    ensures s.fileLog <= Do(cfg, s, step).fileLog
  {
    hide Apply, Fit, LedgerOk, ReloadAccepts, TooLarge;
  }

  lemma {:induction false} RunGrowsFileLog(cfg: Config, s: Service, steps: seq<Step>)
    requires ServiceOk(cfg, s)
    ensures s.fileLog <= Runs(cfg, s, steps).fileLog
    decreases |steps|
  {
    if steps != [] {
      var before := steps[..|steps| - 1];
      RunGrowsFileLog(cfg, s, before);
      RunKeeps(cfg, s, before);
      StepGrowsFileLog(cfg, Runs(cfg, s, before), steps[|steps| - 1]);
    }
  }

  // After a keyed mutation was published, any number of later mutations and restarts
  // leave its retry answered with the first result, as long as its receipt is retained.
  lemma RetryAfterAnyRun(cfg: Config, s: Service, op: Op, now: Time, steps: seq<Step>, later: Time, outcome: Outcome)
    requires ServiceOk(cfg, s) && !s.failed && PendingOf(op).Some?
    requires Apply(cfg, s.st, op, now).Changed? && Fit(cfg, Apply(cfg, s.st, op, now).next).Some?
    ensures
      var first := Apply(cfg, s.st, op, now).answer;
      var n := Runs(cfg, Do(cfg, s, Mutate(op, now, Publishes)), steps);
      !n.failed && Retained(n, |s.log|) ==>
        Apply(cfg, n.st, op, later) == Answered(first) && Do(cfg, n, Mutate(op, later, outcome)) == n
  {
    hide Apply, Fit, LedgerOk, TooLarge, Retained, ReloadAccepts;
    var a := Do(cfg, s, Mutate(op, now, Publishes));
    MutateKeeps(cfg, s, op, now, Publishes);
    RunKeeps(cfg, a, steps);
    RunGrowsFileLog(cfg, a, steps);
    var n := Runs(cfg, a, steps);
    if !n.failed && Retained(n, |s.log|) {
      assert n.log[|s.log|] == a.log[|s.log|];
      RetryIsSilent(cfg, n, |s.log|, op, later, outcome);
    }
  }

  // ---- Restarts -----------------------------------------------------------------------------

  ghost predicate ServiceCapped(cfg: Config, s: Service) { AllCapped(cfg, s.st) && AllCapped(cfg, FileState(s)) }

  ghost predicate ServiceReadable(s: Service) { KeysReadable(s.st) && KeysReadable(FileState(s)) }

  ghost predicate Overflows(cfg: Config, s: Service, step: Step) {
    step.Mutate? && PolicyOf(s.st, step.op.resource).Some?
    && OverflowsCap(cfg, PolicyOf(s.st, step.op.resource).value, step.op)
  }

  // A mutation under a key that the reader will refuse.
  predicate Garbles(step: Step) {
    step.Mutate? && PendingOf(step.op).Some? && !ReadableKey(PendingOf(step.op).value.key)
  }

  ghost predicate Spoils(cfg: Config, s: Service, step: Step) { Overflows(cfg, s, step) || Garbles(step) }

  lemma ApplyKeepsCaps(cfg: Config, st: State, op: Op, now: Time)
    requires LedgerOk(cfg, st) && AllCapped(cfg, st) && Apply(cfg, st, op, now).Changed?
    requires Capped(cfg, Apply(cfg, st, op, now).answer)
    ensures AllCapped(cfg, Apply(cfg, st, op, now).next)
  {
    hide Apply, ResourceKey, Lookup;
    var m := Apply(cfg, st, op, now);
    ApplyKeeps(cfg, st, op, now);
    AppliedReceipts(cfg, st, op, now);
    forall i | 0 <= i < |m.next.policies| ensures Capped(cfg, m.next.policies[i].value) {
      var x := m.next.policies[i];
      InLookup(m.next.policies, x);
      ChangedPolicyOf(cfg, st, op, now, x.value.resource);
      if x.value.resource != op.resource {
        LookupIn(st.policies, x.key);
        var j :| 0 <= j < |st.policies| && st.policies[j] == x;
      }
    }
  }

  lemma FitKeepsCaps(cfg: Config, st: State)
    requires LedgerOk(cfg, st) && AllCapped(cfg, st) && Fit(cfg, st).Some?
    ensures AllCapped(cfg, Fit(cfg, st).value)
  {
    hide Fit, LedgerOk;
    FitKeeps(cfg, st);
  }

  lemma StepKeepsCaps(cfg: Config, s: Service, step: Step)
    requires ServiceOk(cfg, s) && ServiceCapped(cfg, s) && !Overflows(cfg, s, step)
    ensures ServiceCapped(cfg, Do(cfg, s, step))
  {
    hide Apply, Fit, LedgerOk, AllCapped, OverflowsCap, ReloadAccepts, PolicyOf, SuffixOf, TooLarge;
    if step.Mutate? && !s.failed && Apply(cfg, s.st, step.op, step.now).Changed? {
      var m := Apply(cfg, s.st, step.op, step.now);
      if step.op.Register? || step.op.Adopt? { NewIsCapped(cfg, s.st, step.op, step.now); }
      else { AnswerCapped(cfg, s.st, step.op, step.now); }
      ApplyKeeps(cfg, s.st, step.op, step.now);
      ApplyKeepsCaps(cfg, s.st, step.op, step.now);
      if Fit(cfg, m.next).Some? { FitKeepsCaps(cfg, m.next); }
    }
  }

  lemma NewIsCapped(cfg: Config, st: State, op: Op, now: Time)
    requires (op.Register? || op.Adopt?) && Apply(cfg, st, op, now).Changed?
    ensures Capped(cfg, Apply(cfg, st, op, now).answer)
  {
  }

  // A receipt is appended under the mutation's key, or none is.
  lemma AppliedKeys(cfg: Config, st: State, op: Op, now: Time)
    requires KeysReadable(st) && Apply(cfg, st, op, now).Changed?
    requires PendingOf(op).Some? ==> ReadableKey(PendingOf(op).value.key)
    ensures KeysReadable(Apply(cfg, st, op, now).next)
  {
    hide Apply, ReadableKey;
    AppliedReceipts(cfg, st, op, now);
  }

  lemma FittedKeys(cfg: Config, st: State)
    requires LedgerOk(cfg, st) && KeysReadable(st) && Fit(cfg, st).Some?
    ensures KeysReadable(Fit(cfg, st).value)
  {
    hide Fit, LedgerOk, ReadableKey;
    FitKeeps(cfg, st);
    var k: nat :| k <= |st.receipts| && Fit(cfg, st).value.receipts == st.receipts[k..];
  }

  lemma StepKeepsKeys(cfg: Config, s: Service, step: Step)
    requires ServiceOk(cfg, s) && ServiceReadable(s) && !Garbles(step)
    ensures ServiceReadable(Do(cfg, s, step))
  {
    hide Apply, Fit, LedgerOk, KeysReadable, ReloadAccepts, SuffixOf, TooLarge, ReadableKey;
    if step.Mutate? && !s.failed && Apply(cfg, s.st, step.op, step.now).Changed? {
      var m := Apply(cfg, s.st, step.op, step.now);
      AppliedKeys(cfg, s.st, step.op, step.now);
      ApplyKeeps(cfg, s.st, step.op, step.now);
      if Fit(cfg, m.next).Some? { FittedKeys(cfg, m.next); }
    }
  }

  // No step of the run spoils the file for the reader.
  ghost predicate NeverSpoiled(cfg: Config, s: Service, steps: seq<Step>) {
    forall i | 0 <= i < |steps| :: !Spoils(cfg, Runs(cfg, s, steps[..i]), steps[i])
  }

  lemma {:induction false} RunStaysReadable(cfg: Config, s: Service, steps: seq<Step>)
    requires ServiceOk(cfg, s) && ServiceCapped(cfg, s) && ServiceReadable(s) && NeverSpoiled(cfg, s, steps)
    ensures ServiceCapped(cfg, Runs(cfg, s, steps)) && ServiceReadable(Runs(cfg, s, steps))
    decreases |steps|
  {
    hide ServiceOk, ServiceCapped, ServiceReadable, Do, Overflows, Garbles;
    if steps != [] {
      var before := steps[..|steps| - 1];
      assert forall i | 0 <= i < |before| :: before[..i] == steps[..i] && before[i] == steps[i];
      RunStaysReadable(cfg, s, before);
      RunKeeps(cfg, s, before);
      StepKeepsCaps(cfg, Runs(cfg, s, before), steps[|steps| - 1]);
      StepKeepsKeys(cfg, Runs(cfg, s, before), steps[|steps| - 1]);
    }
  }

  // A run without a transfer at the cap and without an unreadable key can always be
  // restarted, whatever its writes did.
  lemma RestartAlwaysWorks(cfg: Config, steps: seq<Step>)
    requires NeverSpoiled(cfg, FRESH_SERVICE, steps)
    ensures !Do(cfg, Runs(cfg, FRESH_SERVICE, steps), Restart).failed
  {
    hide LedgerOk, AllCapped, KeysReadable, ReloadAccepts, NeverSpoiled, TooLarge, SuffixOf, Runs;
    FreshIsOk(cfg);
    FreshIsCapped(cfg);
    FreshIsReadable();
    RunKeeps(cfg, FRESH_SERVICE, steps);
    RunStaysReadable(cfg, FRESH_SERVICE, steps);
    var s := Runs(cfg, FRESH_SERVICE, steps);
    if s.file.Some? { ReloadsExactly(cfg, s.file.value); }
  }

  lemma FreshIsCapped(cfg: Config)
    ensures ServiceCapped(cfg, FRESH_SERVICE)
  {
  }

  lemma FreshIsReadable()
    ensures ServiceReadable(FRESH_SERVICE)
  {
  }

  // What a keyed mutation leaves of the receipts: nothing, or its own at the end.
  lemma OwnReceiptIsLast(cfg: Config, s: Service, op: Op, now: Time)
    requires ServiceOk(cfg, s) && PendingOf(op).Some?
    requires Apply(cfg, s.st, op, now).Changed? && Fit(cfg, Apply(cfg, s.st, op, now).next).Some?
    ensures
      var receipts := Fit(cfg, Apply(cfg, s.st, op, now).next).value.receipts;
      receipts != [] ==> receipts[|receipts| - 1].pending == PendingOf(op).value
  {
    hide Apply, Fit, LedgerOk, TooLarge, SuffixOf;
    var m := Apply(cfg, s.st, op, now);
    ApplyKeeps(cfg, s.st, op, now);
    FitKeeps(cfg, m.next);
    AppliedReceipts(cfg, s.st, op, now);
    var k: nat :| k <= |m.next.receipts| && Fit(cfg, m.next).value.receipts == m.next.receipts[k..];
  }

  lemma KeysUnreadable(st: State)
    requires st.receipts != [] && !ReadableKey(st.receipts[|st.receipts| - 1].pending.key)
    ensures !KeysReadable(st)
  {
  }

  // ... the first mutation under an unreadable key makes the next restart fail exactly when
  // the bytes left its receipt in the file ...
  lemma UnreadableKeyBlocksRestart(cfg: Config, s: Service, op: Op, now: Time)
    requires ServiceOk(cfg, s) && ServiceCapped(cfg, s) && ServiceReadable(s) && !s.failed
    requires Garbles(Mutate(op, now, Publishes)) && !Overflows(cfg, s, Mutate(op, now, Publishes))
    requires Apply(cfg, s.st, op, now).Changed? && Fit(cfg, Apply(cfg, s.st, op, now).next).Some?
    ensures Do(cfg, Do(cfg, s, Mutate(op, now, Publishes)), Restart).failed
       <==> Fit(cfg, Apply(cfg, s.st, op, now).next).value.receipts != []
  {
    hide Apply, Fit, ReloadAccepts, LedgerOk, AllCapped, ReadableKey, Overflows, KeysReadable, TooLarge, SuffixOf,
      Logged;
    var n := Fit(cfg, Apply(cfg, s.st, op, now).next).value;
    var a := Do(cfg, s, Mutate(op, now, Publishes));
    assert a.file == Some(n) && !a.failed;
    MutateKeeps(cfg, s, op, now, Publishes);
    StepKeepsCaps(cfg, s, Mutate(op, now, Publishes));
    OwnReceiptIsLast(cfg, s, op, now);
    if n.receipts != [] { KeysUnreadable(n); } else { NoKeys(n); }
    ReloadsExactly(cfg, n);
  }

  lemma NoKeys(st: State)
    requires st.receipts == []
    ensures KeysReadable(st)
  {
  }

  // ... and the first transfer at the cap makes the next restart fail for good.
  lemma OverflowBlocksRestart(cfg: Config, s: Service, op: Op, now: Time)
    requires ServiceOk(cfg, s) && ServiceCapped(cfg, s) && !s.failed
    requires Overflows(cfg, s, Mutate(op, now, Publishes))
    requires Apply(cfg, s.st, op, now).Changed? && Fit(cfg, Apply(cfg, s.st, op, now).next).Some?
    ensures Do(cfg, Do(cfg, s, Mutate(op, now, Publishes)), Restart).failed
  {
    hide Apply, Fit, ReloadAccepts, LedgerOk;
    TransferAtCapBlocksReload(cfg, s.st, op, now);
  }

  // ---- A run that gets there ----------------------------------------------------------------

  const OWNED := Resource(Session, "s")

  const OWNER := Principal("a", Member)

  function Grantee(k: nat): string { seq(k + 1, _ => 'g') }

  // The resource is owned by the owner and shared with the first k grantees.
  ghost predicate Shared(cfg: Config, s: Service, k: nat) {
    && ServiceOk(cfg, s) && ServiceCapped(cfg, s) && !s.failed && s.log == []
    && PolicyOf(s.st, OWNED).Some?
    && var p := PolicyOf(s.st, OWNED).value;
       && p.owner == OWNER.identity && |p.grants| == k
       && forall x | x in p.grants :: 1 <= |x.key| <= k && x.key[0] == 'g'
  }

  ghost predicate Roomy(cfg: Config) { cfg.maxPolicies >= 1 && forall st :: !TooLarge(cfg, st) }

  lemma RoomyFits(cfg: Config, st: State)
    requires Roomy(cfg)
    ensures Fit(cfg, st) == Some(st)
  {
    assert !TooLarge(cfg, st);
  }

  lemma RegisterChanges(cfg: Config)
    requires cfg.maxPolicies >= 1
    ensures
      var m := Apply(cfg, EMPTY, Register(OWNER, OWNED), 0);
      m.Changed? && m.answer.owner == OWNER.identity && m.answer.grants == []
  {
    hide Sort, ResourceKey, AppendAudit;
  }

  lemma Registers(cfg: Config)
    requires Roomy(cfg)
    ensures Shared(cfg, Do(cfg, FRESH_SERVICE, Mutate(Register(OWNER, OWNED), 0, Publishes)), 0)
  {
    assert cfg.maxPolicies >= 1;
    hide Roomy, LedgerOk, AllCapped, Lookup, Sort, Apply, Fit, ResourceKey;
    var op := Register(OWNER, OWNED);
    var m := Apply(cfg, EMPTY, op, 0);
    RegisterChanges(cfg);
    FreshIsOk(cfg);
    FreshIsCapped(cfg);
    MutateKeeps(cfg, FRESH_SERVICE, op, 0, Publishes);
    PublishesAsIs(cfg, FRESH_SERVICE, op);
    ChangedPolicyOf(cfg, EMPTY, op, 0, OWNED);
    ApplyKeepsCaps(cfg, EMPTY, op, 0);
  }

  function SharesWith(cfg: Config, s: Service, k: nat): Op
    requires PolicyOf(s.st, OWNED).Some?
  {
    SetGrant(OWNER, OWNED, Grantee(k), Read, PolicyOf(s.st, OWNED).value.revision, None)
  }

  lemma NotYetShared(grants: seq<Keyed<Role>>, k: nat)
    requires forall x | x in grants :: 1 <= |x.key| <= k && x.key[0] == 'g'
    ensures Lookup(grants, Grantee(k)).None? && Lookup(grants, "n").None?
  {
    LookupIn(grants, Grantee(k));
    LookupIn(grants, "n");
  }

  lemma SharesChanges(cfg: Config, s: Service, k: nat)
    requires Shared(cfg, s, k) && k < cfg.maxGrants
    ensures
      var op, p := SharesWith(cfg, s, k), PolicyOf(s.st, OWNED).value;
      var m := Apply(cfg, s.st, op, 0);
      m.Changed? && PolicyOk(p) && p.resource == OWNED
      && m.answer.owner == p.owner && m.answer.grants == GrantsWith(cfg, p.grants, op.subject, Read)
      && |m.answer.grants| == k + 1
      && forall x | x in m.answer.grants :: 1 <= |x.key| <= k + 1 && x.key[0] == 'g'
  {
    var p := PolicyOf(s.st, OWNED).value;
    FoundIsNamed(cfg, s.st, OWNED);
    NotYetShared(p.grants, k);
    assert Grantee(k)[0] == 'g' && OWNER.identity[0] == 'a';
    GrantsWithKeep(cfg, p, Grantee(k), Read);
    hide LedgerOk, AllCapped, Lookup, Sort, GrantsWith;
  }

  // A published mutation without a key, in a file with room.
  lemma PublishesAsIs(cfg: Config, s: Service, op: Op)
    requires Roomy(cfg) && !s.failed && Apply(cfg, s.st, op, 0).Changed? && PendingOf(op).None?
    ensures
      var next := Apply(cfg, s.st, op, 0).next;
      Do(cfg, s, Mutate(op, 0, Publishes)) == Service(next, s.log, Some(next), s.log, false)
  {
    RoomyFits(cfg, Apply(cfg, s.st, op, 0).next);
    hide Roomy, Apply, Fit;
  }

  lemma Shares(cfg: Config, s: Service, k: nat)
    requires Roomy(cfg) && Shared(cfg, s, k) && k < cfg.maxGrants
    ensures Shared(cfg, Do(cfg, s, Mutate(SharesWith(cfg, s, k), 0, Publishes)), k + 1)
  {
    var op := SharesWith(cfg, s, k);
    hide Roomy, LedgerOk, AllCapped, Lookup, Sort, Apply, Fit, GrantsWith, Do, ResourceKey;
    SharesChanges(cfg, s, k);
    PublishesAsIs(cfg, s, op);
    MutateKeeps(cfg, s, op, 0, Publishes);
    ChangedPolicyOf(cfg, s.st, op, 0, OWNED);
    ApplyKeepsCaps(cfg, s.st, op, 0);
  }

  lemma SharedHasPolicy(cfg: Config, s: Service, k: nat)
    requires Shared(cfg, s, k)
    ensures PolicyOf(s.st, OWNED).Some?
  {
  }

  lemma {:induction false} SharedRun(cfg: Config, k: nat) returns (steps: seq<Step>)
    requires Roomy(cfg) && k <= cfg.maxGrants
    ensures Shared(cfg, Runs(cfg, FRESH_SERVICE, steps), k)
  {
    if k == 0 {
      steps := [Mutate(Register(OWNER, OWNED), 0, Publishes)];
      Registers(cfg);
      assert steps[..0] == [];
    } else {
      var but := SharedRun(cfg, k - 1);
      hide Roomy, Shared, Do;
      var s := Runs(cfg, FRESH_SERVICE, but);
      assert PolicyOf(s.st, OWNED).Some? by { SharedHasPolicy(cfg, s, k - 1); }
      Shares(cfg, s, k - 1);
      steps := but + [Mutate(SharesWith(cfg, s, k - 1), 0, Publishes)];
      assert steps[..|steps| - 1] == but;
    }
  }

  function HandsOver(cfg: Config, s: Service): Op
    requires PolicyOf(s.st, OWNED).Some?
  {
    TransferOwnership(OWNER, OWNED, "n", Some(Read), PolicyOf(s.st, OWNED).value.revision, None)
  }

  lemma HandsOverAtCap(cfg: Config, s: Service)
    requires Roomy(cfg) && Shared(cfg, s, cfg.maxGrants)
    ensures Apply(cfg, s.st, HandsOver(cfg, s), 0).Changed?
    ensures Overflows(cfg, s, Mutate(HandsOver(cfg, s), 0, Publishes))
  {
    NotYetShared(PolicyOf(s.st, OWNED).value.grants, cfg.maxGrants);
    assert OWNER.identity[0] == 'a' && "n"[0] == 'n';
    hide Roomy, LedgerOk, AllCapped, Lookup, Sort;
  }

  // Whatever the cap, some run of published writes ends in a restart that fails.
  lemma OverflowHappens(cfg: Config)
    requires Roomy(cfg)
    ensures exists steps :: Do(cfg, Runs(cfg, FRESH_SERVICE, steps), Restart).failed
  {
    var but := SharedRun(cfg, cfg.maxGrants);
    var s := Runs(cfg, FRESH_SERVICE, but);
    var last := Mutate(HandsOver(cfg, s), 0, Publishes);
    HandsOverAtCap(cfg, s);
    RoomyFits(cfg, Apply(cfg, s.st, HandsOver(cfg, s), 0).next);
    hide Roomy, LedgerOk, AllCapped, Lookup, Sort, Apply, Fit, Overflows, ReloadAccepts;
    OverflowBlocksRestart(cfg, s, HandsOver(cfg, s), 0);
    var steps := but + [last];
    assert steps[..|steps| - 1] == but;
    assert Runs(cfg, FRESH_SERVICE, steps) == Do(cfg, s, last);
  }

  function SharesUnder(cfg: Config, s: Service, key: string): Op
    requires PolicyOf(s.st, OWNED).Some?
  {
    SetGrant(OWNER, OWNED, Grantee(0), Read, PolicyOf(s.st, OWNED).value.revision, Some(key))
  }

  lemma SharesUnderChanges(cfg: Config, s: Service, key: string)
    requires Shared(cfg, s, 0) && cfg.maxGrants > 0
    ensures Apply(cfg, s.st, SharesUnder(cfg, s, key), 0).Changed?
  {
    var p := PolicyOf(s.st, OWNED).value;
    assert s.st.receipts == [];
    FoundIsNamed(cfg, s.st, OWNED);
    NotYetShared(p.grants, 0);
    assert Grantee(0)[0] == 'g' && OWNER.identity[0] == 'a';
    GrantsWithKeep(cfg, p, Grantee(0), Read);
    hide LedgerOk, AllCapped, Lookup, Sort, GrantsWith;
  }

  lemma SharedHasNoReceipt(cfg: Config, s: Service)
    requires Shared(cfg, s, 0)
    ensures s.st.receipts == [] && ServiceReadable(s) && ServiceOk(cfg, s) && ServiceCapped(cfg, s) && !s.failed
  {
    assert s.st == FileState(s);
    hide LedgerOk, AllCapped, TooLarge;
  }

  lemma UnreadableShareBlocks(cfg: Config, s: Service)
    requires Roomy(cfg) && Shared(cfg, s, 0) && cfg.maxGrants > 0 && PolicyOf(s.st, OWNED).Some?
    ensures
      var last := Mutate(SharesUnder(cfg, s, "\n"), 0, Publishes);
      !Overflows(cfg, s, last) && Do(cfg, Do(cfg, s, last), Restart).failed
  {
    hide Roomy, Shared, ServiceOk, ServiceCapped, ServiceReadable, Lookup, Apply, Fit, ReloadAccepts, Do;
    var op := SharesUnder(cfg, s, "\n");
    SharesUnderChanges(cfg, s, "\n");
    SharedHasNoReceipt(cfg, s);
    RoomyFits(cfg, Apply(cfg, s.st, op, 0).next);
    AppliedReceipts(cfg, s.st, op, 0);
    UnreadableKeyBlocksRestart(cfg, s, op, 0);
  }

  // A run in which nothing passes the cap: a session is shared under a key with a newline,
  // and the service cannot start again.
  lemma UnreadableKeyHappens(cfg: Config)
    requires Roomy(cfg) && cfg.maxGrants > 0
    ensures exists s: Service, op: Op ::
              && !s.failed && s == Runs(cfg, FRESH_SERVICE, [Mutate(Register(OWNER, OWNED), 0, Publishes)])
              && op.SetGrant? && op.key == Some("\n") && !Overflows(cfg, s, Mutate(op, 0, Publishes))
              && Do(cfg, Do(cfg, s, Mutate(op, 0, Publishes)), Restart).failed
  {
    var steps := [Mutate(Register(OWNER, OWNED), 0, Publishes)];
    assert steps[..0] == [];
    assert Runs(cfg, FRESH_SERVICE, steps[..0]) == FRESH_SERVICE;
    hide Roomy, Shared, Do, Overflows;
    Registers(cfg);
    var s := Runs(cfg, FRESH_SERVICE, steps);
    SharedHasPolicy(cfg, s, 0);
    SharedHasNoReceipt(cfg, s);
    UnreadableShareBlocks(cfg, s);
    var op := SharesUnder(cfg, s, "\n");
    assert op.SetGrant? && op.key == Some("\n");
  }
}
