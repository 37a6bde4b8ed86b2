/**
 Listing the sessions a principal may see, page by page, over a backend that lists
 them all (src/dashboard-authorization-enforcer.ts:183-324).

 For one query the backend's list is fixed, and so is what a principal may see.
 A backend cursor is the position it continues from.
 */
module InventoryPaging {
  import opened Wrappers

  type Id = nat
  type Time = int

  datatype Role = Read | Control | Admin

  function RoleRank(r: Role): nat {
    match r
    case Read => 1
    case Control => 2
    case Admin => 3
  }

  // ---- The best role over several references (#effectiveAny, lines 280-292) -------------

  predicate Suffices(role: Option<Role>, required: Role) { role.Some? && RoleRank(role.value) >= RoleRank(required) }

  method EffectiveAny(refs: seq<Id>, roleOf: Id -> Option<Role>, required: Role) returns (best: Option<(Id, Role)>)
    ensures best.None? <==> forall r | r in refs :: !Suffices(roleOf(r), required)
    ensures best.Some? ==>
              best.value.0 in refs && roleOf(best.value.0) == Some(best.value.1)
              && Suffices(Some(best.value.1), required)
    ensures best.Some? ==> forall r | r in refs && roleOf(r).Some? ::
        RoleRank(roleOf(r).value) <= RoleRank(best.value.1)
  {
    best := None;
    for i := 0 to |refs|
      invariant best.None? <==> forall j | 0 <= j < i :: !Suffices(roleOf(refs[j]), required)
      invariant best.Some? ==>
          best.value.0 in refs && roleOf(best.value.0) == Some(best.value.1) && Suffices(Some(best.value.1), required)
      invariant best.Some? ==>
          forall j | 0 <= j < i && roleOf(refs[j]).Some? :: RoleRank(roleOf(refs[j]).value) <= RoleRank(best.value.1)
    {
      var role := roleOf(refs[i]);
      if Suffices(role, required) && (best.None? || RoleRank(role.value) > RoleRank(best.value.1)) {
        best := Some((refs[i], role.value));
      }
    }
  }

  // ---- The backend ------------------------------------------------------------------------

  // `take(k, n)` of the records from position k, at most n of them.
  datatype Backend = Backend(list: seq<Id>, take: (nat, nat) -> nat)

  // Pages are contiguous, at most as long as asked, and empty only at the end.
  ghost predicate Fair(b: Backend) {
    forall k: nat, n: nat | k <= |b.list| ::
        b.take(k, n) <= n && k + b.take(k, n) <= |b.list| && (k < |b.list| && n > 0 ==> b.take(k, n) > 0)
  }

  function Filter(list: seq<Id>, sees: Id -> bool): seq<Id> {
    if list == [] then [] else (if sees(list[0]) then [list[0]] else []) + Filter(list[1..], sees)
  }

  lemma {:induction false} FilterAppends(a: seq<Id>, b: seq<Id>, sees: Id -> bool)
    ensures Filter(a + b, sees) == Filter(a, sees) + Filter(b, sees)
  {
    if a == [] {
      assert a + b == b;
    } else {
      assert (a + b)[1..] == a[1..] + b && (a + b)[0] == a[0];
      FilterAppends(a[1..], b, sees);
      var head := if sees(a[0]) then [a[0]] else [];
      assert Filter(a + b, sees) == head + Filter(a[1..] + b, sees);
      assert head + (Filter(a[1..], sees) + Filter(b, sees)) == (head + Filter(a[1..], sees)) + Filter(b, sees);
    }
  }

  lemma FilterNone(list: seq<Id>, i: nat, sees: Id -> bool)
    requires i <= |list|
    ensures Filter(list[i..i], sees) == []
  {
  }

  lemma {:induction false} FilterShrinks(list: seq<Id>, sees: Id -> bool)
    ensures |Filter(list, sees)| <= |list|
  {
    if list != [] { FilterShrinks(list[1..], sees); }
  }

  lemma FilterTo(list: seq<Id>, sees: Id -> bool, i: nat, j: nat)
    requires i <= j <= |list|
    ensures Filter(list[..j], sees) == Filter(list[..i], sees) + Filter(list[i..j], sees)
  {
    assert list[..j] == list[..i] + list[i..j];
    FilterAppends(list[..i], list[i..j], sees);
  }

  // ---- The cursor table ----------------------------------------------------------------------

  // `position` is the backend cursor, absent at the end of the list.
  datatype CursorRecord = CursorRecord(principal: Id, query: Id, position: Option<nat>, buffered: seq<Id>,
      expiresAt: Time)

  datatype Config = Config(maxItems: nat, maxScans: nat, maxCursors: nat, ttl: nat)

  datatype Page = Page(sessions: seq<Id>, next: Option<Id>)

  datatype Error = CursorInvalid

  function Live(cursors: seq<(Id, CursorRecord)>, now: Time): seq<(Id, CursorRecord)> {
    if cursors == [] then []
    else if cursors[0].1.expiresAt <= now then Live(cursors[1..], now)
    else [cursors[0]] + Live(cursors[1..], now)
  }

  function Find(cursors: seq<(Id, CursorRecord)>, token: Id): Option<CursorRecord> {
    if cursors == [] then None else if cursors[0].0 == token then Some(cursors[0].1) else Find(cursors[1..], token)
  }

  lemma {:induction false} LiveIn(cursors: seq<(Id, CursorRecord)>, now: Time)
    ensures forall c :: c in Live(cursors, now) <==> c in cursors && c.1.expiresAt > now
    ensures |Live(cursors, now)| <= |cursors|
  {
    if cursors != [] { LiveIn(cursors[1..], now); }
  }

  lemma {:induction false} FindIn(cursors: seq<(Id, CursorRecord)>, token: Id)
    ensures Find(cursors, token).Some? ==> (token, Find(cursors, token).value) in cursors
  {
    if cursors != [] && cursors[0].0 != token { FindIn(cursors[1..], token); }
  }

  lemma {:induction false} LiveAppends(a: seq<(Id, CursorRecord)>, b: seq<(Id, CursorRecord)>, now: Time)
    ensures Live(a + b, now) == Live(a, now) + Live(b, now)
  {
    if a == [] {
      assert a + b == b;
    } else {
      assert (a + b)[1..] == a[1..] + b && (a + b)[0] == a[0];
      LiveAppends(a[1..], b, now);
    }
  }

  lemma {:induction false} FindsFirst(a: seq<(Id, CursorRecord)>, token: Id, c: CursorRecord, b: seq<(Id, CursorRecord)>)
    requires forall x | x in a :: x.0 != token
    ensures Find(a + [(token, c)] + b, token) == Some(c)
  {
    var all := a + [(token, c)] + b;
    if a == [] {
      assert all[0] == (token, c);
    } else {
      assert a[0] in a && all[0] == a[0] && all[1..] == a[1..] + [(token, c)] + b;
      FindsFirst(a[1..], token, c, b);
    }
  }

  // The last n of the cursors.
  function Newest(cursors: seq<(Id, CursorRecord)>, n: nat): seq<(Id, CursorRecord)> {
    if |cursors| <= n then cursors else cursors[|cursors| - n..]
  }

  ghost predicate KeptAt(cursors: seq<(Id, CursorRecord)>, token: Id, c: CursorRecord, k: nat, i: nat) {
    && i < |cursors| && cursors[i] == (token, c) && |cursors| <= i + 1 + k
    && forall j | 0 <= j < i :: cursors[j].0 != token
  }

  // The token's cursor is there, with at most `k` stored after it.
  ghost predicate Kept(cursors: seq<(Id, CursorRecord)>, token: Id, c: CursorRecord, k: nat) {
    exists i: nat :: KeptAt(cursors, token, c, k, i)
  }

  lemma LiveAround(a: seq<(Id, CursorRecord)>, x: (Id, CursorRecord), b: seq<(Id, CursorRecord)>, now: Time)
    requires now < x.1.expiresAt
    ensures Live(a + [x] + b, now) == Live(a, now) + [x] + Live(b, now)
  {
    LiveAppends(a + [x], b, now);
    LiveAppends(a, [x], now);
    assert [x][1..] == [] && Live([x], now) == [x];
  }

  lemma AmidIsKept(a: seq<(Id, CursorRecord)>, token: Id, c: CursorRecord, b: seq<(Id, CursorRecord)>)
    requires forall x | x in a :: x.0 != token
    ensures KeptAt(a + [(token, c)] + b, token, c, |b|, |a|)
    ensures Find(a + [(token, c)] + b, token) == Some(c)
  {
    FindsFirst(a, token, c, b);
    forall j | 0 <= j < |a| ensures (a + [(token, c)] + b)[j].0 != token { assert a[j] in a; }
  }

  lemma KeptIsLive(cursors: seq<(Id, CursorRecord)>, token: Id, c: CursorRecord, k: nat, now: Time)
    requires Kept(cursors, token, c, k) && now < c.expiresAt
    ensures Kept(Live(cursors, now), token, c, k) && Find(Live(cursors, now), token) == Some(c)
  {
    var i: nat :| KeptAt(cursors, token, c, k, i);
    var a, b := cursors[..i], cursors[i + 1..];
    assert cursors == a + [(token, c)] + b;
    LiveAround(a, (token, c), b, now);
    LiveIn(a, now);
    LiveIn(b, now);
    var la, lb := Live(a, now), Live(b, now);
    assert Live(cursors, now) == la + [(token, c)] + lb;
    forall x | x in la ensures x.0 != token { assert x in a; }
    hide Live, Find;
    AmidIsKept(la, token, c, lb);
    assert KeptAt(Live(cursors, now), token, c, k, |Live(a, now)|);
  }

  lemma KeptAmongNewest(cursors: seq<(Id, CursorRecord)>, token: Id, c: CursorRecord, k: nat, n: nat,
      other: (Id, CursorRecord))
    requires Kept(cursors, token, c, k) && k < n
    ensures Kept(Newest(cursors, n) + [other], token, c, k + 1)
  {
    var i: nat :| KeptAt(cursors, token, c, k, i);
    var gone := |cursors| - |Newest(cursors, n)|;
    assert KeptAt(Newest(cursors, n) + [other], token, c, k + 1, i - gone);
  }

  lemma JustKept(cursors: seq<(Id, CursorRecord)>, token: Id, c: CursorRecord)
    requires forall i | 0 <= i < |cursors| :: cursors[i].0 != token
    ensures Kept(cursors + [(token, c)], token, c, 0)
  {
    assert KeptAt(cursors + [(token, c)], token, c, 0, |cursors|);
  }

  // The backend of each query, and what each principal sees.
  datatype World = World(backend: Id -> Backend, sees: (Id, Id) -> bool)

  ghost predicate AllFair(w: World) { forall q :: Fair(w.backend(q)) }

  lemma FairAt(w: World, query: Id)
    requires AllFair(w)
    ensures Fair(w.backend(query))
  {
  }

  function SeenBy(w: World, principal: Id): Id -> bool { (r: Id) => w.sees(principal, r) }

  // The plain authorized filter of the backend's list.
  function Whole(w: World, principal: Id, query: Id): seq<Id> { Filter(w.backend(query).list, SeenBy(w, principal)) }

  function Reached(b: Backend, position: Option<nat>): nat { if position.Some? then position.value else |b.list| }

  // After `delivered`, a cursor holds exactly the next authorized session and where
  // the backend continues.
  ghost predicate CursorTrue(w: World, c: CursorRecord, delivered: seq<Id>) {
    var b := w.backend(c.query);
    && Reached(b, c.position) <= |b.list|
    && (c.position.Some? ==> c.position.value < |b.list|)
    && Filter(b.list[..Reached(b, c.position)], SeenBy(w, c.principal)) == delivered + c.buffered
    && |c.buffered| == 1
  }

  function Min(a: nat, b: nat): nat { if a <= b then a else b }

  function Max(a: nat, b: nat): nat { if a >= b then a else b }

  // How many records the scan asks for (lines 222-227).
  function Wanted(cfg: Config, limit: nat, have: nat): nat {
    Min(cfg.maxItems, if have > limit then 1 else Max(1, limit + 1 - have))
  }

  // Where the scan from position `at` stops with `left` pages to go, and the sessions in hand.
  ghost function Scanned(b: Backend, sees: Id -> bool, cfg: Config, limit: nat, at: nat, have: seq<Id>, left: nat):
    (r: (seq<Id>, nat))
    requires Fair(b) && at <= |b.list|
    ensures at <= r.1 <= |b.list|
    decreases left
  {
    if |have| > limit || left == 0 || at == |b.list| then (have, at)
    else
      var e := at + b.take(at, Wanted(cfg, limit, |have|));
      Scanned(b, sees, cfg, limit, e, have + Filter(b.list[at..e], sees), left - 1)
  }

  // The answer is the rest of the filter, or carries a cursor to go on with.
  ghost predicate Complete(b: Backend, sees: Id -> bool, cfg: Config, limit: nat, from: nat, buffered: seq<Id>)
    requires Fair(b) && from <= |b.list|
  {
    var (sessions, reached) := Scanned(b, sees, cfg, limit, from, buffered, cfg.maxScans);
    |sessions| > limit || Filter(b.list[reached..], sees) == []
  }

  // However the backend cuts its list into pages.
  ghost predicate AlwaysComplete(list: seq<Id>, sees: Id -> bool, cfg: Config, limit: nat, from: nat,
      buffered: seq<Id>)
    requires from <= |list|
  {
    forall b: Backend {:trigger Fair(b)} | Fair(b) && b.list == list :: Complete(b, sees, cfg, limit, from, buffered)
  }

  // As many records as there are pages to read fill the answer, or hold all that is visible.
  predicate PagesSuffice(list: seq<Id>, sees: Id -> bool, cfg: Config, limit: nat, from: nat, buffered: nat)
    requires from <= |list|
  {
    var far := Min(from + cfg.maxScans, |list|);
    buffered + |Filter(list[from..far], sees)| > limit || Filter(list[far..], sees) == []
  }

  lemma FilterBetween(list: seq<Id>, sees: Id -> bool, i: nat, j: nat, k: nat)
    requires i <= j <= k <= |list|
    ensures Filter(list[i..k], sees) == Filter(list[i..j], sees) + Filter(list[j..k], sees)
  {
    assert list[i..k] == list[i..j] + list[j..k];
    FilterAppends(list[i..j], list[j..k], sees);
  }

  // A fair page before the end has a record.
  lemma FairAdvances(b: Backend, at: nat, n: nat)
    requires Fair(b) && at < |b.list| && n > 0
    ensures at < at + b.take(at, n) <= |b.list|
  {
  }

  lemma {:induction false} ScannedReaches(b: Backend, sees: Id -> bool, cfg: Config, limit: nat, at: nat,
      have: seq<Id>, left: nat)
    requires Fair(b) && at <= |b.list| && cfg.maxItems >= 1
    ensures
      var (sessions, reached) := Scanned(b, sees, cfg, limit, at, have, left);
      && sessions == have + Filter(b.list[at..reached], sees)
      && (|sessions| <= limit ==> reached >= Min(at + left, |b.list|))
    decreases left
  {
    hide Fair, Filter;
    FilterNone(b.list, at, sees);
    if |have| <= limit && left > 0 && at < |b.list| {
      var want := Wanted(cfg, limit, |have|);
      FairAdvances(b, at, want);
      var e := at + b.take(at, want);
      var more := Filter(b.list[at..e], sees);
      var (sessions, reached) := Scanned(b, sees, cfg, limit, e, have + more, left - 1);
      assert Scanned(b, sees, cfg, limit, at, have, left) == (sessions, reached);
      hide Scanned, Wanted;
      ScannedReaches(b, sees, cfg, limit, e, have + more, left - 1);
      FilterBetween(b.list, sees, at, e, reached);
      assert have + more + Filter(b.list[e..reached], sees) == have + (more + Filter(b.list[e..reached], sees));
    }
  }

  // The backend fills its pages.
  ghost predicate Fills(b: Backend) {
    forall k: nat, n: nat | k <= |b.list| :: b.take(k, n) == Min(n, |b.list| - k)
  }

  lemma {:induction false} FilterAll(list: seq<Id>, sees: Id -> bool)
    requires forall r | r in list :: sees(r)
    ensures Filter(list, sees) == list
  {
    if list != [] {
      assert sees(list[0]);
      FilterAll(list[1..], sees);
    }
  }

  // Where everything is visible and the backend fills its pages, one page is enough, unless the
  // request fills the largest page there is: the first page asked for is as large as the answer.
  lemma OnePageIsEnough(b: Backend, sees: Id -> bool, cfg: Config, limit: nat, left: nat)
    requires Fair(b) && Fills(b) && (forall r | r in b.list :: sees(r)) && limit < cfg.maxItems && left >= 1
    ensures
      var e := Min(limit + 1, |b.list|);
      Scanned(b, sees, cfg, limit, 0, [], left) == (b.list[..e], e)
      && Scanned(b, sees, cfg, limit, 0, [], 1) == (b.list[..e], e)
  {
    var e := Min(limit + 1, |b.list|);
    assert Wanted(cfg, limit, 0) == limit + 1;
    if |b.list| > 0 {
      assert b.take(0, limit + 1) == e;
      assert b.list[0..e] == b.list[..e];
      forall r | r in b.list[..e] ensures sees(r) { assert r in b.list; }
      FilterAll(b.list[..e], sees);
      assert [] + b.list[..e] == b.list[..e];
    }
    hide Fair, Fills, Filter;
  }

  // The backend that gives one record a page.
  function OneByOne(list: seq<Id>): Backend { Backend(list, (k: nat, n: nat) => if k < |list| && n > 0 then 1 else 0) }

  lemma OneByOneIsFair(list: seq<Id>)
    ensures Fair(OneByOne(list))
  {
  }

  lemma {:induction false} OneByOneStops(list: seq<Id>, sees: Id -> bool, cfg: Config, limit: nat, at: nat,
      have: seq<Id>, left: nat)
    requires Fair(OneByOne(list)) && at <= |list| && cfg.maxItems >= 1
    requires |have| + |Filter(list[at..Min(at + left, |list|)], sees)| <= limit
    ensures Scanned(OneByOne(list), sees, cfg, limit, at, have, left).1 == Min(at + left, |list|)
    ensures |Scanned(OneByOne(list), sees, cfg, limit, at, have, left).0| <= limit
    decreases left
  {
    if left > 0 && at < |list| {
      FilterBetween(list, sees, at, at + 1, Min(at + left, |list|));
      hide Fair, Filter;
      OneByOneStops(list, sees, cfg, limit, at + 1, have + Filter(list[at..at + 1], sees), left - 1);
    }
  }

  lemma SufficesForAll(b: Backend, sees: Id -> bool, cfg: Config, limit: nat, from: nat, buffered: seq<Id>)
    requires Fair(b) && from <= |b.list| && cfg.maxItems >= 1
    requires PagesSuffice(b.list, sees, cfg, limit, from, |buffered|)
    ensures Complete(b, sees, cfg, limit, from, buffered)
  {
    hide Fair, Filter, Scanned;
    ScannedReaches(b, sees, cfg, limit, from, buffered, cfg.maxScans);
    var (sessions, reached) := Scanned(b, sees, cfg, limit, from, buffered, cfg.maxScans);
    if |sessions| <= limit {
      var far := Min(from + cfg.maxScans, |b.list|);
      FilterBetween(b.list, sees, from, far, reached);
      FilterBetween(b.list, sees, far, reached, |b.list|);
      assert b.list[far..] == b.list[far..|b.list|] && b.list[reached..] == b.list[reached..|b.list|];
    }
  }

  // A request hides nothing, however the backend cuts its list into pages, if and only if as
  // many records as there are pages to read fill the answer or hold all that is visible.
  lemma HidesNothingExactly(list: seq<Id>, sees: Id -> bool, cfg: Config, limit: nat, from: nat, buffered: seq<Id>)
    requires from <= |list| && cfg.maxItems >= 1
    ensures AlwaysComplete(list, sees, cfg, limit, from, buffered)
       <==> PagesSuffice(list, sees, cfg, limit, from, |buffered|)
  {
    hide Fair, Filter, Scanned;
    if PagesSuffice(list, sees, cfg, limit, from, |buffered|) {
      forall b: Backend | Fair(b) && b.list == list ensures Complete(b, sees, cfg, limit, from, buffered) {
        SufficesForAll(b, sees, cfg, limit, from, buffered);
      }
    } else {
      OneByOneIsFair(list);
      OneByOneStops(list, sees, cfg, limit, from, buffered, cfg.maxScans);
      assert !Complete(OneByOne(list), sees, cfg, limit, from, buffered);
    }
  }

  lemma FairPage(b: Backend, k: nat, n: nat)
    requires Fair(b) && k <= |b.list|
    ensures
      var e := k + b.take(k, n);
      e <= |b.list| && e - k <= n && (e == k && n > 0 ==> e == |b.list|)
  {
  }

  // One backend page (lines 224-245): the sessions of it that are seen, and where it ends.
  method BackendPage(b: Backend, sees: Id -> bool, k: nat, n: nat)
    returns (seen: seq<Id>, next: Option<nat>, empty: bool)
    requires Fair(b) && k <= |b.list|
    ensures var e := k + b.take(k, n);
            e <= |b.list| && seen == Filter(b.list[k..e], sees) && next == (if e < |b.list| then Some(e) else None)
            && (empty <==> e == k) && e <= k + n && |seen| <= n && (empty && n > 0 ==> next.None?)
  {
    hide Fair;
    FairPage(b, k, n);
    var e := k + b.take(k, n);
    next := if e < |b.list| then Some(e) else None;
    empty := e == k;
    seen := [];
    for i := k to e
      invariant seen == Filter(b.list[k..i], sees)
    {
      assert b.list[k..i + 1] == b.list[k..i] + [b.list[i]];
      FilterAppends(b.list[k..i], [b.list[i]], sees);
      assert [b.list[i]][1..] == [];
      if sees(b.list[i]) { seen := seen + [b.list[i]]; }
    }
    FilterShrinks(b.list[k..e], sees);
  }

  // One more page of the scan.
  lemma ScansOn(b: Backend, sees: Id -> bool, cfg: Config, limit: nat, from: nat, at: nat, buffered: seq<Id>,
      sessions: seq<Id>, left: nat)
    requires Fair(b) && from <= at < |b.list| && |sessions| <= limit && left > 0 && cfg.maxItems >= 1
    requires sessions == buffered + Filter(b.list[from..at], sees)
    ensures
      var e := at + b.take(at, Wanted(cfg, limit, |sessions|));
      var more := sessions + Filter(b.list[at..e], sees);
      && at < e <= |b.list| && more == buffered + Filter(b.list[from..e], sees)
      && Scanned(b, sees, cfg, limit, at, sessions, left) == Scanned(b, sees, cfg, limit, e, more, left - 1)
  {
    hide Fair, Filter;
    var want := Wanted(cfg, limit, |sessions|);
    FairAdvances(b, at, want);
    var e := at + b.take(at, want);
    FilterBetween(b.list, sees, from, at, e);
    assert buffered + Filter(b.list[from..at], sees) + Filter(b.list[at..e], sees)
        == buffered + (Filter(b.list[from..at], sees) + Filter(b.list[at..e], sees));
  }

  // No more was read than so many pages hold.
  predicate Within(from: nat, at: nat, scans: nat, items: nat) { at <= from + scans * items }

  // What the loop keeps: it has read from `from` up to `at`, and goes on to the same end.
  ghost predicate Scanning(b: Backend, sees: Id -> bool, cfg: Config, limit: nat, from: nat, at: nat,
      buffered: seq<Id>, sessions: seq<Id>, scans: nat)
    requires Fair(b)
  {
    && from <= at <= |b.list| && |sessions| <= limit + 1 && scans <= cfg.maxScans
    && sessions == buffered + Filter(b.list[from..at], sees)
    && Within(from, at, scans, cfg.maxItems)
    && Scanned(b, sees, cfg, limit, at, sessions, cfg.maxScans - scans)
       == Scanned(b, sees, cfg, limit, from, buffered, cfg.maxScans)
  }

  lemma ScanBegins(b: Backend, sees: Id -> bool, cfg: Config, limit: nat, from: nat, buffered: seq<Id>)
    requires Fair(b) && from <= |b.list| && |buffered| <= limit + 1
    ensures Scanning(b, sees, cfg, limit, from, from, buffered, buffered, 0)
  {
    FilterNone(b.list, from, sees);
    NothingYet(from, cfg.maxItems);
    hide Fair;
  }

  // The loop ends where `Scanned` does.
  lemma ScanEnds(b: Backend, sees: Id -> bool, cfg: Config, limit: nat, from: nat, at: nat, buffered: seq<Id>,
      sessions: seq<Id>, scans: nat)
    requires Fair(b) && Scanning(b, sees, cfg, limit, from, at, buffered, sessions, scans)
    requires |sessions| > limit || scans == cfg.maxScans || at == |b.list|
    ensures from <= |b.list| && (sessions, at) == Scanned(b, sees, cfg, limit, from, buffered, cfg.maxScans)
  {
    hide Fair, Filter, Within;
  }

  // One page of the loop (lines 220-246).
  method ScanPage(b: Backend, sees: Id -> bool, cfg: Config, limit: nat, ghost from: nat, at: nat,
      ghost buffered: seq<Id>, sessions: seq<Id>, scans: nat)
    returns (more: seq<Id>, next: Option<nat>, empty: bool, ghost e: nat)
    requires Fair(b) && cfg.maxItems >= 1 && limit <= cfg.maxItems && |sessions| <= limit && scans < cfg.maxScans
    requires Scanning(b, sees, cfg, limit, from, at, buffered, sessions, scans)
    ensures Scanning(b, sees, cfg, limit, from, e, buffered, more, scans + 1)
    ensures next == (if e < |b.list| then Some(e) else None) && (empty ==> next.None?)
  {
    hide Filter, Fair, Within, Scanned;
    var want := Wanted(cfg, limit, |sessions|);
    var seen;
    seen, next, empty := BackendPage(b, sees, at, want);
    e := at + b.take(at, want);
    AnotherPage(from, at, e, scans, cfg.maxItems);
    more := sessions + seen;
    if at < |b.list| {
      ScansOn(b, sees, cfg, limit, from, at, buffered, sessions, cfg.maxScans - scans);
    } else {
      ScansNothing(b, sees, cfg, limit, sessions, cfg.maxScans - scans);
      FilterNone(b.list, at, sees);
      assert e == at && more == sessions;
    }
    assert cfg.maxScans - scans - 1 == cfg.maxScans - (scans + 1);
  }

  // The scan loop (lines 215-246), from `start` with `buffered` already in hand.
  method Scan(b: Backend, sees: Id -> bool, cfg: Config, limit: nat, start: Option<nat>, first: bool, buffered: seq<Id>)
    returns (sessions: seq<Id>, position: Option<nat>, scans: nat)
    requires Fair(b) && cfg.maxItems >= 1 && cfg.maxScans >= 1 && limit <= cfg.maxItems
    requires (start.Some? ==> start.value < |b.list|) && (first ==> start.None? && buffered == [])
    requires |buffered| <= 1
    ensures var from := if first then 0 else Reached(b, start);
            from <= Reached(b, position) <= |b.list| && (position.Some? ==> position.value < |b.list|)
            && sessions == buffered + Filter(b.list[from..Reached(b, position)], sees)
            && (start.Some? || first ==> Within(from, Reached(b, position), scans, cfg.maxItems))
            && (sessions, Reached(b, position)) == Scanned(b, sees, cfg, limit, from, buffered, cfg.maxScans)
    ensures |sessions| <= limit + 1
    ensures |sessions| <= limit && position.Some? ==> scans == cfg.maxScans
    ensures scans <= cfg.maxScans
  {
    var from := if first then 0 else Reached(b, start);
    var at: nat, exhausted := from, !first && start.None?;
    sessions, position, scans := buffered, start, 0;
    ScanBegins(b, sees, cfg, limit, from, buffered);
    hide Filter, Fair, Within, Scanned;
    while |sessions| < limit + 1 && scans < cfg.maxScans && !exhausted
      invariant Scanning(b, sees, cfg, limit, from, at, buffered, sessions, scans)
      invariant (scans == 0 && first) || (at == Reached(b, position) && (position.Some? ==> position.value < |b.list|))
      invariant (scans == 0 && first) ==> at == 0 && !exhausted && position == start && |sessions| <= limit
      invariant exhausted <==> !(scans == 0 && first) && position.None?
      decreases cfg.maxScans - scans
    {
      hide Scanning;
      var next, empty;
      ghost var e;
      sessions, next, empty, e := ScanPage(b, sees, cfg, limit, from, at, buffered, sessions, scans);
      scans := scans + 1;
      position := next;
      exhausted := next.None? || empty;
      at := if next.Some? then next.value else |b.list|;
    }
    ScanEnds(b, sees, cfg, limit, from, at, buffered, sessions, scans);
  }

  // At the end of the list a page is empty.
  lemma ScansNothing(b: Backend, sees: Id -> bool, cfg: Config, limit: nat, sessions: seq<Id>, left: nat)
    requires Fair(b) && left > 0
    ensures Scanned(b, sees, cfg, limit, |b.list|, sessions, left)
         == Scanned(b, sees, cfg, limit, |b.list|, sessions, left - 1) == (sessions, |b.list|)
  {
  }

  lemma AnotherPage(from: nat, at: nat, e: nat, scans: nat, items: nat)
    requires Within(from, at, scans, items) && e <= at + items
    ensures Within(from, e, scans + 1, items)
  {
  }

  lemma NothingYet(from: nat, items: nat)
    ensures Within(from, from, 0, items)
  {
  }

  lemma Accounted(b: Backend, sees: Id -> bool, from: nat, reached: nat, before: seq<Id>, buffered: seq<Id>,
      sessions: seq<Id>)
    requires from <= reached <= |b.list|
    requires Filter(b.list[..from], sees) == before + buffered
    requires sessions == buffered + Filter(b.list[from..reached], sees)
    ensures Filter(b.list[..reached], sees) == before + sessions
    ensures Filter(b.list, sees) == before + sessions + Filter(b.list[reached..], sees)
  {
    FilterTo(b.list, sees, from, reached);
    FilterTo(b.list, sees, reached, |b.list|);
    assert b.list[..|b.list|] == b.list;
  }

  class DashboardAuthorizationEnforcer {
    const w: World
    const cfg: Config
    var cursors: seq<(Id, CursorRecord)>
    ghost var delivered: map<Id, seq<Id>>

    ghost predicate TokenOk(i: nat)
      reads this
      requires i < |cursors|
    {
      cursors[i].0 in delivered && CursorTrue(w, cursors[i].1, delivered[cursors[i].0])
    }

    ghost predicate Valid()
      reads this
    {
      && AllFair(w)
      && cfg.maxItems >= 1 && cfg.maxScans >= 1 && cfg.maxCursors >= 1
      && |cursors| <= cfg.maxCursors
      && (forall i: nat {:trigger TokenOk(i)} | i < |cursors| :: TokenOk(i))
    }

    constructor (w: World, cfg: Config)
      requires AllFair(w) && cfg.maxItems >= 1 && cfg.maxScans >= 1 && cfg.maxCursors >= 1
      ensures Valid() && cursors == [] && delivered == map[] && this.w == w && this.cfg == cfg
    {
      this.w, this.cfg := w, cfg;
      cursors, delivered := [], map[];
    }

    // #pruneCursors (lines 319-323).
    method PruneCursors(now: Time)
      requires Valid()
      modifies this`cursors
      ensures Valid() && cursors == Live(old(cursors), now)
    {
      hide AllFair;
      LiveIn(cursors, now);
      ghost var was := cursors;
      var kept, i := [], 0;
      while i < |cursors|
        invariant 0 <= i <= |cursors| && kept + Live(cursors[i..], now) == Live(cursors, now)
      {
        assert cursors[i..][1..] == cursors[i + 1..];
        if cursors[i].1.expiresAt > now { kept := kept + [cursors[i]]; }
        i := i + 1;
      }
      assert kept == Live(cursors, now);
      cursors := kept;
      forall j: nat | j < |cursors| ensures TokenOk(j) {
        assert cursors[j] in was;
        var k: nat :| k < |was| && was[k] == cursors[j];
        assert old(TokenOk(k));
      }
    }

    // The oldest cursors make room (lines 302-306).
    method MakeRoom()
      requires Valid()
      modifies this`cursors
      ensures Valid() && cursors == Newest(old(cursors), cfg.maxCursors - 1)
    {
      hide CursorTrue, AllFair;
      ghost var was, gone := cursors, 0;
      while |cursors| >= cfg.maxCursors
        invariant 0 <= gone <= |was| && cursors == was[gone..]
        invariant |cursors| == |was| || |cursors| >= cfg.maxCursors - 1
        decreases |cursors|
      {
        assert was[gone..][1..] == was[gone + 1..];
        cursors, gone := cursors[1..], gone + 1;
      }
      forall i: nat | i < |cursors| ensures TokenOk(i) { assert old(TokenOk(i + gone)); }
    }

    // #storeCursor (lines 294-317).
    method StoreCursor(token: Id, c: CursorRecord, ghost d: seq<Id>)
      requires Valid() && CursorTrue(w, c, d) && forall i | 0 <= i < |cursors| :: cursors[i].0 != token
      modifies this
      ensures Valid() && delivered == old(delivered)[token := d]
      ensures cursors == Newest(old(cursors), cfg.maxCursors - 1) + [(token, c)]
    {
      hide CursorTrue, AllFair;
      ghost var was := cursors;
      MakeRoom();
      ghost var kept := cursors;
      forall i | 0 <= i < |kept| ensures kept[i].0 != token { assert kept[i] in was; }
      hide Newest;
      label roomy:
      cursors := cursors + [(token, c)];
      delivered := delivered[token := d];
      forall i: nat | i < |cursors| ensures TokenOk(i) {
        if i < |kept| { assert old@roomy(TokenOk(i)); }
      }
    }

    // What a request with this cursor has been delivered before.
    ghost function Before(cursor: Option<Id>): seq<Id>
      reads this
    {
      if cursor.Some? && cursor.value in delivered then delivered[cursor.value] else []
    }

    predicate Usable(found: Option<CursorRecord>, principal: Id, query: Id) {
      found.Some? && found.value.principal == principal && found.value.query == query
    }

    // What a request gives, after `before` was delivered and the backend was read up
    // to `reached`: the next part of the filter, full pages while there is a next
    // cursor, and at the end everything but what lies beyond the scanned pages.
    ghost predicate Gives(principal: Id, query: Id, limit: nat, before: seq<Id>, page: Page, reached: nat, scans: nat)
      reads this
    {
      var now, whole, b := before + page.sessions, Whole(w, principal, query), w.backend(query);
      && reached <= |b.list|
      && |page.sessions| <= limit
      && now <= whole && now <= Filter(b.list[..reached], SeenBy(w, principal))
      && (page.next.Some? ==>
            |page.sessions| == limit && page.next.value in delivered && delivered[page.next.value] == now)
      && (page.next.None? ==>
            (now == whole <==> Filter(b.list[reached..], SeenBy(w, principal)) == [])
            && (scans < cfg.maxScans ==> now == whole))
    }

    // What the request can know before it reads: where it goes on, with how many sessions in
    // hand, and whether that many pages suffice.
    ghost predicate Foreseen(principal: Id, query: Id, limit: nat, found: Option<CursorRecord>) {
      var list := w.backend(query).list;
      var from := if found.Some? then Min(Reached(w.backend(query), found.value.position), |list|) else 0;
      PagesSuffice(list, SeenBy(w, principal), cfg, limit, from, if found.Some? then |found.value.buffered| else 0)
    }

    // What a request leaves of the cursors: the expired ones go, and a next cursor lives for
    // the configured time and knows what was delivered up to it.
    ghost predicate Stores(was: seq<(Id, CursorRecord)>, known: map<Id, seq<Id>>, principal: Id, query: Id, token: Id,
        now: Time, before: seq<Id>, result: Result<Page, Error>)
      reads this
    {
      if result.Ok? && result.value.next.Some? then
        && cfg.maxCursors >= 1 && cursors != [] && delivered == known[token := before + result.value.sessions]
        && (var c := cursors[|cursors| - 1].1;
            && c.principal == principal && c.query == query && c.expiresAt == now + cfg.ttl
            && cursors == Newest(Live(was, now), cfg.maxCursors - 1) + [(token, c)])
      else
        cursors == Live(was, now) && delivered == known
    }

    // listSessions (lines 183-268). The token is a fresh random one.
    method ListSessions(principal: Id, query: Id, asked: Option<nat>, cursor: Option<Id>, token: Id, now: Time)
      returns (result: Result<Page, Error>, ghost reached: nat, scans: nat)
      requires Valid() && token !in delivered && forall i | 0 <= i < |cursors| :: cursors[i].0 != token
      modifies this
      ensures Valid()
      ensures result.Err? <==> cursor.Some? && !Usable(Find(Live(old(cursors), now), cursor.value), principal, query)
      ensures result.Ok? ==>
                var limit := Min(if asked.Some? then asked.value else cfg.maxItems, cfg.maxItems);
                var found := if cursor.Some? then Find(Live(old(cursors), now), cursor.value) else None;
                Gives(principal, query, limit, old(Before(cursor)), result.value, reached, scans)
                && (result.value.next.Some? ==> result.value.next == Some(token))
                && (cursor.None? ==> reached <= scans * cfg.maxItems)
                && (Foreseen(principal, query, limit, found) && result.value.next.None? ==>
                      old(Before(cursor)) + result.value.sessions == Whole(w, principal, query))
      ensures scans <= cfg.maxScans
      ensures Stores(old(cursors), old(delivered), principal, query, token, now, old(Before(cursor)), result)
    {
      hide AllFair;
      reached, scans := 0, 0;
      LiveIn(cursors, now);
      PruneCursors(now);
      var start, buffered := None, [];
      var found := None;
      if cursor.Some? {
        found := Find(cursors, cursor.value);
        if !Usable(found, principal, query) { return Err(CursorInvalid), reached, scans; }
        FoundIsTrue(cursor.value);
        start, buffered := found.value.position, found.value.buffered;
      }
      var limit := Min(if asked.Some? then asked.value else cfg.maxItems, cfg.maxItems);
      var page;
      page, reached, scans := Serve(principal, query, limit, cursor.None?, start, buffered, token, now, Before(cursor),
                                    found);
      result := Ok(page);
    }

    method Serve(principal: Id, query: Id, limit: nat, first: bool, start: Option<nat>, buffered: seq<Id>,
        token: Id, now: Time, ghost before: seq<Id>, ghost found: Option<CursorRecord>)
      returns (page: Page, ghost reached: nat, scans: nat)
      requires Valid() && limit <= cfg.maxItems && forall i | 0 <= i < |cursors| :: cursors[i].0 != token
      requires if first then start.None? && buffered == [] && before == [] && found.None?
               else CursorTrue(w, CursorRecord(principal, query, start, buffered, now), before)
                    && found.Some? && found.value.position == start && found.value.buffered == buffered
      modifies this
      ensures Valid() && Gives(principal, query, limit, before, page, reached, scans)
      ensures page.next.Some? ==> page.next == Some(token)
      ensures scans <= cfg.maxScans && (first ==> reached <= scans * cfg.maxItems)
      ensures Foreseen(principal, query, limit, found) && page.next.None? ==>
                before + page.sessions == Whole(w, principal, query)
      ensures page.next.None? ==> cursors == old(cursors) && delivered == old(delivered)
      ensures page.next.Some? ==>
                && cursors != [] && delivered == old(delivered)[token := before + page.sessions]
                && var c := cursors[|cursors| - 1].1;
                   && c.principal == principal && c.query == query && c.expiresAt == now + cfg.ttl
                   && cursors == Newest(old(cursors), cfg.maxCursors - 1) + [(token, c)]
    {
      hide Filter, Fair, AllFair, Scanned, PagesSuffice;
      FairAt(w, query);
      var b := w.backend(query);
      var sees := SeenBy(w, principal);
      ghost var from := if first then 0 else Reached(b, start);
      var sessions, position;
      sessions, position, scans := Scan(b, sees, cfg, limit, start, first, buffered);
      reached := Reached(b, position);
      FilterNone(b.list, 0, sees);
      assert b.list[..0] == b.list[0..0];
      FilterNone(b.list, |b.list|, sees);
      assert b.list[|b.list|..] == b.list[|b.list|..|b.list|];
      Accounted(b, sees, from, reached, before, buffered, sessions);
      if |sessions| <= limit {
        if PagesSuffice(b.list, sees, cfg, limit, from, |buffered|) {
          SufficesForAll(b, sees, cfg, limit, from, buffered);
        }
        page := Page(sessions, None);
      } else {
        page := NextPage(principal, query, limit, sessions, position, token, now, before);
      }
    }

    // The page is full: its cursor keeps the next session and where the backend goes on.
    method NextPage(principal: Id, query: Id, limit: nat, sessions: seq<Id>, position: Option<nat>, token: Id,
        now: Time, ghost before: seq<Id>)
      returns (page: Page)
      requires Valid() && |sessions| == limit + 1 && forall i | 0 <= i < |cursors| :: cursors[i].0 != token
      requires
        var b := w.backend(query);
        && Reached(b, position) <= |b.list| && (position.Some? ==> position.value < |b.list|)
        && Filter(b.list[..Reached(b, position)], SeenBy(w, principal)) == before + sessions
      modifies this
      ensures Valid() && page == Page(sessions[..limit], Some(token))
      ensures delivered == old(delivered)[token := before + sessions[..limit]]
      ensures
        && cursors != []
        && var c := cursors[|cursors| - 1].1;
           && c.principal == principal && c.query == query && c.expiresAt == now + cfg.ttl
           && cursors == Newest(old(cursors), cfg.maxCursors - 1) + [(token, c)]
    {
      hide Filter, AllFair;
      assert before + sessions == before + sessions[..limit] + sessions[limit..limit + 1];
      var c := CursorRecord(principal, query, position, sessions[limit..limit + 1], now + cfg.ttl);
      StoreCursor(token, c, before + sessions[..limit]);
      page := Page(sessions[..limit], Some(token));
    }

    lemma FoundIsTrue(token: Id)
      requires Valid() && Find(cursors, token).Some?
      ensures token in delivered && CursorTrue(w, Find(cursors, token).value, delivered[token])
    {
      FindIn(cursors, token);
      var i: nat :| i < |cursors| && cursors[i] == (token, Find(cursors, token).value);
      assert TokenOk(i);
    }
  }

  // ---- Following cursors ---------------------------------------------------------------------

  datatype Request = Request(principal: Id, query: Id, asked: Option<nat>, cursor: Option<Id>, now: Time)

  // No token given out is `from` or later; each request takes the next one.
  ghost predicate Unissued(e: DashboardAuthorizationEnforcer, from: Id)
    reads e
  {
    forall d | d in e.delivered :: d < from
  }

  lemma FreshToken(e: DashboardAuthorizationEnforcer, from: Id)
    requires e.Valid() && Unissued(e, from)
    ensures from !in e.delivered && forall i | 0 <= i < |e.cursors| :: e.cursors[i].0 != from
  {
    forall i: nat | i < |e.cursors| ensures e.cursors[i].0 != from { assert e.TokenOk(i); }
  }

  // One request; it keeps a cursor that has not expired and that fewer than `maxCursors` followed.
  method Serves(e: DashboardAuthorizationEnforcer, r: Request, from: Id, ghost token: Id, ghost c: CursorRecord,
      ghost k: nat)
    returns (result: Result<Page, Error>, ghost stored: nat)
    requires e.Valid() && Unissued(e, from) && token < from && r.now < c.expiresAt
    requires k < e.cfg.maxCursors ==> Kept(e.cursors, token, c, k)
    modifies e
    ensures e.Valid() && Unissued(e, from + 1)
    ensures stored == if result.Ok? && result.value.next.Some? then 1 else 0
    ensures k + stored < e.cfg.maxCursors ==> Kept(e.cursors, token, c, k + stored)
    ensures token in old(e.delivered) ==> token in e.delivered && e.delivered[token] == old(e.delivered)[token]
  {
    hide DashboardAuthorizationEnforcer.Valid, Kept, DashboardAuthorizationEnforcer.Gives,
      DashboardAuthorizationEnforcer.Foreseen;
    FreshToken(e, from);
    ghost var reached;
    var scans;
    ghost var was := e.cursors;
    result, reached, scans := e.ListSessions(r.principal, r.query, r.asked, r.cursor, from, r.now);
    stored := if result.Ok? && result.value.next.Some? then 1 else 0;
    if k < e.cfg.maxCursors {
      KeptIsLive(was, token, c, k, r.now);
      if stored == 1 && k + 1 < e.cfg.maxCursors {
        KeptAmongNewest(Live(was, r.now), token, c, k, e.cfg.maxCursors - 1, e.cursors[|e.cursors| - 1]);
      }
    }
  }

  // Any other requests.
  method ServesAll(e: DashboardAuthorizationEnforcer, requests: seq<Request>, from: Id, ghost token: Id,
      ghost c: CursorRecord)
    returns (ghost stored: nat)
    requires e.Valid() && Unissued(e, from) && token < from && forall i | 0 <= i < |requests| :: requests[i].now < c.expiresAt
    requires Kept(e.cursors, token, c, 0) && e.cfg.maxCursors >= 1
    modifies e
    ensures e.Valid() && Unissued(e, from + |requests|)
    ensures stored <= |requests| && (stored < e.cfg.maxCursors ==> Kept(e.cursors, token, c, stored))
    ensures token in old(e.delivered) ==> token in e.delivered && e.delivered[token] == old(e.delivered)[token]
  {
    hide DashboardAuthorizationEnforcer.Valid, Kept, Unissued;
    stored := 0;
    for i := 0 to |requests|
      invariant e.Valid() && Unissued(e, from + i)
      invariant stored <= i && (stored < e.cfg.maxCursors ==> Kept(e.cursors, token, c, stored))
      invariant token in old(e.delivered) ==> token in e.delivered && e.delivered[token] == old(e.delivered)[token]
    {
      var _, one := Serves(e, requests[i], from + i, token, c, stored);
      stored := stored + one;
    }
  }

  function LimitOf(cfg: Config, asked: Option<nat>): nat {
    Min(if asked.Some? then asked.value else cfg.maxItems, cfg.maxItems)
  }

  // A cursor of this principal and query that was just stored at `now`, after `before`.
  ghost predicate Stored(e: DashboardAuthorizationEnforcer, principal: Id, query: Id, token: Id, now: Time,
      before: seq<Id>, c: CursorRecord)
    reads e
  {
    && Kept(e.cursors, token, c, 0) && token in e.delivered && e.delivered[token] == before
    && c.principal == principal && c.query == query && c.expiresAt == now + e.cfg.ttl
  }

  // A request that answers with a next cursor stores it.
  lemma NextIsStored(e: DashboardAuthorizationEnforcer, was: seq<(Id, CursorRecord)>, known: map<Id, seq<Id>>,
      principal: Id, query: Id, token: Id, now: Time, before: seq<Id>, result: Result<Page, Error>)
    requires e.Stores(was, known, principal, query, token, now, before, result)
    requires result.Ok? && result.value.next.Some? && forall i | 0 <= i < |was| :: was[i].0 != token
    ensures e.cursors != []
    ensures Stored(e, principal, query, token, now, before + result.value.sessions, e.cursors[|e.cursors| - 1].1)
  {
    var live := Live(was, now);
    var newest := Newest(live, e.cfg.maxCursors - 1);
    LiveIn(was, now);
    forall i | 0 <= i < |newest| ensures newest[i].0 != token { assert newest[i] in live; }
    JustKept(newest, token, e.cursors[|e.cursors| - 1].1);
  }

  // What the record of a request's cursor is, if it may be used.
  ghost function FoundFor(e: DashboardAuthorizationEnforcer, r: Request): Option<CursorRecord>
    reads e
  {
    if r.cursor.Some? then Find(Live(e.cursors, r.now), r.cursor.value) else None
  }

  // One request; `c` is the cursor that it stores.
  method Requests(e: DashboardAuthorizationEnforcer, r: Request, from: Id)
    returns (result: Result<Page, Error>, ghost reached: nat, scans: nat, ghost c: CursorRecord)
    requires e.Valid() && Unissued(e, from)
    modifies e
    ensures e.Valid() && Unissued(e, from + 1)
    ensures result.Err? <==> r.cursor.Some? && !e.Usable(old(FoundFor(e, r)), r.principal, r.query)
    ensures result.Ok? ==>
              var before := old(e.Before(r.cursor));
              && e.Gives(r.principal, r.query, LimitOf(e.cfg, r.asked), before, result.value, reached, scans)
              && (result.value.next.Some? ==>
                    && result.value.next == Some(from)
                    && Stored(e, r.principal, r.query, from, r.now, before + result.value.sessions, c))
              && (e.Foreseen(r.principal, r.query, LimitOf(e.cfg, r.asked), old(FoundFor(e, r)))
                  && result.value.next.None? ==>
                    before + result.value.sessions == Whole(e.w, r.principal, r.query))
  {
    hide DashboardAuthorizationEnforcer.Valid, DashboardAuthorizationEnforcer.Gives,
      DashboardAuthorizationEnforcer.Foreseen;
    FreshToken(e, from);
    ghost var was, known, before := e.cursors, e.delivered, e.Before(r.cursor);
    c := CursorRecord(0, 0, None, [], 0);
    result, reached, scans := e.ListSessions(r.principal, r.query, r.asked, r.cursor, from, r.now);
    if result.Ok? && result.value.next.Some? {
      NextIsStored(e, was, known, r.principal, r.query, from, r.now, before, result);
      c := e.cursors[|e.cursors| - 1].1;
    }
  }

  lemma StoredIsUsable(e: DashboardAuthorizationEnforcer, r: Request, c: CursorRecord, k: nat)
    requires r.cursor.Some? && Kept(e.cursors, r.cursor.value, c, k) && r.now < c.expiresAt
    requires c.principal == r.principal && c.query == r.query
    ensures FoundFor(e, r) == Some(c) && e.Usable(FoundFor(e, r), r.principal, r.query)
  {
    hide Kept;
    KeptIsLive(e.cursors, r.cursor.value, c, k, r.now);
  }

  // After a page with a next cursor at time t, and any other requests before t + ttl that store
  // fewer than `maxCursors` cursors, a request of the same principal and query with that cursor
  // before t + ttl is answered, and goes on exactly where the page ended.
  method PageThenPage(e: DashboardAuthorizationEnforcer, r: Request, between: seq<Request>, asked: Option<nat>,
      now: Time, from: Id)
    returns (first: Result<Page, Error>, second: Result<Page, Error>, ghost reached: nat, scans: nat, ghost stored: nat)
    requires e.Valid() && Unissued(e, from)
    requires now < r.now + e.cfg.ttl && forall i | 0 <= i < |between| :: between[i].now < r.now + e.cfg.ttl
    modifies e
    ensures e.Valid()
    ensures first.Ok? && first.value.next.Some? && stored < e.cfg.maxCursors ==>
              && second.Ok?
              && e.Gives(r.principal, r.query, LimitOf(e.cfg, asked),
                         old(e.Before(r.cursor)) + first.value.sessions, second.value, reached, scans)
  {
    assert e.cfg.maxCursors >= 1;
    hide DashboardAuthorizationEnforcer.Valid, DashboardAuthorizationEnforcer.Gives, Kept, Unissued,
      DashboardAuthorizationEnforcer.Foreseen, DashboardAuthorizationEnforcer.Usable, FoundFor;
    ghost var c;
    first, reached, scans, c := Requests(e, r, from);
    second, stored := first, 0;
    if first.Err? || first.value.next.None? { return; }
    stored := ServesAll(e, between, from + 1, from, c);
    var again := Request(r.principal, r.query, asked, Some(from), now);
    if stored < e.cfg.maxCursors { StoredIsUsable(e, again, c, stored); }
    ghost var c';
    second, reached, scans, c' := Requests(e, again, from + 1 + |between|);
  }

  // Between two pages other requests are served; then the cursor is followed at `now`.
  datatype Turn = Turn(between: seq<Request>, now: Time)

  // Every cursor is followed within its time, `at` being when the one in hand was given.
  predicate InTime(at: Time, turns: seq<Turn>, ttl: nat)
    decreases |turns|
  {
    turns == []
    || (turns[0].now < at + ttl && (forall i | 0 <= i < |turns[0].between| :: turns[0].between[i].now < at + ttl)
        && InTime(turns[0].now, turns[1..], ttl))
  }

  // How a listing ended: with its last page, refused, or with pages to come.
  datatype Ending = AllRead | Refused | MoreToRead

  // From every position the pages of one request suffice.
  ghost predicate AlwaysSuffices(list: seq<Id>, sees: Id -> bool, cfg: Config, limit: nat) {
    forall from: nat | from <= |list| :: PagesSuffice(list, sees, cfg, limit, from, 0)
  }

  lemma SufficesIsForeseen(e: DashboardAuthorizationEnforcer, principal: Id, query: Id, limit: nat,
      found: Option<CursorRecord>)
    requires AlwaysSuffices(e.w.backend(query).list, SeenBy(e.w, principal), e.cfg, limit)
    ensures e.Foreseen(principal, query, limit, found)
  {
    var list := e.w.backend(query).list;
    var from := if found.Some? then Min(Reached(e.w.backend(query), found.value.position), |list|) else 0;
    assert PagesSuffice(list, SeenBy(e.w, principal), e.cfg, limit, from, 0);
  }

  // What a listing has read after some pages. `kept` says that no more cursors were stored than
  // there is room for, `foreseen` that the scans of every request sufficed.
  ghost predicate Reads(e: DashboardAuthorizationEnforcer, principal: Id, query: Id, limit: nat, all: seq<Id>,
      pages: nat, ending: Ending, kept: bool, foreseen: bool)
    reads e
  {
    && all <= Whole(e.w, principal, query)
    && (kept ==> !ending.Refused?)
    && (ending.MoreToRead? ==> |all| == limit * pages)
    && (ending.AllRead? && foreseen ==> all == Whole(e.w, principal, query))
  }

  // One more page of a listing.
  method Turns(e: DashboardAuthorizationEnforcer, principal: Id, query: Id, asked: Option<nat>, turn: Turn, at: Time,
      token: Id, ghost c: CursorRecord, all: seq<Id>, ghost pages: nat, ghost kept: bool, ghost foreseen: bool, from: Id)
    returns (all': seq<Id>, ending: Ending, ghost c': CursorRecord, ghost kept': bool, ghost foreseen': bool)
    requires e.Valid() && Unissued(e, from) && token < from && Stored(e, principal, query, token, at, all, c)
    requires turn.now < at + e.cfg.ttl && forall i | 0 <= i < |turn.between| :: turn.between[i].now < at + e.cfg.ttl
    requires Reads(e, principal, query, LimitOf(e.cfg, asked), all, pages, MoreToRead, kept, foreseen)
    modifies e
    ensures e.Valid() && Unissued(e, from + |turn.between| + 1)
    ensures Reads(e, principal, query, LimitOf(e.cfg, asked), all', pages + 1, ending, kept', foreseen')
    ensures ending.MoreToRead? ==> Stored(e, principal, query, from + |turn.between|, turn.now, all', c')
    ensures kept && |turn.between| < e.cfg.maxCursors ==> kept'
    ensures kept' ==> (foreseen' <==> foreseen && e.Foreseen(principal, query, LimitOf(e.cfg, asked), Some(c)))
    ensures foreseen && AlwaysSuffices(e.w.backend(query).list, SeenBy(e.w, principal), e.cfg, LimitOf(e.cfg, asked))
        ==> foreseen'
  {
    assert e.cfg.maxCursors >= 1;
    hide DashboardAuthorizationEnforcer.Valid, Kept, Unissued, DashboardAuthorizationEnforcer.Foreseen,
      DashboardAuthorizationEnforcer.Usable, FoundFor, Whole;
    ghost var stored := ServesAll(e, turn.between, from, token, c);
    var r := Request(principal, query, asked, Some(token), turn.now);
    kept' := kept && stored < e.cfg.maxCursors;
    if stored < e.cfg.maxCursors { StoredIsUsable(e, r, c, stored); }
    if AlwaysSuffices(e.w.backend(query).list, SeenBy(e.w, principal), e.cfg, LimitOf(e.cfg, asked)) {
      SufficesIsForeseen(e, principal, query, LimitOf(e.cfg, asked), FoundFor(e, r));
    }
    foreseen' := foreseen && e.Foreseen(principal, query, LimitOf(e.cfg, asked), FoundFor(e, r));
    var result;
    ghost var reached, scans;
    result, reached, scans, c' := Requests(e, r, from + |turn.between|);
    all', ending := all, Refused;
    if result.Ok? {
      all' := all + result.value.sessions;
      ending := if result.value.next.Some? then MoreToRead else AllRead;
      OneMorePage(LimitOf(e.cfg, asked), pages);
    }
  }

  lemma OneMorePage(limit: nat, pages: nat)
    ensures limit * (pages + 1) == limit * pages + limit
  {
  }

  // The first page of a listing.
  method FirstTurn(e: DashboardAuthorizationEnforcer, principal: Id, query: Id, asked: Option<nat>, now: Time, from: Id)
    returns (all: seq<Id>, ending: Ending, ghost c: CursorRecord, ghost foreseen: bool)
    requires e.Valid() && Unissued(e, from)
    modifies e
    ensures e.Valid() && Unissued(e, from + 1)
    ensures Reads(e, principal, query, LimitOf(e.cfg, asked), all, 1, ending, true, foreseen)
    ensures ending.MoreToRead? ==> Stored(e, principal, query, from, now, all, c)
    ensures foreseen <==> e.Foreseen(principal, query, LimitOf(e.cfg, asked), None)
  {
    hide DashboardAuthorizationEnforcer.Valid, Kept, Unissued, DashboardAuthorizationEnforcer.Foreseen, Whole;
    foreseen := e.Foreseen(principal, query, LimitOf(e.cfg, asked), None);
    var result;
    ghost var reached, scans;
    result, reached, scans, c := Requests(e, Request(principal, query, asked, None, now), from);
    all := result.value.sessions;
    assert [] + all == all;
    ending := if result.value.next.Some? then MoreToRead else AllRead;
  }

  // Following cursors within their time, whatever else is requested in between: while no more
  // cursors are stored than there is room for, no page is refused, and where the scans suffice
  // for each request the pages are, in order, exactly what the principal may see.
  method Follow(e: DashboardAuthorizationEnforcer, principal: Id, query: Id, asked: Option<nat>, start: Time,
      turns: seq<Turn>, first: Id)
    returns (all: seq<Id>, ending: Ending, ghost kept: bool, ghost foreseen: bool)
    requires e.Valid() && Unissued(e, first) && InTime(start, turns, e.cfg.ttl)
    modifies e
    ensures e.Valid()
    ensures Reads(e, principal, query, LimitOf(e.cfg, asked), all, |turns| + 1, ending, kept, foreseen)
    ensures (forall k | 0 <= k < |turns| :: |turns[k].between| < e.cfg.maxCursors) ==> kept
    ensures AlwaysSuffices(e.w.backend(query).list, SeenBy(e.w, principal), e.cfg, LimitOf(e.cfg, asked)) ==> foreseen
  {
    hide DashboardAuthorizationEnforcer.Valid, Unissued, Reads, Stored, AlwaysSuffices,
      DashboardAuthorizationEnforcer.Foreseen;
    if AlwaysSuffices(e.w.backend(query).list, SeenBy(e.w, principal), e.cfg, LimitOf(e.cfg, asked)) {
      SufficesIsForeseen(e, principal, query, LimitOf(e.cfg, asked), None);
    }
    ghost var c;
    all, ending, c, foreseen := FirstTurn(e, principal, query, asked, start, first);
    kept := true;
    var at: Time, token: Id, from: Id, i: nat := start, first, first + 1, 0;
    while i < |turns| && ending.MoreToRead?
      invariant 0 <= i <= |turns| && e.Valid() && Unissued(e, from) && token < from
      invariant InTime(at, turns[i..], e.cfg.ttl)
      invariant ending.MoreToRead? ==> Stored(e, principal, query, token, at, all, c)
      invariant Reads(e, principal, query, LimitOf(e.cfg, asked), all, i + 1, ending, kept, foreseen)
      invariant (forall k | 0 <= k < i :: |turns[k].between| < e.cfg.maxCursors) ==> kept
      invariant AlwaysSuffices(e.w.backend(query).list, SeenBy(e.w, principal), e.cfg, LimitOf(e.cfg, asked))
          ==> foreseen
    {
      var turn := turns[i];
      assert turns[i..][0] == turn && turns[i..][1..] == turns[i + 1..];
      all, ending, c, kept, foreseen :=
        Turns(e, principal, query, asked, turn, at, token, c, all, i + 1, kept, foreseen, from);
      at, token := turn.now, from + |turn.between|;
      from, i := token + 1, i + 1;
    }
    EndsReading(e, principal, query, LimitOf(e.cfg, asked), all, i + 1, |turns| + 1, ending, kept, foreseen);
  }

  lemma EndsReading(e: DashboardAuthorizationEnforcer, principal: Id, query: Id, limit: nat, all: seq<Id>, pages: nat,
      last: nat, ending: Ending, kept: bool, foreseen: bool)
    requires Reads(e, principal, query, limit, all, pages, ending, kept, foreseen)
    requires ending.MoreToRead? ==> pages == last
    ensures Reads(e, principal, query, limit, all, last, ending, kept, foreseen)
  {
  }

  // A backend of two sessions that gives one a page, and a principal who sees the second.
  function TwoSessions(): World {
    World((q: Id) => Backend([0, 1], (k: nat, n: nat) => if k < 2 && n > 0 then 1 else 0), (p: Id, r: Id) => r == 1)
  }

  // A listing that stops on the scan limit may answer nothing and give no cursor to go on
  // with, although the principal sees a session.
  method ScanLimitHides() returns (page: Page)
    ensures page == Page([], None) && Whole(TwoSessions(), 0, 0) == [1]
  {
    var e := new DashboardAuthorizationEnforcer(TwoSessions(), Config(1, 1, 1, 1));
    var result, reached, scans := e.ListSessions(0, 0, None, None, 0, 0);
    page := result.value;
    var sees := SeenBy(TwoSessions(), 0);
    assert [0, 1][1..] == [1] && [1][1..] == [] && Filter([1], sees) == [1];
    assert Filter([0, 1], sees) == [1];
    assert [0, 1][..1] == [0] && [0][1..] == [] && Filter([0], sees) == [];
    assert [0, 1][..0] == [];
  }
}
