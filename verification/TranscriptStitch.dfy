/**
 One transcript page from many small ones (src/dashboard-remote-backend.ts:408-460),
 against the service that answers them (src/transcript-projector.ts:930-990).

 A cursor is the index it encodes.
 */
module TranscriptStitch {
  import opened Wrappers

  type Record = nat

  datatype Direction = Older | Newer

  datatype Query = Query(cursor: Option<nat>, direction: Option<Direction>, limit: nat)

  datatype Page = Page(records: seq<Record>, olderCursor: Option<nat>, newerCursor: Option<nat>)

  // How many of `available` records a service puts on a page of at most `limit`.
  type Sizing = (nat, nat) -> nat

  function Min(a: nat, b: nat): nat { if a <= b then a else b }

  // Pages are contiguous windows, and empty only where nothing is left.
  ghost predicate Fair(take: Sizing) {
    forall a, n :: take(a, n) <= Min(a, n) && (a > 0 && n > 0 ==> take(a, n) > 0)
  }

  // pageFromProjection's service fills its pages.
  ghost predicate Full(take: Sizing) { forall a, n :: take(a, n) == Min(a, n) }

  // The page that shows positions start to end.
  function Window(t: seq<Record>, start: nat, end: nat): Page
    requires start <= end <= |t|
  {
    Page(t[start..end], if start > 0 then Some(start) else None, if end < |t| then Some(end) else None)
  }

  predicate ReadsNewer(q: Query) { q.cursor.Some? && q.direction == Some(Newer) }

  // Where a page begins to be counted: the cursor, or the end.
  function Anchor(t: seq<Record>, q: Query): nat { if q.cursor.Some? then Min(q.cursor.value, |t|) else |t| }

  // pageFromProjection: without a cursor the newest window, whatever the direction.
  function Serve(take: Sizing, t: seq<Record>, q: Query): Page
    requires take(Anchor(t, q), q.limit) <= Anchor(t, q) && take(|t| - Anchor(t, q), q.limit) <= |t| - Anchor(t, q)
  {
    var a := Anchor(t, q);
    if ReadsNewer(q) then Window(t, a, a + take(|t| - a, q.limit))
    else Window(t, a - take(a, q.limit), a)
  }

  // One page of the requested limit from a service that fills its pages.
  function OnePage(t: seq<Record>, q: Query): Page {
    var a := Anchor(t, q);
    if ReadsNewer(q) then Window(t, a, a + Min(|t| - a, q.limit))
    else Window(t, a - Min(a, q.limit), a)
  }

  const PAGE := 3

  // The stitching direction is the direction the service reads in.
  predicate Straight(q: Query) { q.cursor.Some? || q.direction != Some(Newer) }

  // What comes of asking for newer records without a cursor: the second page starts
  // where the first one did.
  function Stitched(t: seq<Record>, limit: nat): Page {
    var n := |t|;
    if limit <= PAGE || n <= PAGE then Window(t, n - Min(n, limit), n)
    else Page(t[n - PAGE..n - PAGE + Min(PAGE, limit - PAGE)] + t[n - PAGE..], Some(n - PAGE), None)
  }

  // ---- The loop's state ----------------------------------------------------------------

  datatype Progress = Progress(records: seq<Record>, cursor: Option<nat>, first: Page, last: Page, seen: set<nat>)

  ghost predicate Reads(t: seq<Record>, q: Query, p: Progress) {
    var a, k := Anchor(t, q), |p.records|;
    if ReadsNewer(q) then
      && a + k <= |t| && p.records == t[a..a + k]
      && (p.seen != {} ==>
            && k > 0 && a + k < |t| && p.cursor == Some(a + k) && p.last.newerCursor == Some(a + k)
            && p.first.olderCursor == (if a > 0 then Some(a) else None))
      && (forall c | c in p.seen :: c <= a + k)
    else
      && k <= a && p.records == t[a - k..a]
      && (p.seen != {} ==>
            && k > 0 && a - k > 0 && p.cursor == Some(a - k) && p.last.olderCursor == Some(a - k)
            && p.first.newerCursor == (if a < |t| then Some(a) else None))
      && (forall c | c in p.seen :: c >= a - k)
  }

  ghost predicate Circles(t: seq<Record>, limit: nat, p: Progress) {
    p.seen != {} ==>
      && |t| > PAGE && limit > PAGE && p.records == t[|t| - PAGE..] && p.cursor == Some(|t| - PAGE)
      && p.seen == {|t| - PAGE} && p.first == Window(t, |t| - PAGE, |t|) == p.last
  }

  ghost predicate Stage(take: Sizing, t: seq<Record>, q: Query, p: Progress) {
    && (p.seen == {} ==> p.records == [] && p.cursor == q.cursor)
    && (Straight(q) ==> Reads(t, q, p))
    && (!Straight(q) && Full(take) ==> Circles(t, q.limit, p))
  }

  function NextCursor(q: Query, page: Page): Option<nat> { if ReadsNewer(q) then page.newerCursor
      else page.olderCursor }

  // One page taken in.
  function Taken(q: Query, p: Progress, page: Page): Progress {
    Progress(if ReadsNewer(q) then p.records + page.records else page.records + p.records,
             NextCursor(q, page),
             if p.seen == {} then page else p.first,
             page,
             if NextCursor(q, page).Some? then p.seen + {NextCursor(q, page).value} else p.seen)
  }

  function Answer(q: Query, p: Progress): Page {
    Page(p.records,
         if ReadsNewer(q) then p.first.olderCursor else p.last.olderCursor,
         if ReadsNewer(q) then p.last.newerCursor else p.first.newerCursor)
  }

  predicate Stops(q: Query, p: Progress, page: Page) {
    page.records == [] || NextCursor(q, page).None? || NextCursor(q, page).value in p.seen
  }

  ghost predicate Expected(take: Sizing, t: seq<Record>, q: Query, answer: Page) {
    && (Straight(q) ==> answer == OnePage(t, q))
    && (!Straight(q) && Full(take) ==> answer == Stitched(t, q.limit))
  }

  function PageAt(take: Sizing, t: seq<Record>, q: Query, p: Progress): Page
    requires Fair(take) && |p.records| < q.limit
  {
    Serve(take, t, q.(cursor := p.cursor, limit := Min(PAGE, q.limit - |p.records|)))
  }

  // A page read straight continues the window, and stops only at its end.
  ghost predicate Continues(take: Sizing, t: seq<Record>, q: Query, p: Progress)
    requires Fair(take) && |p.records| < q.limit
  {
    var page := PageAt(take, t, q, p);
    var n := Taken(q, p, page);
    && |page.records| <= q.limit - |p.records|
    && (Stops(q, p, page) || |n.records| == q.limit ==> Answer(q, n) == OnePage(t, q))
    && (!Stops(q, p, page) && |n.records| < q.limit ==> Reads(t, q, n))
  }

  lemma NewerStep(t: seq<Record>, q: Query, p: Progress, got: nat)
    requires ReadsNewer(q) && Reads(t, q, p) && |p.records| < q.limit
    requires p.seen == {} ==> p.records == []
    requires got <= q.limit - |p.records| && got <= |t| - Anchor(t, q) - |p.records|
    requires got == 0 ==> Anchor(t, q) + |p.records| == |t|
    ensures
      var k := Anchor(t, q) + |p.records|;
      var page := Window(t, k, k + got);
      var n := Taken(q, p, page);
      && (Stops(q, p, page) || |n.records| == q.limit ==> Answer(q, n) == OnePage(t, q))
      && (!Stops(q, p, page) && |n.records| < q.limit ==> Reads(t, q, n))
  {
    var a, k := Anchor(t, q), |p.records|;
    assert p.records + t[a + k..a + k + got] == t[a..a + k + got];
  }

  lemma OlderStep(t: seq<Record>, q: Query, p: Progress, got: nat)
    requires Straight(q) && !ReadsNewer(q) && Reads(t, q, p) && |p.records| < q.limit
    requires p.seen == {} ==> p.records == []
    requires got <= q.limit - |p.records| && got <= Anchor(t, q) - |p.records|
    requires got == 0 ==> Anchor(t, q) == |p.records|
    ensures
      var k := Anchor(t, q) - |p.records|;
      var page := Window(t, k - got, k);
      var n := Taken(q, p, page);
      && (Stops(q, p, page) || |n.records| == q.limit ==> Answer(q, n) == OnePage(t, q))
      && (!Stops(q, p, page) && |n.records| < q.limit ==> Reads(t, q, n))
  {
    var a, k := Anchor(t, q), |p.records|;
    assert a <= |t|;
    assert t[a - k - got..a - k] + p.records == t[a - k - got..a];
    hide Anchor;
  }

  lemma NewerPage(take: Sizing, t: seq<Record>, q: Query, p: Progress) returns (got: nat)
    requires Fair(take) && ReadsNewer(q) && Stage(take, t, q, p) && |p.records| < q.limit
    ensures got <= q.limit - |p.records| && got <= |t| - Anchor(t, q) - |p.records|
    ensures got == 0 ==> Anchor(t, q) + |p.records| == |t|
    ensures PageAt(take, t, q, p) == Window(t, Anchor(t, q) + |p.records|, Anchor(t, q) + |p.records| + got)
  {
    got := take(|t| - Anchor(t, q) - |p.records|, Min(PAGE, q.limit - |p.records|));
  }

  lemma OlderPage(take: Sizing, t: seq<Record>, q: Query, p: Progress) returns (got: nat)
    requires Fair(take) && Straight(q) && !ReadsNewer(q) && Stage(take, t, q, p) && |p.records| < q.limit
    ensures got <= q.limit - |p.records| && got <= Anchor(t, q) - |p.records|
    ensures got == 0 ==> Anchor(t, q) == |p.records|
    ensures PageAt(take, t, q, p) == Window(t, Anchor(t, q) - |p.records| - got, Anchor(t, q) - |p.records|)
  {
    got := take(Anchor(t, q) - |p.records|, Min(PAGE, q.limit - |p.records|));
  }

  lemma ReadsOn(take: Sizing, t: seq<Record>, q: Query, p: Progress)
    requires Fair(take) && Straight(q) && Stage(take, t, q, p) && |p.records| < q.limit
    ensures Continues(take, t, q, p)
  {
    hide Reads, OnePage, PageAt;
    if ReadsNewer(q) {
      var got := NewerPage(take, t, q, p);
      NewerStep(t, q, p, got);
    } else {
      var got := OlderPage(take, t, q, p);
      OlderStep(t, q, p, got);
    }
  }

  // Asked for newer records without a cursor, the second page repeats the first.
  lemma CirclesOn(take: Sizing, t: seq<Record>, q: Query, p: Progress)
    requires Fair(take) && Full(take) && !Straight(q) && Stage(take, t, q, p) && |p.records| < q.limit
    ensures
      var page := PageAt(take, t, q, p);
      var n := Taken(q, p, page);
      && (Stops(q, p, page) || |n.records| >= q.limit ==> Answer(q, n) == Stitched(t, q.limit))
      && (!Stops(q, p, page) && |n.records| < q.limit ==> Circles(t, q.limit, n))
  {
    var page := PageAt(take, t, q, p);
    if p.seen == {} {
      assert Taken(q, p, page).records == page.records;
    }
  }

  lemma StageOn(take: Sizing, t: seq<Record>, q: Query, p: Progress)
    requires Fair(take) && Stage(take, t, q, p) && |p.records| < q.limit
    ensures
      var page := PageAt(take, t, q, p);
      var n := Taken(q, p, page);
      && (Stops(q, p, page) || |n.records| >= q.limit ==> Expected(take, t, q, Answer(q, n)))
      && (!Stops(q, p, page) && |n.records| < q.limit ==> Stage(take, t, q, n))
  {
    hide Reads, Circles, OnePage, Stitched, PageAt;
    if Straight(q) {
      ReadsOn(take, t, q, p);
    } else if Full(take) {
      CirclesOn(take, t, q, p);
    }
  }

  // #pagedTranscript: pages of at most three records by cursor.
  method PagedTranscript(take: Sizing, t: seq<Record>, q: Query) returns (result: Page)
    requires Fair(take) && q.limit >= 1
    ensures Straight(q) ==> result == OnePage(t, q)
    ensures !Straight(q) && Full(take) ==> result == Stitched(t, q.limit)
  {
    var records, cursor, remaining, seen := [], q.cursor, q.limit, {};
    var first, last := Page([], None, None), Page([], None, None);
    ghost var p := Progress([], q.cursor, first, last, {});
    hide Stage, Reads, Circles, OnePage, Stitched, Window, Fair;
    Begins(take, t, q, p);
    while remaining > 0
      invariant 0 <= remaining <= q.limit && p == Progress(records, cursor, first, last, seen)
      invariant remaining > 0 ==> |records| + remaining == q.limit && Stage(take, t, q, p)
      invariant remaining == 0 ==> Expected(take, t, q, Answer(q, p))
      decreases remaining
    {
      var page := PageAt(take, t, q, Progress(records, cursor, first, last, seen));
      StageOn(take, t, q, p);
      ghost var n := Taken(q, p, page);
      if seen == {} { first := page; }
      last := page;
      records := if ReadsNewer(q) then records + page.records else page.records + records;
      remaining := if |page.records| >= remaining then 0 else remaining - |page.records|;
      var next := NextCursor(q, page);
      if page.records == [] || next.None? || next.value in seen {
        p := n.(cursor := cursor, seen := seen);
        break;
      }
      seen := seen + {next.value};
      cursor := next;
      p := n;
    }
    result := Page(records,
                   if ReadsNewer(q) then first.olderCursor else last.olderCursor,
                   if ReadsNewer(q) then last.newerCursor else first.newerCursor);
  }

  lemma Begins(take: Sizing, t: seq<Record>, q: Query, p: Progress)
    requires p.seen == {} && p.records == [] && p.cursor == q.cursor
    ensures Stage(take, t, q, p)
  {
  }

  predicate Distinct(t: seq<Record>) { forall i, j | 0 <= i < j < |t| :: t[i] != t[j] }

  // Without a cursor and asking for newer records, the stitched page is the one page
  // exactly when a single small page is enough.
  lemma NewerWithoutCursor(t: seq<Record>, q: Query)
    requires Distinct(t) && q.limit >= 1 && !Straight(q)
    ensures Stitched(t, q.limit) == OnePage(t, q) <==> q.limit <= PAGE || |t| <= PAGE
  {
    if q.limit > PAGE && |t| > PAGE {
      var s, o := Stitched(t, q.limit).records, OnePage(t, q).records;
      assert s[0] == t[|t| - PAGE] && s[Min(PAGE, q.limit - PAGE)] == t[|t| - PAGE];
      var start := |t| - Min(|t|, q.limit);
      assert o[0] == t[start] && o[Min(PAGE, q.limit - PAGE)] == t[start + Min(PAGE, q.limit - PAGE)];
    }
  }
}
