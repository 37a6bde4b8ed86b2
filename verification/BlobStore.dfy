/**
 The blob store: three maps in memory, the files below one directory, and every
 operation as the file operations it performs in order
 (src/blob-store.ts:246-1015). `history` keeps the files after each of them, so
 that a crash is a stop at any of its points.
 */
module BlobStore {
  import opened Wrappers
  import opened Sums
  import opened BlobDisk
  import opened BlobSteps
  import opened BlobRecovery

  // The files at one moment, with the records they commit.
  datatype Point = Point(disk: Disk, table: Table)

  ghost predicate PointOk(w: World, history: seq<Point>, i: nat)
    requires i < |history|
  {
    CrashOk(w, history[i].disk, history[i].table)
  }

  ghost predicate AllCrashOk(w: World, history: seq<Point>) {
    forall i: nat {:trigger PointOk(w, history, i)} | i < |history| :: PointOk(w, history, i)
  }

  lemma OneMorePoint(w: World, history: seq<Point>, p: Point)
    requires AllCrashOk(w, history) && CrashOk(w, p.disk, p.table)
    ensures AllCrashOk(w, history + [p])
  {
    forall i: nat | i < |history + [p]| ensures PointOk(w, history + [p], i) {
      if i < |history| { assert PointOk(w, history, i); }
    }
  }

  // Session inbox directories are made and never removed.
  ghost predicate InboxesGrow(first: Disk, history: seq<Point>) {
    && (forall i | 0 <= i < |history| :: first.inboxes <= history[i].disk.inboxes)
    && (forall i, j | 0 <= i <= j < |history| :: history[i].disk.inboxes <= history[j].disk.inboxes)
  }

  function LastDisk(first: Disk, history: seq<Point>): Disk {
    if history == [] then first else history[|history| - 1].disk
  }

  lemma OneMoreGrows(first: Disk, history: seq<Point>, p: Point)
    requires InboxesGrow(first, history) && LastDisk(first, history).inboxes <= p.disk.inboxes
    ensures InboxesGrow(first, history + [p]) && LastDisk(first, history + [p]) == p.disk
  {
    var more := history + [p];
    forall i | 0 <= i < |more| ensures first.inboxes <= more[i].disk.inboxes && more[i].disk.inboxes <= p.disk.inboxes {
      if i < |history| { assert more[i] == history[i]; }
    }
  }

  lemma InboxesStay(first: Disk, was: seq<Point>, history: seq<Point>)
    requires InboxesGrow(first, history) && was <= history
    ensures LastDisk(first, was).inboxes <= LastDisk(first, history).inboxes
  {
  }

  // A crash at any moment of any operation leaves files that recovery accepts exactly
  // when its limits cover them, and turns into clean files of the committed records.
  lemma CrashAnywhereIsRecovered(w: World, history: seq<Point>, i: nat)
    requires AllCrashOk(w, history) && i < |history|
    ensures Accepts(w, history[i].disk) <==> Sufficient(w, history[i].disk)
    ensures Clean(w, Swept(history[i].disk), history[i].table)
  {
    assert PointOk(w, history, i);
    CrashStatesAccepted(w, history[i].disk, history[i].table);
    SweptIsClean(w, history[i].disk, history[i].table);
  }

  // ---- The reverse index -------------------------------------------------------------

  ghost predicate IndexedFor(refs: map<Id, Reference>, byBlob: map<Id, set<Id>>, b: Id)
    requires b in byBlob
  {
    byBlob[b] != {} && byBlob[b] == RefsTo(refs, b)
  }

  // byBlob is the exact inverse of the reference map, without empty sets.
  ghost predicate Inverse(refs: map<Id, Reference>, byBlob: map<Id, set<Id>>) {
    && (forall b {:trigger IndexedFor(refs, byBlob, b)} | b in byBlob :: IndexedFor(refs, byBlob, b))
    && (forall f | f in refs :: refs[f].blobId in byBlob)
  }

  function UsesIn(byBlob: map<Id, set<Id>>, b: Id): set<Id> { if b in byBlob then byBlob[b] else {} }

  lemma UsesAreRefs(refs: map<Id, Reference>, byBlob: map<Id, set<Id>>, b: Id)
    requires Inverse(refs, byBlob)
    ensures UsesIn(byBlob, b) == RefsTo(refs, b)
    ensures b in byBlob <==> RefsTo(refs, b) != {}
  {
    if b in byBlob { assert IndexedFor(refs, byBlob, b); }
  }

  lemma IndexingKeeps(refs: map<Id, Reference>, byBlob: map<Id, set<Id>>, r: Reference)
    requires Inverse(refs, byBlob) && r.fileId !in refs
    ensures Inverse(refs[r.fileId := r], byBlob[r.blobId := UsesIn(byBlob, r.blobId) + {r.fileId}])
  {
    var refs', byBlob' := refs[r.fileId := r], byBlob[r.blobId := UsesIn(byBlob, r.blobId) + {r.fileId}];
    UsesAreRefs(refs, byBlob, r.blobId);
    forall b | b in byBlob' ensures IndexedFor(refs', byBlob', b) {
      if b == r.blobId {
        assert RefsTo(refs', b) == RefsTo(refs, b) + {r.fileId};
      } else {
        assert IndexedFor(refs, byBlob, b);
        assert RefsTo(refs', b) == RefsTo(refs, b);
      }
    }
  }

  // #removeReference's update of the index (lines 936-939).
  function Unindexed(byBlob: map<Id, set<Id>>, r: Reference): map<Id, set<Id>> {
    if r.blobId !in byBlob then byBlob
    else if byBlob[r.blobId] - {r.fileId} == {} then byBlob - {r.blobId}
    else byBlob[r.blobId := byBlob[r.blobId] - {r.fileId}]
  }

  lemma UnindexingKeeps(refs: map<Id, Reference>, byBlob: map<Id, set<Id>>, f: Id)
    requires Inverse(refs, byBlob) && f in refs && refs[f].fileId == f
    ensures Inverse(refs - {f}, Unindexed(byBlob, refs[f]))
  {
    var r := refs[f];
    var refs', byBlob' := refs - {f}, Unindexed(byBlob, r);
    assert IndexedFor(refs, byBlob, r.blobId);
    assert RefsTo(refs', r.blobId) == RefsTo(refs, r.blobId) - {f};
    forall b | b in byBlob' ensures IndexedFor(refs', byBlob', b) {
      assert IndexedFor(refs, byBlob, b);
      if b != r.blobId { assert RefsTo(refs', b) == RefsTo(refs, b); }
    }
    forall g | g in refs' ensures refs'[g].blobId in byBlob' {
      if refs[g].blobId == r.blobId { assert g in RefsTo(refs', r.blobId); }
    }
  }

  lemma UnreferencedIsUnindexed(refs: map<Id, Reference>, byBlob: map<Id, set<Id>>, b: Id)
    requires Inverse(refs, byBlob) && RefsTo(refs, b) == {}
    ensures byBlob - {b} == byBlob
  {
    UsesAreRefs(refs, byBlob, b);
  }

  // ---- Expiry --------------------------------------------------------------------------

  function Unexpired(refs: map<Id, Reference>, now: Time): map<Id, Reference> {
    map f | f in refs && refs[f].expiresAt > now :: refs[f]
  }

  // The survivors of a prune: unexpired references, and blobs that are unexpired
  // or held by a surviving reference.
  ghost function Pruned(t: Table, now: Time): Table {
    var refs := Unexpired(t.refs, now);
    Table(map id | id in t.blobs && (t.blobs[id].expiresAt > now || RefsTo(refs, id) != {}) :: t.blobs[id], refs)
  }

  // ---- The files after an object or a reference is gone ------------------------------------

  ghost predicate SettledElsewhere(blobs: map<Id, Blob>, id: Id)
    requires id in blobs
  {
    exists j :: j in blobs && j != id && Settled(blobs[j]) && blobs[j].sha256 == blobs[id].sha256
  }

  lemma LastAlias(blobs: map<Id, Blob>, id: Id)
    requires id in blobs
    ensures SettledDigests(blobs - {id})
         == if Settled(blobs[id]) && !SettledElsewhere(blobs, id)
            then SettledDigests(blobs) - {blobs[id].sha256} else SettledDigests(blobs)
  {
    var m := blobs - {id};
    forall d ensures d in SettledDigests(m) <==>
        d in SettledDigests(blobs) && !(Settled(blobs[id]) && !SettledElsewhere(blobs, id) && d == blobs[id].sha256)
    {
      if d in SettledDigests(m) {
        var j :| j in m && Settled(m[j]) && m[j].sha256 == d;
        assert blobs[j] == m[j];
      }
      if d in SettledDigests(blobs) {
        var j :| j in blobs && Settled(blobs[j]) && blobs[j].sha256 == d;
        if j != id { assert m[j] == blobs[j]; }
        else if SettledElsewhere(blobs, id) {
          var k :| k in blobs && k != id && Settled(blobs[k]) && blobs[k].sha256 == blobs[id].sha256;
          assert m[k] == blobs[k];
        }
      }
    }
  }

  // ---- What the operations answer ---------------------------------------------------------

  datatype BlobError =
    | TooLarge
    | ReservationConflict
    | CountQuota
    | SessionQuota
    | ByteQuota
    | BlobNotFound
    | WrongSession
    | KeyConflict
    | BlobExpired
    | SizeMismatch
    | HashMismatch
    | StreamFailed
    | QuarantinedBlob
    | NotReady
    | ReferenceConflict
    | ReferenceQuota
    | BlobInUse

  datatype Reservation =
    Reservation(blobId: Id, session: Id, generation: nat, metadata: Id, sizeBytes: nat, sha256: Digest)

  predicate SameReservation(b: Blob, r: Reservation) {
    b.blobId == r.blobId && b.session == r.session && b.generation == r.generation && b.metadata == r.metadata
    && b.sizeBytes == r.sizeBytes && b.sha256 == r.sha256
  }

  function NewBlob(r: Reservation, now: Time, ttl: nat): Blob {
    Blob(r.blobId, r.session, r.generation, r.metadata, r.sizeBytes, r.sha256, Reserved, 0, now, now, now + ttl,
        None, None)
  }

  // Why a reservation is refused, on pruned records (lines 302-347).
  ghost function Refusal(w: World, blobs: map<Id, Blob>, r: Reservation): Option<BlobError> {
    if r.sizeBytes > w.limits.maxBlobBytes then Some(TooLarge)
    else if r.blobId in blobs then (if SameReservation(blobs[r.blobId], r) then None else Some(ReservationConflict))
    else if exists id :: id in blobs && blobs[id].sha256 == r.sha256 && blobs[id].sizeBytes != r.sizeBytes then
      Some(ReservationConflict)
    else if |blobs| >= w.limits.maxBlobs then Some(CountQuota)
    else if |OfSession(blobs, r.session)| >= w.limits.maxBlobsPerSession then Some(SessionQuota)
    else if SumOf(Declared(blobs)) + (if r.sha256 in Digests(blobs) then 0
        else r.sizeBytes) > w.limits.maxTotalBytes then
      Some(ByteQuota)
    else None
  }

  // ---- Uploading -----------------------------------------------------------------------------

  datatype Policy = Allow | QuarantineAs(code: Id)

  function Joined(chunks: seq<Content>): Content {
    if chunks == [] then [] else Joined(chunks[..|chunks| - 1]) + chunks[|chunks| - 1]
  }

  lemma {:induction false} JoinedGrows(chunks: seq<Content>, i: nat)
    requires i <= |chunks|
    ensures |Joined(chunks[..i])| <= |Joined(chunks)|
    decreases |chunks| - i
  {
    if i < |chunks| {
      assert chunks[..i + 1][..i] == chunks[..i];
      JoinedGrows(chunks, i + 1);
    } else {
      assert chunks[..i] == chunks;
    }
  }

  function UploadRefusal(blobs: map<Id, Blob>, id: Id, session: Id, generation: nat, key: Id,
      now: Time): Option<BlobError> {
    if id !in blobs then Some(BlobNotFound)
    else if blobs[id].session != session || blobs[id].generation != generation then Some(WrongSession)
    else if blobs[id].uploadKey.Some? && blobs[id].uploadKey.value != key then Some(KeyConflict)
    else if Settled(blobs[id]) then (if blobs[id].uploadKey != Some(key) then Some(KeyConflict) else None)
    else if blobs[id].expiresAt <= now then Some(BlobExpired)
    else None
  }

  // Why received content is refused: too long, cut off, too short, or another hash.
  function ContentRefusal(w: World, b: Blob, chunks: seq<Content>, broken: bool): Option<BlobError> {
    var c := Joined(chunks);
    if |c| > b.sizeBytes || |c| > w.limits.maxBlobBytes then Some(SizeMismatch)
    else if broken then Some(StreamFailed)
    else if |c| != b.sizeBytes then Some(SizeMismatch)
    else if w.hash(c) != b.sha256 then Some(HashMismatch)
    else None
  }

  function SettledAs(b: Blob, policy: Policy, now: Time, ttl: nat): Blob {
    b.(state := if policy.Allow? then Available else Quarantined,
       revision := b.revision + 1,
       updatedAt := now,
       expiresAt := now + ttl,
       quarantineCode := if policy.Allow? then None else Some(policy.code))
  }

  // What a taken upload makes of a blob: available exactly if the policy allows the content, and
  // otherwise quarantined under the policy's code; a blob that was settled before stays as it is.
  ghost predicate Taken(b: Blob, b': Blob, key: Id, policy: Policy, now: Time, ttl: nat) {
    if Settled(b) then b' == b && b.uploadKey == Some(key)
    else
      && b.expiresAt > now && (b.uploadKey.Some? ==> b.uploadKey == Some(key))
      && (b'.state.Available? <==> policy.Allow?)
      && (forall code: Id :: b'.state.Quarantined? && b'.quarantineCode == Some(code) <==> policy == QuarantineAs(code))
      && b'.uploadKey == Some(key) && b'.revision == b.revision + 1 && b'.updatedAt == now && b'.expiresAt == now + ttl
      && b'.blobId == b.blobId && b'.session == b.session && b'.generation == b.generation
      && b'.metadata == b.metadata && b'.sizeBytes == b.sizeBytes && b'.sha256 == b.sha256 && b'.createdAt == b.createdAt
  }

  lemma SettlingIsTaken(policy: Policy, now: Time, ttl: nat)
    ensures forall b: Blob, key: Id {:trigger SettledAs(b.(uploadKey := Some(key)), policy, now, ttl)}
              | !Settled(b) && b.expiresAt > now && (b.uploadKey.Some? ==> b.uploadKey == Some(key)) ::
              Taken(b, SettledAs(b.(uploadKey := Some(key)), policy, now, ttl), key, policy, now, ttl)
    ensures forall b: Blob, key: Id {:trigger Taken(b, b, key, policy, now, ttl)} | Settled(b) && b.uploadKey == Some(key) ::
              Taken(b, b, key, policy, now, ttl)
  {
  }

  lemma SettlingAddsDigest(blobs: map<Id, Blob>, b: Blob)
    requires b.blobId in blobs && !Settled(blobs[b.blobId]) && Settled(b)
    ensures SettledDigests(blobs[b.blobId := b]) == SettledDigests(blobs) + {b.sha256}
  {
    var m := blobs[b.blobId := b];
    forall d ensures d in SettledDigests(m) <==> d in SettledDigests(blobs) + {b.sha256} {
      if d in SettledDigests(blobs) {
        var id :| id in blobs && Settled(blobs[id]) && blobs[id].sha256 == d;
        assert m[id] == blobs[id];
      }
      if d in SettledDigests(m) {
        var id :| id in m && Settled(m[id]) && m[id].sha256 == d;
        if id != b.blobId { assert m[id] == blobs[id]; }
      }
      assert m[b.blobId] == b;
    }
  }

  // The object of a settled digest has any alias's declared size.
  lemma AliasObject(w: World, d: Disk, t: Table, id: Id)
    requires Clean(w, d, t) && id in t.blobs && t.blobs[id].sha256 in d.objects
    ensures Holds(w, d.objects[t.blobs[id].sha256], t.blobs[id].sha256, t.blobs[id].sizeBytes)
  {
    var h := t.blobs[id].sha256;
    assert h in SettledDigests(t.blobs);
    var j :| j in t.blobs && Settled(t.blobs[j]) && t.blobs[j].sha256 == h;
    assert ObjectThere(w, d, j) && SameDigest(t.blobs, j, id);
  }

  // ---- Referring to a blob ---------------------------------------------------------------------

  datatype UploadInput = UploadInput(fileId: Id, session: Id, generation: nat, blobId: Id)

  predicate SameUpload(r: Reference, u: UploadInput) {
    r.fileId == u.fileId && r.session == u.session && r.generation == u.generation && r.blobId == u.blobId
  }

  function NewReference(u: UploadInput, b: Blob, now: Time, ttl: nat): Reference {
    Reference(u.fileId, u.session, u.generation, u.blobId, b.metadata, b.sizeBytes, b.sha256, now, now + ttl)
  }

  ghost function ReferenceRefusal(w: World, t: Table, u: UploadInput, now: Time): Option<BlobError> {
    if u.fileId in t.refs then (if SameUpload(t.refs[u.fileId], u) then None else Some(ReferenceConflict))
    else if u.blobId !in t.blobs then Some(BlobNotFound)
    else if t.blobs[u.blobId].session != u.session || t.blobs[u.blobId].generation != u.generation
        then Some(WrongSession)
    else if t.blobs[u.blobId].state.Quarantined? then Some(QuarantinedBlob)
    else if !t.blobs[u.blobId].state.Available? then Some(NotReady)
    else if t.blobs[u.blobId].expiresAt <= now then Some(BlobExpired)
    else if |t.refs| >= w.limits.maxReferences then Some(ReferenceQuota)
    else if |RefsTo(t.refs, u.blobId)| >= w.limits.maxReferencesPerBlob then Some(ReferenceQuota)
    else None
  }

  lemma NoFileYet(refs: map<Id, Reference>, json: map<Slot, Reference>, s: Slot)
    requires Mirrors(refs, json) && s.fileId !in refs
    ensures s !in json
  {
    assert s in json ==> Known(refs, json, s);
  }

  // writeAll (lines 1293-1300): the system may write less than it is asked to.
  method WriteAll(file: Content, value: Content) returns (out: Content)
    ensures out == file + value
  {
    out := file;
    var offset := 0;
    while offset < |value|
      invariant 0 <= offset <= |value| && out == file + value[..offset]
    {
      var bytesWritten: nat :| 1 <= bytesWritten <= |value| - offset;
      assert value[..offset] + value[offset..offset + bytesWritten] == value[..offset + bytesWritten];
      out := out + value[offset..offset + bytesWritten];
      offset := offset + bytesWritten;
    }
  }

  // The upload loop (lines 430-456).
  method Receive(w: World, b: Blob, chunks: seq<Content>, broken: bool)
    returns (content: Content, failure: Option<BlobError>)
    ensures failure == ContentRefusal(w, b, chunks, broken)
    ensures failure.None? ==> content == Joined(chunks)
    ensures failure.None? <==>
              !broken && Holds(w, Joined(chunks), b.sha256, b.sizeBytes) && |Joined(chunks)| <= w.limits.maxBlobBytes
  {
    content := [];
    var sizeBytes, i := 0, 0;
    while i < |chunks|
      invariant 0 <= i <= |chunks| && content == Joined(chunks[..i]) && sizeBytes == |content|
      invariant sizeBytes <= b.sizeBytes && sizeBytes <= w.limits.maxBlobBytes
    {
      sizeBytes := sizeBytes + |chunks[i]|;
      assert chunks[..i + 1][..i] == chunks[..i];
      if sizeBytes > b.sizeBytes || sizeBytes > w.limits.maxBlobBytes {
        JoinedGrows(chunks, i + 1);
        return content, Some(SizeMismatch);
      }
      content := WriteAll(content, chunks[i]);
      i := i + 1;
    }
    assert chunks[..i] == chunks;
    if broken { return content, Some(StreamFailed); }
    if sizeBytes != b.sizeBytes { return content, Some(SizeMismatch); }
    failure := if w.hash(content) != b.sha256 then Some(HashMismatch) else None;
  }

  // ---- One session generation ------------------------------------------------------------------

  function OutsideRefs(refs: map<Id, Reference>, session: Id, generation: nat): map<Id, Reference> {
    map f | f in refs && !(refs[f].session == session && refs[f].generation == generation) :: refs[f]
  }

  function OutsideBlobs(blobs: map<Id, Blob>, session: Id, generation: nat): map<Id, Blob> {
    map id | id in blobs && !(blobs[id].session == session && blobs[id].generation == generation) :: blobs[id]
  }

  predicate NoneOf(refs: map<Id, Reference>, session: Id, generation: nat) {
    forall f | f in refs :: !(refs[f].session == session && refs[f].generation == generation)
  }

  lemma LitterShrinks(was: multiset<Place>, p: Place)
    requires p in was
    ensures |Without(was, p)| < |was|
  {
    assert was == Without(was, p) + multiset{p}[p := was[p]];
  }

  lemma UsesMatch(w: World, d: Disk, refs: map<Id, Reference>, byBlob: map<Id, set<Id>>)
    requires Mirrors(refs, d.json) && Inverse(refs, byBlob)
    ensures UsesAccepted(w, d) <==>
              forall b | b in byBlob :: b in d.manifests && |byBlob[b]| <= w.limits.maxReferencesPerBlob
  {
    forall b ensures FilesFit(w, d, b) <==> |UsesIn(byBlob, b)| <= w.limits.maxReferencesPerBlob {
      FilesAreRefs(w, refs, d.json, b);
      UsesAreRefs(refs, byBlob, b);
    }
    forall s | s in d.json ensures d.json[s].blobId in byBlob { assert Known(refs, d.json, s); }
    forall b | b in byBlob ensures exists s :: s in d.json && d.json[s].blobId == b {
      assert IndexedFor(refs, byBlob, b);
      var f :| f in byBlob[b];
      assert Listed(refs, d.json, f);
      assert SlotOf(refs[f]) in d.json;
    }
    if UsesAccepted(w, d) {
      forall b | b in byBlob ensures |byBlob[b]| <= w.limits.maxReferencesPerBlob { assert FilesFit(w, d, b); }
    }
  }

  // Every object of a settled digest is whole.
  ghost predicate ObjectsWhole(w: World, d: Disk, expected: map<Digest, nat>) {
    forall h | h in d.objects && h in expected :: Holds(w, d.objects[h], h, expected[h])
  }

  lemma NotWhole(w: World, d: Disk, expected: map<Digest, nat>, h: Digest)
    requires h in d.objects && h in expected && !Holds(w, d.objects[h], h, expected[h])
    ensures !ObjectsWhole(w, d, expected)
  {
  }

  lemma SweptObjects(d: Disk, objects: map<Digest, Content>)
    requires SubmapOf(objects, d.objects)
    requires forall h | h in d.objects :: h in objects <==> h in SettledDigests(d.manifests)
    ensures objects == Swept(d).objects
  {
    forall h ensures h in objects <==> h in Swept(d).objects { }
  }

  lemma AllWhole(w: World, d: Disk, expected: map<Digest, nat>)
    requires forall h | h in d.objects && h in expected :: Holds(w, d.objects[h], h, expected[h])
    ensures ObjectsWhole(w, d, expected)
  {
  }

  lemma ObjectsComplete(w: World, d: Disk, expected: map<Digest, nat>)
    requires SettledAgree(d.manifests) && expected == Expected(d.manifests)
    ensures (forall id | id in d.manifests :: ObjectThere(w, d, id))
       <==> ObjectsWhole(w, d, expected) && expected.Keys <= d.objects.Keys
    ensures expected.Keys <= d.objects.Keys ==> Only(expected, d.objects.Keys) == expected
  {
    forall h | h in expected ensures exists id ::
        id in d.manifests && Settled(d.manifests[id]) && d.manifests[id].sha256 == h
                                                  && d.manifests[id].sizeBytes == expected[h] {
      var id :| id in d.manifests && Settled(d.manifests[id]) && d.manifests[id].sha256 == h;
      ExpectedAt(d.manifests, id);
    }
    forall id | id in d.manifests && Settled(d.manifests[id])
      ensures d.manifests[id].sha256 in expected && expected[d.manifests[id].sha256] == d.manifests[id].sizeBytes
    {
      ExpectedAt(d.manifests, id);
    }
    if forall id | id in d.manifests :: ObjectThere(w, d, id) {
      forall h | h in expected ensures h in d.objects && Holds(w, d.objects[h], h, expected[h]) {
        var id :| id in d.manifests && Settled(d.manifests[id]) && d.manifests[id].sha256 == h
                  && d.manifests[id].sizeBytes == expected[h];
        assert ObjectThere(w, d, id);
      }
    }
  }

  // The contents of `d` are those of `was` but for some without a record; `rest` are to go.
  ghost predicate OrphansLeft(was: Disk, d: Disk, rest: set<Slot>) {
    && d == was.(bin := d.bin) && rest <= d.bin.Keys && rest !! d.json.Keys
    && SubmapOf(d.bin, was.bin)
    && (forall s | s in was.bin :: s in d.bin <==> s in d.json || s in rest)
  }

  lemma OrphanGoes(was: Disk, d: Disk, rest: set<Slot>, s: Slot)
    requires OrphansLeft(was, d, rest) && s in rest
    ensures s !in d.json && OrphansLeft(was, d.(bin := d.bin - {s}), rest - {s})
  {
  }

  lemma NoOrphanLeft(was: Disk, d: Disk)
    requires OrphansLeft(was, d, {})
    ensures d == was.(bin := Swept(was).bin)
  {
    assert d.bin == Swept(was).bin;
  }

  lemma NoLitterLeft(l: multiset<Place>)
    requires forall p: Place :: l[p] == 0
    ensures l == multiset{}
  {
  }

  // ... and when one digest was settled and got its object.
  lemma OneMoreSettled(w: World, d: Disk, t: Table, d': Disk, t': Table, h: Digest)
    requires Clean(w, d, t) && CrashOk(w, d', t') && d' == d.(manifests := d'.manifests, objects := d'.objects)
    requires d'.objects.Keys == d.objects.Keys + {h} && SettledDigests(t'.blobs) == SettledDigests(t.blobs) + {h}
    ensures Clean(w, d', t')
  {
  }

  lemma ReferenceFiles(w: World, d: Disk, t: Table, f: Id)
    requires CrashOk(w, d, t) && f in t.refs
    ensures SlotOf(t.refs[f]) in d.json && t.refs[f].fileId == f
        && (t.refs[f].session, t.refs[f].generation) in d.inboxes
  {
    assert Listed(t.refs, d.json, f) && BinThere(w, d, SlotOf(t.refs[f]));
  }

  lemma CleanTable(w: World, d: Disk, t: Table, id: Id)
    requires Clean(w, d, t)
    ensures TableOk(w, t) && (id in t.blobs ==> BlobFits(w, t.blobs, id))
  {
  }

  // Files stay clean when only a manifest changed and no digest was settled by it.
  lemma StillClean(w: World, d: Disk, t: Table, d': Disk, t': Table)
    requires Clean(w, d, t) && CrashOk(w, d', t') && d' == d.(manifests := d'.manifests)
    requires SettledDigests(t'.blobs) == SettledDigests(t.blobs)
    ensures Clean(w, d', t')
  {
  }

  lemma NothingMirrored()
    ensures Mirrors(map[], map[]) && Inverse(map[], map[])
  {
  }

  lemma AlreadyLoaded(refs: map<Id, Reference>, done: map<Slot, Reference>, json: map<Slot, Reference>, s: Slot)
    requires Mirrors(refs, done) && SubmapOf(done, json) && s in json && s !in done && s.fileId in refs
    ensures !FilesDistinct(json)
  {
    assert Listed(refs, done, s.fileId);
    assert SameFile(json, SlotOf(refs[s.fileId]), s);
  }

  lemma LitterGoes(w: World, d: Disk, t: Table, p: Place)
    requires p in d.litter
    ensures CrashOk(w, d, t) ==> CrashOk(w, d.(litter := d.litter - multiset{p}), t)
  {
    if CrashOk(w, d, t) {
      assert d.litter == d.litter - multiset{p} + multiset{p};
      LitterKeeps(w, d, t, d.litter - multiset{p});
    }
  }

  lemma CrashTable(w: World, d: Disk, t: Table)
    requires CrashOk(w, d, t)
    ensures TableOk(w, t)
  {
  }

  class FileBlobStore {
    const w: World
    var blobs: map<Id, Blob>
    var references: map<Id, Reference>
    var byBlob: map<Id, set<Id>>
    var disk: Disk
    ghost var history: seq<Point>
    ghost const first: Disk

    ghost function Records(): Table
      reads this`blobs, this`references
    {
      Table(blobs, references)
    }

    // Every file operation was recorded, the last one too, and each left recoverable files
    // and the inboxes there were.
    ghost predicate Recorded()
      reads this`disk, this`history
    {
      AllCrashOk(w, history) && LastDisk(first, history) == disk && InboxesGrow(first, history)
    }

    ghost predicate Valid()
      reads this
    {
      Clean(w, disk, Records()) && Inverse(references, byBlob) && Recorded()
    }

    constructor (w: World, disk: Disk)
      ensures this.w == w && this.disk == disk && first == disk && history == []
      ensures Records() == Table(map[], map[]) && byBlob == map[]
    {
      this.w := w;
      this.disk, this.first := disk, disk;
      history := [];
      blobs, references, byBlob := map[], map[], map[];
    }

    // One file operation: the only way the files change.
    method Touch(next: Disk, ghost t: Table)
      requires Recorded() && CrashOk(w, next, t) && disk.inboxes <= next.inboxes
      modifies this`disk, this`history
      ensures disk == next && history == old(history) + [Point(next, t)] && Recorded()
    {
      OneMorePoint(w, history, Point(next, t));
      OneMoreGrows(first, history, Point(next, t));
      disk := next;
      history := history + [Point(next, t)];
    }

    // atomicWritePrivateJson: a temporary file, then a rename over the manifest.
    method WriteManifest(b: Blob, ghost t: Table)
      requires Recorded() && CrashOk(w, disk, t) && disk.litter == multiset{}
      requires TableOk(w, t.(blobs := t.blobs[b.blobId := b]))
      requires Settled(b) ==> b.sha256 in disk.objects && Holds(w, disk.objects[b.sha256], b.sha256, b.sizeBytes)
      modifies this`disk, this`history
      ensures disk == old(disk).(manifests := old(disk).manifests[b.blobId := b])
      ensures CrashOk(w, disk, t.(blobs := t.blobs[b.blobId := b]))
      ensures Recorded() && old(history) <= history
    {
      LitterKeeps(w, disk, t, multiset{AmongBlobs});
      Touch(disk.(litter := multiset{AmongBlobs}), t);
      ManifestKeeps(w, disk, t, b);
      Touch(disk.(manifests := disk.manifests[b.blobId := b], litter := multiset{}),
          t.(blobs := t.blobs[b.blobId := b]));
    }

    // Between two file operations of one operation.
    ghost predicate Midway()
      reads this
    {
      CrashOk(w, disk, Records()) && Inverse(references, byBlob) && Recorded()
    }

    method DropManifest(id: Id)
      requires Midway() && id in blobs && RefsTo(references, id) == {}
      modifies this`blobs, this`byBlob, this`disk, this`history
      ensures Midway() && old(history) <= history
      ensures blobs == old(blobs) - {id} && byBlob == old(byBlob)
      ensures disk == old(disk).(manifests := old(disk).manifests - {id})
    {
      hide CrashOk, TableOk, FileBlobStore.Recorded, Inverse, RefsTo;
      CrashTable(w, disk, Records());
      RemovingBlobKeeps(w, Records(), id);
      DroppingManifestKeeps(w, disk, Records(), id);
      UnreferencedIsUnindexed(references, byBlob, id);
      var fewer := disk.(manifests := disk.manifests - {id});
      ghost var t := Table(blobs - {id}, references);
      assert CrashOk(w, fewer, t) && fewer.inboxes == disk.inboxes;
      Touch(fewer, t);
      blobs, byBlob := blobs - {id}, byBlob - {id};
    }

    method DropObject(sha256: Digest)
      requires Midway() && sha256 !in SettledDigests(blobs)
      modifies this`disk, this`history
      ensures Midway() && old(history) <= history
      ensures disk == old(disk).(objects := old(disk).objects - {sha256})
    {
      hide CrashOk, FileBlobStore.Recorded, Inverse;
      DroppingObjectKeeps(w, disk, Records(), sha256);
      Touch(disk.(objects := disk.objects - {sha256}), Records());
    }

    method DropJson(f: Id)
      requires Midway() && f in references
      modifies this`references, this`byBlob, this`disk, this`history
      ensures Midway() && old(history) <= history
      ensures references == old(references) - {f}
      ensures disk == old(disk).(json := old(disk).json - {SlotOf(old(references)[f])})
    {
      hide CrashOk, FileBlobStore.Recorded, Inverse;
      var r := references[f];
      ReferenceFiles(w, disk, Records(), f);
      assert disk.inboxes + {(r.session, r.generation)} == disk.inboxes;
      UnindexingKeeps(references, byBlob, f);
      DroppingJsonKeeps(w, disk, Records(), f);
      Touch(disk.(json := disk.json - {SlotOf(r)}), Table(blobs, references - {f}));
      references := references - {f};
      byBlob := Unindexed(byBlob, r);
    }

    method DropBin(s: Slot)
      requires Midway() && s !in disk.json
      modifies this`disk, this`history
      ensures Midway() && old(history) <= history
      ensures disk == old(disk).(bin := old(disk).bin - {s})
    {
      hide CrashOk, FileBlobStore.Recorded, Inverse;
      DroppingBinKeeps(w, disk, Records(), s);
      Touch(disk.(bin := disk.bin - {s}), Records());
    }

    // #removeBlob (lines 914-930).
    method RemoveBlob(id: Id)
      requires Valid() && id in blobs && RefsTo(references, id) == {}
      modifies this`blobs, this`byBlob, this`disk, this`history
      ensures Valid() && old(history) <= history
      ensures blobs == old(blobs) - {id} && byBlob == old(byBlob)
    {
      hide FileBlobStore.Recorded, Inverse, CrashOk;
      var b := blobs[id];
      LastAlias(blobs, id);
      DropManifest(id);
      if Settled(b) && !(exists j | j in blobs :: Settled(blobs[j]) && blobs[j].sha256 == b.sha256) {
        DropObject(b.sha256);
      }
    }

    // #removeReference (lines 932-940).
    method RemoveReference(f: Id)
      requires Valid() && f in references
      modifies this`references, this`byBlob, this`disk, this`history
      ensures Valid() && old(history) <= history
      ensures references == old(references) - {f}
    {
      var s := SlotOf(references[f]);
      DropJson(f);
      DropBin(s);
    }

    // #pruneLocked (lines 893-912).
    method Prune(now: Time) returns (removed: nat)
      requires Valid()
      modifies this`blobs, this`references, this`byBlob, this`disk, this`history
      ensures Valid() && old(history) <= history
      ensures Records() == Pruned(old(Records()), now)
      ensures removed == |old(references)| - |references| + |old(blobs)| - |blobs|
    {
      var gone := PruneReferences(now);
      var more := PruneBlobs(now);
      removed := gone + more;
    }

    method RemoveIfExpired(f: Id, now: Time) returns (gone: bool)
      requires Valid() && f in references
      modifies this`references, this`byBlob, this`disk, this`history
      ensures Valid() && old(history) <= history
      ensures gone == (old(references)[f].expiresAt <= now)
      ensures references == if gone then old(references) - {f} else old(references)
      ensures |references| == |old(references)| - (if gone then 1 else 0)
    {
      gone := references[f].expiresAt <= now;
      if gone {
        assert (references - {f}).Keys == references.Keys - {f};
        RemoveReference(f);
      }
    }

    method RemoveIfUnused(id: Id, now: Time) returns (gone: bool)
      requires Valid() && id in blobs
      modifies this`blobs, this`byBlob, this`disk, this`history
      ensures Valid() && old(history) <= history && byBlob == old(byBlob)
      ensures gone == (old(blobs)[id].expiresAt <= now && RefsTo(references, id) == {})
      ensures blobs == if gone then old(blobs) - {id} else old(blobs)
      ensures |blobs| == |old(blobs)| - (if gone then 1 else 0)
    {
      UsesAreRefs(references, byBlob, id);
      gone := blobs[id].expiresAt <= now && |UsesIn(byBlob, id)| == 0;
      if gone {
        assert (blobs - {id}).Keys == blobs.Keys - {id};
        RemoveBlob(id);
      }
    }

    method PruneReferences(now: Time) returns (removed: nat)
      requires Valid()
      modifies this`references, this`byBlob, this`disk, this`history
      ensures Valid() && old(history) <= history
      ensures references == Unexpired(old(references), now)
      ensures removed == |old(references)| - |references|
    {
      hide FileBlobStore.Valid;
      removed := 0;
      var rest := references.Keys;
      ghost var was := references;
      while rest != {}
        invariant Valid() && old(history) <= history && rest <= references.Keys <= was.Keys
        invariant forall f | f in references :: references[f] == was[f]
        invariant forall f | f in was && f !in rest :: f in references <==> was[f].expiresAt > now
        invariant removed == |was| - |references|
        decreases |rest|
      {
        var f :| f in rest;
        rest := rest - {f};
        var gone := RemoveIfExpired(f, now);
        if gone { removed := removed + 1; }
      }
      assert references == Unexpired(was, now);
    }

    method PruneBlobs(now: Time) returns (removed: nat)
      requires Valid()
      modifies this`blobs, this`byBlob, this`disk, this`history
      ensures Valid() && old(history) <= history
      ensures blobs == map id | id in old(blobs)
          && (old(blobs)[id].expiresAt > now || RefsTo(references, id) != {}) :: old(blobs)[id]
      ensures removed == |old(blobs)| - |blobs|
    {
      hide FileBlobStore.Valid;
      removed := 0;
      var rest := blobs.Keys;
      ghost var was, index := blobs, byBlob;
      while rest != {}
        invariant Valid() && old(history) <= history && rest <= blobs.Keys <= was.Keys && byBlob == index
        invariant forall id | id in blobs :: blobs[id] == was[id]
        invariant forall id | id in was && id !in rest ::
                    id in blobs <==> (was[id].expiresAt > now || RefsTo(references, id) != {})
        invariant removed == |was| - |blobs|
        decreases |rest|
      {
        var id :| id in rest;
        rest := rest - {id};
        var gone := RemoveIfUnused(id, now);
        if gone { removed := removed + 1; }
      }
    }

    // The declared size of every digest (lines 334-337).
    method DeclaredSizes() returns (declared: map<Digest, nat>)
      requires AliasesAgree(blobs)
      ensures declared == Declared(blobs)
    {
      declared := map[];
      var rest := blobs.Keys;
      while rest != {}
        invariant rest <= blobs.Keys
        invariant forall h | h in declared :: h in Digests(blobs) && declared[h] == Declared(blobs)[h]
        invariant forall id | id in blobs && id !in rest :: blobs[id].sha256 in declared
        decreases |rest|
      {
        var id :| id in rest;
        rest := rest - {id};
        DeclaredAt(blobs, id);
        declared := declared[blobs[id].sha256 := blobs[id].sizeBytes];
      }
      assert declared == Declared(blobs);
    }

    // ... and their sum (lines 338-341).
    method ReservedBytes() returns (declared: map<Digest, nat>, sum: nat)
      requires AliasesAgree(blobs)
      ensures declared == Declared(blobs) && sum == SumOf(declared)
    {
      declared := DeclaredSizes();
      sum := 0;
      var left := declared;
      while left != map[]
        invariant sum + SumOf(left) == SumOf(declared)
        decreases |left|
      {
        var h :| h in left;
        SumWithout(left, h);
        assert (left - {h}).Keys == left.Keys - {h};
        sum := sum + left[h];
        left := left - {h};
      }
    }

    // reserve (lines 298-372).
    method Reserve(r: Reservation, now: Time) returns (result: Result<Blob, BlobError>)
      requires Valid()
      modifies this`blobs, this`references, this`byBlob, this`disk, this`history
      ensures Valid() && old(history) <= history
      ensures
        var p := Pruned(old(Records()), now);
        match Refusal(w, p.blobs, r)
        case Some(e) => result == Err(e) && Records() == p
        case None =>
          if r.blobId in p.blobs then result == Ok(p.blobs[r.blobId]) && Records() == p
          else
            && result == Ok(NewBlob(r, now, w.limits.reservationTtl))
            && Records() == p.(blobs := p.blobs[r.blobId := NewBlob(r, now, w.limits.reservationTtl)])
      ensures result.Ok? ==>
                && r.blobId in blobs && blobs[r.blobId] == result.value
                && result.value.blobId == r.blobId && result.value.session == r.session
                && result.value.generation == r.generation && result.value.metadata == r.metadata
                && result.value.sizeBytes == r.sizeBytes && result.value.sha256 == r.sha256
                && (r.blobId !in old(blobs) ==>
                      && result.value.state.Reserved? && result.value.uploadKey.None? && result.value.revision == 0
                      && result.value.createdAt == now && result.value.expiresAt == now + w.limits.reservationTtl)
    {
      var _ := Prune(now);
      if r.sizeBytes > w.limits.maxBlobBytes { return Err(TooLarge); }
      if r.blobId in blobs {
        return if SameReservation(blobs[r.blobId], r) then Ok(blobs[r.blobId]) else Err(ReservationConflict);
      }
      if exists id | id in blobs :: blobs[id].sha256 == r.sha256 && blobs[id].sizeBytes != r.sizeBytes {
        return Err(ReservationConflict);
      }
      result := ReserveNew(r, now);
    }

    method ReserveNew(r: Reservation, now: Time) returns (result: Result<Blob, BlobError>)
      requires Valid() && r.blobId !in blobs && r.sizeBytes <= w.limits.maxBlobBytes
      requires forall id | id in blobs && blobs[id].sha256 == r.sha256 :: blobs[id].sizeBytes == r.sizeBytes
      modifies this`blobs, this`disk, this`history
      ensures Valid() && old(history) <= history
      ensures
        match Refusal(w, old(blobs), r)
        case Some(e) => result == Err(e) && blobs == old(blobs)
        case None =>
          && result == Ok(NewBlob(r, now, w.limits.reservationTtl))
          && blobs == old(blobs)[r.blobId := NewBlob(r, now, w.limits.reservationTtl)]
    {
      if |blobs| >= w.limits.maxBlobs { return Err(CountQuota); }
      var perSession := set id | id in blobs && blobs[id].session == r.session;
      assert perSession == OfSession(blobs, r.session);
      if |perSession| >= w.limits.maxBlobsPerSession { return Err(SessionQuota); }
      var declared, reserved := ReservedBytes();
      var additional := if r.sha256 in declared then 0 else r.sizeBytes;
      if reserved + additional > w.limits.maxTotalBytes { return Err(ByteQuota); }
      var b := NewBlob(r, now, w.limits.reservationTtl);
      ReservingKeeps(w, Records(), b);
      CommitReservation(b.blobId, b);
      result := Ok(b);
    }

    method CommitReservation(id: Id, b: Blob)
      requires Valid() && id !in blobs && b.blobId == id && b.state.Reserved?
      requires TableOk(w, Table(blobs[id := b], references))
      modifies this`blobs, this`disk, this`history
      ensures Valid() && old(history) <= history && blobs == old(blobs)[id := b]
    {
      hide FileBlobStore.Recorded, Inverse, TableOk, CrashOk, SettledDigests;
      ReservedSettlesNothing(blobs, b);
      ghost var t := Records();
      assert Table(blobs[id := b], references) == t.(blobs := t.blobs[id := b]);
      WriteManifest(b, t);
      StillClean(w, old(disk), t, disk, t.(blobs := t.blobs[id := b]));
      hide Clean;
      blobs := blobs[id := b];
      assert Records() == t.(blobs := t.blobs[id := b]);
    }

    // ---- uploadContent (lines 389-495) ----------------------------------------------------

    method SaveKey(id: Id, key: Id)
      requires Valid() && id in blobs && !Settled(blobs[id])
      modifies this`blobs, this`disk, this`history
      ensures Valid() && old(history) <= history
      ensures blobs == old(blobs)[id := old(blobs)[id].(uploadKey := Some(key))]
    {
      var b := blobs[id].(uploadKey := Some(key));
      hide FileBlobStore.Recorded, Inverse, TableOk, CrashOk, SettledDigests;
      CleanTable(w, disk, Records(), id);
      ReplacingKeeps(w, Records(), b);
      ReservedSettlesNothing(blobs, b);
      ghost var t := Records();
      WriteManifest(b, t);
      StillClean(w, old(disk), t, disk, t.(blobs := t.blobs[id := b]));
      hide Clean;
      blobs := blobs[id := b];
      assert Records() == t.(blobs := t.blobs[id := b]);
    }

    // A temporary file among the objects takes the content.
    method ReceiveContent(b: Blob, chunks: seq<Content>, broken: bool)
      returns (content: Content, failure: Option<BlobError>)
      requires Valid()
      modifies this`disk, this`history
      ensures Midway() && old(history) <= history
      ensures failure == ContentRefusal(w, b, chunks, broken)
      ensures failure.None? ==> Holds(w, content, b.sha256, b.sizeBytes)
      ensures if failure.Some? then Valid()
          else Clean(w, disk.(litter := multiset{}), Records()) && disk.litter == multiset{AmongObjects}
    {
      LitterKeeps(w, disk, Records(), multiset{AmongObjects});
      Touch(disk.(litter := multiset{AmongObjects}), Records());
      content, failure := Receive(w, b, chunks, broken);
      if failure.Some? {
        LitterKeeps(w, disk, Records(), multiset{});
        Touch(disk.(litter := multiset{}), Records());
      }
    }

    // The temporary file becomes the digest's object, unless an alias brought it before.
    method PlaceObject(id: Id, content: Content)
      requires Midway() && disk.litter == multiset{AmongObjects} && Clean(w, disk.(litter := multiset{}), Records())
      requires id in blobs && Holds(w, content, blobs[id].sha256, blobs[id].sizeBytes)
      modifies this`disk, this`history
      ensures Midway() && old(history) <= history && disk.litter == multiset{}
      ensures disk == old(disk).(objects := disk.objects, litter := multiset{})
      ensures disk.objects.Keys == old(disk).objects.Keys + {blobs[id].sha256}
      ensures Holds(w, disk.objects[blobs[id].sha256], blobs[id].sha256, blobs[id].sizeBytes)
    {
      hide FileBlobStore.Midway, Clean, Holds;
      if blobs[id].sha256 !in disk.objects { PlaceNew(blobs[id].sha256, content); } else { KeepObject(id); }
    }

    method PlaceNew(h: Digest, content: Content)
      requires Midway() && disk.litter == multiset{AmongObjects} && Clean(w, disk.(litter := multiset{}), Records())
      requires h !in disk.objects
      modifies this`disk, this`history
      ensures Midway() && old(history) <= history
      ensures disk == old(disk).(objects := old(disk).objects[h := content], litter := multiset{})
    {
      hide FileBlobStore.Recorded, Inverse, TableOk, CrashOk, Clean;
      CleanBounds(w, disk.(litter := multiset{}), Records());
      ObjectKeeps(w, disk, Records(), h, content);
      Touch(disk.(objects := disk.objects[h := content], litter := multiset{}), Records());
    }

    // An alias brought the object before: the temporary file goes.
    method KeepObject(id: Id)
      requires Midway() && disk.litter == multiset{AmongObjects} && Clean(w, disk.(litter := multiset{}), Records())
      requires id in blobs && blobs[id].sha256 in disk.objects
      modifies this`disk, this`history
      ensures Midway() && old(history) <= history && disk == old(disk).(litter := multiset{})
      ensures Holds(w, disk.objects[blobs[id].sha256], blobs[id].sha256, blobs[id].sizeBytes)
    {
      hide FileBlobStore.Recorded, Inverse, TableOk, CrashOk, Clean, Holds;
      AliasObject(w, disk.(litter := multiset{}), Records(), id);
      LitterKeeps(w, disk, Records(), multiset{});
      Touch(disk.(litter := multiset{}), Records());
    }

    // The object, then the manifest that names it (lines 473-492).
    method PlaceSettled(id: Id, content: Content, b: Blob)
      requires Midway() && disk.litter == multiset{AmongObjects} && Clean(w, disk.(litter := multiset{}), Records())
      requires id in blobs && Holds(w, content, blobs[id].sha256, blobs[id].sizeBytes)
      requires Replaces(Records(), b) && b.blobId == id && Settled(b)
      modifies this`disk, this`history
      ensures CrashOk(w, disk, Records().(blobs := blobs[id := b])) && Recorded() && old(history) <= history
      ensures disk == old(disk).(manifests := old(disk).manifests[id := b], objects := disk.objects,
          litter := multiset{})
      ensures disk.objects.Keys == old(disk).objects.Keys + {b.sha256}
    {
      hide FileBlobStore.Recorded, Inverse, TableOk, CrashOk, SettledDigests, Clean;
      CleanTable(w, disk.(litter := multiset{}), Records(), id);
      ReplacingKeeps(w, Records(), b);
      PlaceObject(id, content);
      WriteManifest(b, Records());
    }

    method SettleAs(id: Id, content: Content, b: Blob)
      requires Midway() && disk.litter == multiset{AmongObjects} && Clean(w, disk.(litter := multiset{}), Records())
      requires id in blobs && !Settled(blobs[id]) && Holds(w, content, blobs[id].sha256, blobs[id].sizeBytes)
      requires Replaces(Records(), b) && b.blobId == id && Settled(b)
      modifies this`blobs, this`disk, this`history
      ensures Valid() && old(history) <= history && blobs == old(blobs)[id := b]
    {
      hide FileBlobStore.Recorded, Inverse, CrashOk, SettledDigests, Clean, Holds;
      ghost var d, t := disk.(litter := multiset{}), Records();
      ghost var n := t.(blobs := blobs[id := b]);
      SettlingAddsDigest(blobs, b);
      PlaceSettled(id, content, b);
      OneMoreSettled(w, d, t, disk, n, b.sha256);
      blobs := blobs[id := b];
      assert Records() == n;
    }

    method SettleBlob(id: Id, content: Content, policy: Policy, now: Time)
      requires Midway() && disk.litter == multiset{AmongObjects} && Clean(w, disk.(litter := multiset{}), Records())
      requires id in blobs && !Settled(blobs[id]) && Holds(w, content, blobs[id].sha256, blobs[id].sizeBytes)
      modifies this`blobs, this`disk, this`history
      ensures Valid() && old(history) <= history
      ensures blobs == old(blobs)[id := SettledAs(old(blobs)[id], policy, now, w.limits.blobTtl)]
    {
      hide FileBlobStore.Recorded, Inverse, CrashOk, SettledDigests, Clean, Holds;
      CleanTable(w, disk.(litter := multiset{}), Records(), id);
      SettleAs(id, content, SettledAs(blobs[id], policy, now, w.limits.blobTtl));
    }

    method UploadReserved(id: Id, key: Id, chunks: seq<Content>, broken: bool, policy: Policy, now: Time)
      returns (result: Result<Blob, BlobError>)
      requires Valid() && id in blobs && !Settled(blobs[id])
      modifies this`blobs, this`disk, this`history
      ensures Valid() && old(history) <= history
      ensures
        var keyed := old(blobs)[id].(uploadKey := Some(key));
        match ContentRefusal(w, old(blobs)[id], chunks, broken)
        case Some(e) => result == Err(e) && blobs == old(blobs)[id := keyed]
        case None =>
          && result == Ok(SettledAs(keyed, policy, now, w.limits.blobTtl))
          && blobs == old(blobs)[id := SettledAs(keyed, policy, now, w.limits.blobTtl)]
    {
      hide ContentRefusal, SettledAs, FileBlobStore.Valid, FileBlobStore.Midway, Clean, Holds;
      var b := blobs[id];
      SaveKey(id, key);
      var content, failure := ReceiveContent(b, chunks, broken);
      if failure.None? { assert Clean(w, disk.(litter := multiset{}), Records()); }
      if failure.Some? { return Err(failure.value); }
      SettleBlob(id, content, policy, now);
      result := Ok(blobs[id]);
    }

    method UploadContent(id: Id, session: Id, generation: nat, key: Id, chunks: seq<Content>, broken: bool,
        policy: Policy,
                         now: Time)
      returns (result: Result<Blob, BlobError>)
      requires Valid()
      modifies this`blobs, this`references, this`byBlob, this`disk, this`history
      ensures Valid() && old(history) <= history
      ensures
        var p := Pruned(old(Records()), now);
        match UploadRefusal(p.blobs, id, session, generation, key, now)
        case Some(e) => result == Err(e) && Records() == p
        case None =>
          var b := p.blobs[id];
          var keyed := b.(uploadKey := Some(key));
          if Settled(b) then result == Ok(b) && Records() == p
          else
            match ContentRefusal(w, b, chunks, broken)
            case Some(e) => result == Err(e) && Records() == p.(blobs := p.blobs[id := keyed])
            case None =>
              && result == Ok(SettledAs(keyed, policy, now, w.limits.blobTtl))
              && Records() == p.(blobs := p.blobs[id := SettledAs(keyed, policy, now, w.limits.blobTtl)])
      ensures result.Ok? ==> id in old(blobs) && id in blobs && blobs[id] == result.value
                             && old(blobs)[id].session == session && old(blobs)[id].generation == generation
                             && Taken(old(blobs)[id], result.value, key, policy, now, w.limits.blobTtl)
    {
      hide ContentRefusal, SettledAs, FileBlobStore.Valid, Taken;
      SettlingIsTaken(policy, now, w.limits.blobTtl);
      var _ := Prune(now);
      if id !in blobs { return Err(BlobNotFound); }
      if blobs[id].session != session || blobs[id].generation != generation { return Err(WrongSession); }
      if blobs[id].uploadKey.Some? && blobs[id].uploadKey.value != key { return Err(KeyConflict); }
      if Settled(blobs[id]) {
        return if blobs[id].uploadKey != Some(key) then Err(KeyConflict) else Ok(blobs[id]);
      }
      if blobs[id].expiresAt <= now { return Err(BlobExpired); }
      result := UploadReserved(id, key, chunks, broken, policy, now);
    }

    // ---- materialize (lines 523-596) --------------------------------------------------------

    method LinkContent(s: Slot, h: Digest)
      requires Valid() && s.fileId !in references && h in disk.objects
      modifies this`disk, this`history
      ensures Midway() && old(history) <= history
      ensures disk == old(disk).(inboxes := old(disk).inboxes + {(s.session, s.generation)},
                                 bin := old(disk).bin[s := old(disk).objects[h]])
    {
      CleanBounds(w, disk, Records());
      NoFileYet(references, disk.json, s);
      InboxKeeps(w, disk, Records(), (s.session, s.generation));
      Touch(disk.(inboxes := disk.inboxes + {(s.session, s.generation)}), Records());
      BinKeeps(w, disk, Records(), s, disk.objects[h]);
      Touch(disk.(bin := disk.bin[s := disk.objects[h]]), Records());
    }

    method WriteReference(r: Reference)
      requires Midway() && disk.litter == multiset{} && r.fileId !in references
      requires TableOk(w, Table(blobs, references[r.fileId := r]))
      requires SlotOf(r) in disk.bin && Holds(w, disk.bin[SlotOf(r)], r.sha256, r.sizeBytes)
      requires (r.session, r.generation) in disk.inboxes
      modifies this`references, this`byBlob, this`disk, this`history
      ensures Midway() && old(history) <= history
      ensures references == old(references)[r.fileId := r]
      ensures disk == old(disk).(json := old(disk).json[SlotOf(r) := r])
    {
      hide CrashOk, TableOk, FileBlobStore.Recorded, Inverse;
      LitterKeeps(w, disk, Records(), multiset{InInbox(r.session, r.generation)});
      Touch(disk.(litter := multiset{InInbox(r.session, r.generation)}), Records());
      JsonKeeps(w, disk, Records(), r);
      IndexingKeeps(references, byBlob, r);
      Touch(disk.(json := disk.json[SlotOf(r) := r], litter := multiset{}), Table(blobs, references[r.fileId := r]));
      references := references[r.fileId := r];
      byBlob := byBlob[r.blobId := UsesIn(byBlob, r.blobId) + {r.fileId}];
    }

    method Refer(r: Reference)
      requires Valid() && AdmitsReference(w, Records(), r)
      modifies this`references, this`byBlob, this`disk, this`history
      ensures Valid() && old(history) <= history
      ensures references == old(references)[r.fileId := r]
    {
      assert ObjectThere(w, disk, r.blobId);
      LinkContent(SlotOf(r), r.sha256);
      ReferringKeeps(w, Records(), r);
      WriteReference(r);
    }

    method Materialize(u: UploadInput, now: Time) returns (result: Result<Reference, BlobError>)
      requires Valid()
      modifies this`blobs, this`references, this`byBlob, this`disk, this`history
      ensures Valid() && old(history) <= history
      ensures
        var p := Pruned(old(Records()), now);
        match ReferenceRefusal(w, p, u, now)
        case Some(e) => result == Err(e) && Records() == p
        case None =>
          if u.fileId in p.refs then result == Ok(p.refs[u.fileId]) && Records() == p
          else
            && u.blobId in p.blobs
            && result == Ok(NewReference(u, p.blobs[u.blobId], now, w.limits.referenceTtl))
            && Records() == p.(refs := p.refs[u.fileId := NewReference(u, p.blobs[u.blobId], now,
                w.limits.referenceTtl)])
      ensures result.Ok? ==>
                && u.fileId in references && references[u.fileId] == result.value
                && result.value.fileId == u.fileId && result.value.session == u.session
                && result.value.generation == u.generation && result.value.blobId == u.blobId
                && (u.fileId !in old(references) ==>
                      && u.blobId in old(blobs) && old(blobs)[u.blobId].expiresAt > now
                      && old(blobs)[u.blobId].state.Available?
                      && result.value.metadata == old(blobs)[u.blobId].metadata
                      && result.value.sizeBytes == old(blobs)[u.blobId].sizeBytes
                      && result.value.sha256 == old(blobs)[u.blobId].sha256
                      && result.value.createdAt == now && result.value.expiresAt == now + w.limits.referenceTtl)
    {
      var _ := Prune(now);
      if u.fileId in references {
        return if SameUpload(references[u.fileId], u) then Ok(references[u.fileId]) else Err(ReferenceConflict);
      }
      if u.blobId !in blobs { return Err(BlobNotFound); }
      var b := blobs[u.blobId];
      if b.session != u.session || b.generation != u.generation { return Err(WrongSession); }
      if b.state.Quarantined? { return Err(QuarantinedBlob); }
      if !b.state.Available? { return Err(NotReady); }
      if b.expiresAt <= now { return Err(BlobExpired); }
      if |references| >= w.limits.maxReferences { return Err(ReferenceQuota); }
      UsesAreRefs(references, byBlob, u.blobId);
      if |UsesIn(byBlob, u.blobId)| >= w.limits.maxReferencesPerBlob { return Err(ReferenceQuota); }
      var r := NewReference(u, b, now, w.limits.referenceTtl);
      Refer(r);
      result := Ok(r);
    }

    // ---- Deleting (lines 632-684) -------------------------------------------------------------

    method DeleteBlob(id: Id, session: Id, generation: nat) returns (result: Result<bool, BlobError>)
      requires Valid()
      modifies this`blobs, this`byBlob, this`disk, this`history
      ensures Valid() && old(history) <= history
      ensures result ==
        if id !in old(blobs) then Ok(false)
        else if old(blobs)[id].session != session || old(blobs)[id].generation != generation then Err(WrongSession)
        else if RefsTo(references, id) != {} then Err(BlobInUse)
        else Ok(true)
      ensures blobs == if result == Ok(true) then old(blobs) - {id} else old(blobs)
    {
      if id !in blobs { return Ok(false); }
      if blobs[id].session != session || blobs[id].generation != generation { return Err(WrongSession); }
      UsesAreRefs(references, byBlob, id);
      if |UsesIn(byBlob, id)| > 0 { return Err(BlobInUse); }
      RemoveBlob(id);
      result := Ok(true);
    }

    method DeleteReference(f: Id, session: Id, generation: nat, now: Time) returns (result: Result<bool, BlobError>)
      requires Valid()
      modifies this`blobs, this`references, this`byBlob, this`disk, this`history
      ensures Valid() && old(history) <= history
      ensures result ==
        if f !in old(references) then Ok(false)
        else if old(references)[f].session != session || old(references)[f].generation != generation
            then Err(WrongSession)
        else Ok(true)
      ensures Records() ==
        if result == Ok(true) then Pruned(old(Records()).(refs := old(references) - {f}), now) else old(Records())
    {
      if f !in references { return Ok(false); }
      if references[f].session != session || references[f].generation != generation { return Err(WrongSession); }
      RemoveReference(f);
      var _ := Prune(now);
      result := Ok(true);
    }

    method DeleteGeneration(session: Id, generation: nat) returns (removed: nat)
      requires Valid()
      modifies this`blobs, this`references, this`byBlob, this`disk, this`history
      ensures Valid() && old(history) <= history
      ensures references == OutsideRefs(old(references), session, generation)
      ensures blobs == OutsideBlobs(old(blobs), session, generation)
      ensures removed == |old(references)| - |references| + |old(blobs)| - |blobs|
    {
      var gone := DeleteGenerationReferences(session, generation);
      var more := DeleteGenerationBlobs(session, generation);
      removed := gone + more;
    }

    method RemoveReferenceIn(f: Id, session: Id, generation: nat) returns (gone: bool)
      requires Valid() && f in references
      modifies this`references, this`byBlob, this`disk, this`history
      ensures Valid() && old(history) <= history
      ensures gone == (old(references)[f].session == session && old(references)[f].generation == generation)
      ensures references == if gone then old(references) - {f} else old(references)
      ensures |references| == |old(references)| - (if gone then 1 else 0)
    {
      gone := references[f].session == session && references[f].generation == generation;
      if gone {
        assert (references - {f}).Keys == references.Keys - {f};
        RemoveReference(f);
      }
    }

    method DeleteGenerationReferences(session: Id, generation: nat) returns (removed: nat)
      requires Valid()
      modifies this`references, this`byBlob, this`disk, this`history
      ensures Valid() && old(history) <= history
      ensures references == OutsideRefs(old(references), session, generation)
      ensures removed == |old(references)| - |references|
    {
      hide FileBlobStore.Valid;
      removed := 0;
      var rest := references.Keys;
      ghost var was := references;
      while rest != {}
        invariant Valid() && old(history) <= history && rest <= references.Keys <= was.Keys
        invariant forall f | f in references :: references[f] == was[f]
        invariant forall f | f in was && f !in rest ::
                    f in references <==> !(was[f].session == session && was[f].generation == generation)
        invariant removed == |was| - |references|
        decreases |rest|
      {
        var f :| f in rest;
        rest := rest - {f};
        var gone := RemoveReferenceIn(f, session, generation);
        if gone { removed := removed + 1; }
      }
      assert references == OutsideRefs(was, session, generation);
    }

    method RemoveBlobIn(id: Id, session: Id, generation: nat) returns (gone: bool)
      requires Valid() && id in blobs && NoneOf(references, session, generation)
      modifies this`blobs, this`byBlob, this`disk, this`history
      ensures Valid() && old(history) <= history
      ensures gone == (old(blobs)[id].session == session && old(blobs)[id].generation == generation)
      ensures blobs == if gone then old(blobs) - {id} else old(blobs)
      ensures |blobs| == |old(blobs)| - (if gone then 1 else 0)
    {
      UsesAreRefs(references, byBlob, id);
      gone := blobs[id].session == session && blobs[id].generation == generation;
      if gone {
        forall f | f in references ensures references[f].blobId != id { assert ReferenceFits(Records(), f); }
        assert RefsTo(references, id) == {};
      }
      gone := gone && |UsesIn(byBlob, id)| == 0;
      if gone {
        assert (blobs - {id}).Keys == blobs.Keys - {id};
        RemoveBlob(id);
      }
    }

    method DeleteGenerationBlobs(session: Id, generation: nat) returns (removed: nat)
      requires Valid() && NoneOf(references, session, generation)
      modifies this`blobs, this`byBlob, this`disk, this`history
      ensures Valid() && old(history) <= history
      ensures blobs == OutsideBlobs(old(blobs), session, generation)
      ensures removed == |old(blobs)| - |blobs|
    {
      hide FileBlobStore.Valid;
      removed := 0;
      var rest := blobs.Keys;
      ghost var was := blobs;
      while rest != {}
        invariant Valid() && old(history) <= history && rest <= blobs.Keys <= was.Keys
        invariant forall id | id in blobs :: blobs[id] == was[id]
        invariant forall id | id in was && id !in rest ::
                    id in blobs <==> !(was[id].session == session && was[id].generation == generation)
        invariant removed == |was| - |blobs|
        decreases |rest|
      {
        var id :| id in rest;
        rest := rest - {id};
        var gone := RemoveBlobIn(id, session, generation);
        if gone { removed := removed + 1; }
      }
    }

    // ---- Recovery (lines 691-891) ----------------------------------------------------------------

    // These files are a crash of records `t`, and so were all before.
    ghost predicate Recovering(t: Table)
      reads this`disk, this`history
    {
      CrashOk(w, disk, t) && Recorded()
    }

    // One file removed while loading, whatever the files are.
    method Discard(next: Disk, ghost t: Table)
      requires (CrashOk(w, disk, t) ==> CrashOk(w, next, t)) && disk.inboxes <= next.inboxes
      modifies this`disk, this`history
      ensures disk == next && old(history) <= history
      ensures old(Recovering(t)) ==> Recovering(t)
    {
      hide InboxesGrow;
      if CrashOk(w, next, t) && AllCrashOk(w, history) { OneMorePoint(w, history, Point(next, t)); }
      if Recorded() { OneMoreGrows(first, history, Point(next, t)); }
      disk := next;
      history := history + [Point(next, t)];
    }

    method DiscardLitter(p: Place, ghost t: Table)
      modifies this`disk, this`history
      ensures disk == old(disk).(litter := Without(old(disk).litter, p)) && old(history) <= history
      ensures old(Recovering(t)) ==> Recovering(t)
    {
      hide CrashOk, FileBlobStore.Recorded;
      while p in disk.litter
        invariant disk == old(disk).(litter := old(disk).litter[p := disk.litter[p]]) && old(history) <= history
        invariant old(Recovering(t)) ==> Recovering(t)
        decreases disk.litter[p]
      {
        var fewer := disk.litter - multiset{p};
        LitterGoes(w, disk, t, p);
        Discard(disk.(litter := fewer), t);
      }
    }

    method LoadManifests(ghost t: Table) returns (ok: bool, scanned: nat)
      requires blobs == map[]
      modifies this`blobs, this`disk, this`history
      ensures old(history) <= history && (old(Recovering(t)) ==> Recovering(t))
      ensures ok <==> ManifestsAccepted(w, old(disk)) && SumOf(ManifestBytes(w, old(disk))) <= w.limits.maxRecoveryBytes
      ensures ok ==> blobs == disk.manifests && scanned == SumOf(ManifestBytes(w, old(disk)))
      ensures ok ==> disk == old(disk).(litter := Without(old(disk).litter, AmongBlobs))
    {
      scanned := 0;
      if |disk.manifests| + disk.litter[AmongBlobs] > w.limits.maxBlobs * 4 + 64 { return false, 0; }
      DiscardLitter(AmongBlobs, t);
      ok, scanned := ReadManifests();
      if ok && |blobs| > w.limits.maxBlobs { ok := false; }
      forall id | id in disk.manifests ensures ManifestReads(w, disk, id) <==> ManifestReads(w, old(disk), id) { }
    }

    method ReadManifest(id: Id) returns (ok: bool)
      requires id in disk.manifests
      ensures ok <==> ManifestReads(w, disk, id)
    {
      var b := disk.manifests[id];
      if w.blobRecordBytes(b) > w.limits.maxRecordBytes { return false; }
      ok := b.blobId == id && b.sizeBytes <= w.limits.maxBlobBytes && b.state.Quarantined? == b.quarantineCode.Some?;
    }

    method ReadManifests() returns (ok: bool, scanned: nat)
      requires blobs == map[]
      modifies this`blobs
      ensures ok <==> (forall id | id in disk.manifests :: ManifestReads(w, disk, id))
                      && SumOf(ManifestBytes(w, disk)) <= w.limits.maxRecoveryBytes
      ensures ok ==> blobs == disk.manifests && scanned == SumOf(ManifestBytes(w, disk))
    {
      hide Only, ManifestReads, SumOf;
      scanned := 0;
      var rest := disk.manifests.Keys;
      ghost var bytes := ManifestBytes(w, disk);
      OnlyAll(bytes, rest);
      while rest != {}
        invariant rest <= disk.manifests.Keys
        invariant forall id :: id in blobs <==> id in disk.manifests && id !in rest
        invariant forall id | id in blobs :: blobs[id] == disk.manifests[id] && ManifestReads(w, disk, id)
        invariant scanned + SumOf(Only(bytes, rest)) == SumOf(bytes) && scanned <= w.limits.maxRecoveryBytes
        decreases |rest|
      {
        var id :| id in rest;
        TakeOut(bytes, rest, id);
        rest := rest - {id};
        scanned := scanned + w.blobRecordBytes(disk.manifests[id]);
        if scanned > w.limits.maxRecoveryBytes { return false, scanned; }
        var readable := ReadManifest(id);
        if !readable { return false, scanned; }
        blobs := blobs[id := disk.manifests[id]];
      }
      assert blobs == disk.manifests;
      ok := true;
    }

    // One reference record (lines 849-880).
    method ReadReference(s: Slot) returns (ok: bool)
      requires s in disk.json
      ensures ok <==> ReferenceReads(w, disk, s)
    {
      var r := disk.json[s];
      if w.referenceRecordBytes(r) > w.limits.maxRecordBytes { return false; }
      if r.fileId != s.fileId || r.session != s.session || r.generation != s.generation { return false; }
      ok := s in disk.bin && |disk.bin[s]| == r.sizeBytes && w.hash(disk.bin[s]) == r.sha256;
    }

    method TakeReference(s: Slot, ghost done: map<Slot, Reference>) returns (ok: bool)
      requires s in disk.json && s !in done && SubmapOf(done, disk.json)
      requires Mirrors(references, done) && Inverse(references, byBlob)
      modifies this`references, this`byBlob
      ensures ok ==> Mirrors(references, done[s := disk.json[s]]) && Inverse(references, byBlob)
      ensures ok ==> ReferenceReads(w, disk, s) && |references| <= w.limits.maxReferences
      ensures !ok ==> !ReferenceReads(w, disk, s) || !FilesDistinct(disk.json) || |disk.json| > w.limits.maxReferences
    {
      hide Mirrors, Inverse, FilesDistinct;
      var readable := ReadReference(s);
      if !readable { return false; }
      var r := disk.json[s];
      if r.fileId in references {
        AlreadyLoaded(references, done, disk.json, s);
        return false;
      }
      MirrorsOneMore(references, done, r);
      IndexingKeeps(references, byBlob, r);
      references := references[r.fileId := r];
      byBlob := byBlob[r.blobId := UsesIn(byBlob, r.blobId) + {r.fileId}];
      AsManyFiles(references, done[s := r]);
      SubsetSize((done[s := r]).Keys, disk.json.Keys);
      ok := |references| <= w.limits.maxReferences;
    }

    method ReadReferences(before: nat) returns (ok: bool, scanned: nat)
      requires references == map[] && byBlob == map[] && before <= w.limits.maxRecoveryBytes
      modifies this`references, this`byBlob
      ensures ok <==> (forall s | s in disk.json :: ReferenceReads(w, disk, s)) && FilesDistinct(disk.json)
                      && |disk.json| <= w.limits.maxReferences
                      && before + SumOf(JsonBytes(w, disk)) <= w.limits.maxRecoveryBytes
      ensures ok ==> Mirrors(references, disk.json) && Inverse(references, byBlob)
      ensures ok ==> scanned == before + SumOf(JsonBytes(w, disk))
    {
      hide Only, ReferenceReads, SumOf, FilesDistinct, Mirrors, Inverse;
      NothingMirrored();
      scanned := before;
      var rest := disk.json.Keys;
      ghost var bytes, done := JsonBytes(w, disk), map[];
      OnlyAll(bytes, rest);
      while rest != {}
        invariant rest <= disk.json.Keys && SubmapOf(done, disk.json)
        invariant forall s :: s in done <==> s in disk.json && s !in rest
        invariant forall s | s in done :: ReferenceReads(w, disk, s)
        invariant Mirrors(references, done) && Inverse(references, byBlob)
        invariant |references| <= w.limits.maxReferences
        invariant scanned + SumOf(Only(bytes, rest)) == before + SumOf(bytes) && scanned <= w.limits.maxRecoveryBytes
        decreases |rest|
      {
        var s :| s in rest;
        TakeOut(bytes, rest, s);
        rest := rest - {s};
        scanned := scanned + w.referenceRecordBytes(disk.json[s]);
        if scanned > w.limits.maxRecoveryBytes { return false, scanned; }
        var taken := TakeReference(s, done);
        if !taken { return false, scanned; }
        done := done[s := disk.json[s]];
      }
      assert done == disk.json;
      AsManyFiles(references, done);
      MirrorsDistinct(references, done);
      ok := true;
    }

    method DiscardBin(s: Slot, ghost t: Table)
      requires s !in disk.json
      modifies this`disk, this`history
      ensures disk == old(disk).(bin := old(disk).bin - {s}) && old(history) <= history
      ensures old(Recovering(t)) ==> Recovering(t)
    {
      if CrashOk(w, disk, t) { DroppingBinKeeps(w, disk, t, s); }
      Discard(disk.(bin := disk.bin - {s}), t);
    }

    // Contents without a record, one by one (lines 881-884).
    method DiscardOrphanBins(ghost t: Table)
      modifies this`disk, this`history
      ensures disk == old(disk).(bin := Swept(old(disk)).bin) && old(history) <= history
      ensures old(Recovering(t)) ==> Recovering(t)
    {
      hide FileBlobStore.Recovering;
      var rest := disk.bin.Keys - disk.json.Keys;
      assert OrphansLeft(disk, disk, rest);
      hide OrphansLeft, SettledDigests;
      while rest != {}
        invariant OrphansLeft(old(disk), disk, rest) && old(history) <= history
        invariant old(Recovering(t)) ==> Recovering(t)
        decreases |rest|
      {
        var s :| s in rest;
        OrphanGoes(old(disk), disk, rest, s);
        rest := rest - {s};
        DiscardBin(s, t);
      }
      NoOrphanLeft(old(disk), disk);
    }

    method DiscardInboxLitter(ghost t: Table)
      modifies this`disk, this`history
      ensures disk == old(disk).(litter := disk.litter) && old(history) <= history
      ensures forall p: Place :: disk.litter[p] == if p.InInbox? then 0 else old(disk).litter[p]
      ensures old(Recovering(t)) ==> Recovering(t)
    {
      hide CrashOk, FileBlobStore.Recorded;
      while exists p | p in disk.litter :: p.InInbox?
        invariant disk == old(disk).(litter := disk.litter) && old(history) <= history
        invariant forall p: Place :: disk.litter[p] == old(disk).litter[p] || (p.InInbox? && disk.litter[p] == 0)
        invariant old(Recovering(t)) ==> Recovering(t)
        decreases |disk.litter|
      {
        var p :| p in disk.litter && p.InInbox?;
        ghost var was := disk.litter;
        DiscardLitter(p, t);
        LitterShrinks(was, p);
      }
    }

    method LoadReferences(before: nat, ghost t: Table) returns (ok: bool, scanned: nat)
      requires references == map[] && byBlob == map[] && before <= w.limits.maxRecoveryBytes
      modifies this`references, this`byBlob, this`disk, this`history
      ensures old(history) <= history && (old(Recovering(t)) ==> Recovering(t))
      ensures ok <==> ReferencesAccepted(w, old(disk))
                      && before + SumOf(JsonBytes(w, old(disk))) <= w.limits.maxRecoveryBytes
      ensures ok ==> Mirrors(references, disk.json) && Inverse(references, byBlob)
      ensures ok ==> scanned == before + SumOf(JsonBytes(w, old(disk)))
      ensures ok ==> disk == old(disk).(bin := Swept(old(disk)).bin, litter := disk.litter)
      ensures ok ==> forall p: Place :: disk.litter[p] == if p.InInbox? then 0 else old(disk).litter[p]
    {
      hide CrashOk, FileBlobStore.Recorded, Mirrors, Inverse, FilesDistinct, ReferenceReads, SumOf;
      if |Sessions(disk.inboxes)| > w.limits.maxReferences { return false, before; }
      if exists i | i in disk.inboxes :: EntriesIn(disk, i) > w.limits.maxReferences * 3 + 32 {
        ghost var i :| i in disk.inboxes && EntriesIn(disk, i) > w.limits.maxReferences * 3 + 32;
        assert !InboxFits(w, disk, i);
        return false, before;
      }
      ok, scanned := ReadReferences(before);
      if ok {
        DiscardOrphanBins(t);
        DiscardInboxLitter(t);
      }
    }

    // Every reference names a loaded blob, and no blob has too many (lines 734-741).
    method CheckUses() returns (ok: bool)
      requires Mirrors(references, disk.json) && Inverse(references, byBlob) && blobs == disk.manifests
      ensures ok <==> UsesAccepted(w, disk)
    {
      ok := !(exists b | b in byBlob :: b !in blobs || |byBlob[b]| > w.limits.maxReferencesPerBlob);
      UsesMatch(w, disk, references, byBlob);
    }

    // The size of every settled digest (lines 743-754).
    method ExpectedObjects() returns (ok: bool, expected: map<Digest, nat>)
      ensures ok <==> SettledAgree(blobs)
      ensures ok ==> expected == Expected(blobs)
    {
      expected := map[];
      ok := !(exists a, b | a in blobs && b in blobs ::
                Settled(blobs[a]) && Settled(blobs[b]) && blobs[a].sha256 == blobs[b].sha256
                && blobs[a].sizeBytes != blobs[b].sizeBytes);
      assert ok <==> SettledAgree(blobs) by {
        if !ok {
          var a, b :| a in blobs && b in blobs && Settled(blobs[a]) && Settled(blobs[b])
                      && blobs[a].sha256 == blobs[b].sha256 && blobs[a].sizeBytes != blobs[b].sizeBytes;
          assert SameDigest(blobs, a, b);
        }
      }
      if !ok { return; }
      var rest := blobs.Keys;
      while rest != {}
        invariant rest <= blobs.Keys
        invariant forall h | h in expected :: h in Expected(blobs) && expected[h] == Expected(blobs)[h]
        invariant forall id | id in blobs && id !in rest && Settled(blobs[id]) :: blobs[id].sha256 in expected
        decreases |rest|
      {
        var id :| id in rest;
        rest := rest - {id};
        if Settled(blobs[id]) {
          ExpectedAt(blobs, id);
          expected := expected[blobs[id].sha256 := blobs[id].sizeBytes];
        }
      }
      assert expected == Expected(blobs);
    }

    method DiscardObject(h: Digest, ghost t: Table)
      requires h !in SettledDigests(disk.manifests)
      modifies this`disk, this`history
      ensures disk == old(disk).(objects := old(disk).objects - {h}) && old(history) <= history
      ensures old(Recovering(t)) ==> Recovering(t)
    {
      if CrashOk(w, disk, t) { DroppingObjectKeeps(w, disk, t, h); }
      Discard(disk.(objects := disk.objects - {h}), t);
    }

    // The objects, one by one (lines 763-791): unexpected ones go, the others must be whole.
    method ReadObjects(expected: map<Digest, nat>, before: nat, ghost t: Table)
      returns (ok: bool, scanned: nat, recovered: set<Digest>)
      requires expected.Keys == SettledDigests(disk.manifests)
      requires before <= w.limits.maxRecoveryBytes
      modifies this`disk, this`history
      ensures old(history) <= history && (old(Recovering(t)) ==> Recovering(t))
      ensures ok <==> ObjectsWhole(w, old(disk), expected)
                      && before + SumOf(Only(expected, old(disk).objects.Keys)) <= w.limits.maxRecoveryBytes
      ensures ok ==> recovered == expected.Keys * disk.objects.Keys
      ensures ok ==> scanned == before + SumOf(Only(expected, old(disk).objects.Keys))
      ensures ok ==> disk == old(disk).(objects := Swept(old(disk)).objects)
    {
      hide FileBlobStore.Recovering, SumOf, Only, SettledDigests, Holds, ObjectsWhole, Swept;
      scanned, recovered := before, {};
      var rest := disk.objects.Keys;
      while rest != {}
        invariant rest <= disk.objects.Keys && disk == old(disk).(objects := disk.objects)
        invariant SubmapOf(disk.objects, old(disk).objects)
        invariant forall h | h in old(disk).objects :: h in disk.objects <==> h in rest || h in expected
        invariant forall h :: h in recovered <==> h in expected && h in disk.objects && h !in rest
        invariant forall h | h in recovered :: Holds(w, disk.objects[h], h, expected[h])
        invariant scanned + SumOf(Only(expected, rest)) == before + SumOf(Only(expected, old(disk).objects.Keys))
        invariant scanned <= w.limits.maxRecoveryBytes
        invariant old(history) <= history && (old(Recovering(t)) ==> Recovering(t))
        decreases |rest|
      {
        var h :| h in rest;
        if h !in expected {
          SkipOut(expected, rest, h);
          DiscardObject(h, t);
        } else {
          TakeOut(expected, rest, h);
          if !Holds(w, disk.objects[h], h, expected[h]) {
            NotWhole(w, old(disk), expected, h);
            return false, scanned, recovered;
          }
          scanned := scanned + expected[h];
          if scanned > w.limits.maxRecoveryBytes { return false, scanned, recovered; }
          recovered := recovered + {h};
        }
        rest := rest - {h};
      }
      OnlyNone(expected);
      AllWhole(w, old(disk), expected);
      SweptObjects(old(disk), disk.objects);
      assert recovered == expected.Keys * disk.objects.Keys;
      ok := true;
    }

    method LoadObjects(before: nat, ghost t: Table) returns (ok: bool, scanned: nat)
      requires blobs == disk.manifests && before <= w.limits.maxRecoveryBytes
      modifies this`disk, this`history
      ensures old(history) <= history && (old(Recovering(t)) ==> Recovering(t))
      ensures ok <==> ObjectsAccepted(w, old(disk)) && before + SumOf(Expected(blobs)) <= w.limits.maxRecoveryBytes
      ensures ok ==> disk == old(disk).(objects := Swept(old(disk)).objects, litter := Without(old(disk).litter,
          AmongObjects))
      ensures ok ==> scanned == before + SumOf(Expected(blobs))
    {
      hide CrashOk, FileBlobStore.Recorded, SumOf, Only;
      ghost var d := disk;
      scanned := before;
      var expected;
      ok, expected := ExpectedObjects();
      if !ok { return; }
      if |disk.objects| + disk.litter[AmongObjects] > w.limits.maxBlobs * 2 + 64 { return false, before; }
      DiscardLitter(AmongObjects, t);
      var recovered;
      ok, scanned, recovered := ReadObjects(expected, before, t);
      ObjectsComplete(w, d, expected);
      if ok && !(expected.Keys <= recovered) { ok := false; }
    }

    // The declared sizes (lines 798-815).
    method CheckDeclared() returns (ok: bool)
      ensures ok <==> AliasesAgree(blobs) && SumOf(Declared(blobs)) <= w.limits.maxTotalBytes
    {
      if exists a, b | a in blobs && b in blobs ::
          blobs[a].sha256 == blobs[b].sha256 && blobs[a].sizeBytes != blobs[b].sizeBytes {
        ghost var a, b :| a in blobs && b in blobs && blobs[a].sha256 == blobs[b].sha256
                          && blobs[a].sizeBytes != blobs[b].sizeBytes;
        assert SameDigest(blobs, a, b);
        return false;
      }
      var _, sum := ReservedBytes();
      ok := sum <= w.limits.maxTotalBytes;
    }

    // #load up to its prune: the files are accepted exactly when `Accepts` says so, and
    // then memory holds their records and exactly the orphans are gone.
    method Scan(ghost t: Table) returns (ok: bool)
      requires Records() == Table(map[], map[]) && byBlob == map[]
      modifies this`blobs, this`references, this`byBlob, this`disk, this`history
      ensures old(history) <= history && (old(Recovering(t)) ==> Recovering(t))
      ensures ok <==> Accepts(w, old(disk))
      ensures ok ==> blobs == disk.manifests && Mirrors(references, disk.json) && Inverse(references, byBlob)
      ensures ok ==> disk == Swept(old(disk))
    {
      hide CrashOk, FileBlobStore.Recorded, SumOf, ManifestsAccepted, ReferencesAccepted, UsesAccepted,
          ObjectsAccepted, Mirrors, Inverse;
      ghost var d := disk;
      var scanned;
      ok, scanned := LoadManifests(t);
      if !ok { return; }
      OnlyThatLitter(w, d, disk);
      ok, scanned := LoadReferences(scanned, t);
      if !ok { return; }
      ok := CheckUses();
      SameUses(w, d, disk);
      if !ok { return; }
      SameObjects(w, d, disk);
      ok, scanned := LoadObjects(scanned, t);
      if !ok { return; }
      ok := CheckDeclared();
      NoLitterLeft(disk.litter);
    }

    // Loading the files a crash left: accepted exactly when the limits suffice, and
    // then every committed record is kept but for the expired ones.
    method Load(now: Time, ghost t: Table) returns (ok: bool)
      requires Records() == Table(map[], map[]) && byBlob == map[]
      requires Recovering(t)
      modifies this`blobs, this`references, this`byBlob, this`disk, this`history
      ensures old(history) <= history && AllCrashOk(w, history) && Recorded()
      ensures ok <==> Sufficient(w, old(disk))
      ensures ok ==> Valid() && Records() == Pruned(t, now)
    {
      hide Sufficient, Accepts, Swept;
      ghost var d := disk;
      CrashStatesAccepted(w, d, t);
      ok := Scan(t);
      if ok {
        SweptIsClean(w, d, t);
        MirrorsOnce(references, t.refs, disk.json);
        var _ := Prune(now);
      }
    }
  }

  // ---- A store that broke no limit and cannot start again ------------------------------------

  lemma SettledIsScanned(w: World, d: Disk, t: Table, id: Id)
    requires Clean(w, d, t) && id in t.blobs && Settled(t.blobs[id])
    ensures t.blobs[id].sizeBytes <= Scanned(w, d)
  {
    SettledAlso(t.blobs);
    ExpectedAt(t.blobs, id);
    var e := Expected(t.blobs);
    SumWithout(e, t.blobs[id].sha256);
  }

  lemma SettledAlso(blobs: map<Id, Blob>)
    requires AliasesAgree(blobs)
    ensures SettledAgree(blobs)
  {
  }

  // Limits under which one blob of n zeros can be reserved and uploaded.
  predicate Allows(w: World, n: nat) {
    && n <= w.limits.maxBlobBytes <= w.limits.maxTotalBytes
    && 1 <= w.limits.maxBlobsPerSession <= w.limits.maxBlobs && w.limits.reservationTtl > 0
  }

  function Whole(w: World, s: Id, n: nat): Reservation { Reservation(0, s, 0, 0, n, w.hash(Zeros(n))) }

  function WholeBlob(w: World, s: Id, n: nat): Blob {
    SettledAs(NewBlob(Whole(w, s, n), 0, w.limits.reservationTtl).(uploadKey := Some(0)), Allow, 0, w.limits.blobTtl)
  }

  lemma NothingReserved(w: World, s: Id, n: nat)
    requires Allows(w, n)
    ensures Refusal(w, map[], Whole(w, s, n)).None?
  {
    assert OfSession(map[], s) == {};
    assert Declared(map[]) == map[];
  }

  lemma ZerosTaken(w: World, b: Blob, n: nat)
    requires b.sizeBytes == n <= w.limits.maxBlobBytes && b.sha256 == w.hash(Zeros(n))
    ensures ContentRefusal(w, b, [Zeros(n)], false).None?
  {
    assert [Zeros(n)][..0] == [] && [] + Zeros(n) == Zeros(n);
    assert Joined([Zeros(n)]) == Zeros(n);
  }

  method ReserveWhole(store: FileBlobStore, s: Id, n: nat)
    requires store.Valid() && store.Records() == Table(map[], map[]) && Allows(store.w, n)
    modifies store
    ensures store.Valid() && old(store.history) <= store.history
    ensures store.Records() == Table(map[0 := NewBlob(Whole(store.w, s, n), 0, store.w.limits.reservationTtl)], map[])
  {
    hide FileBlobStore.Valid, Refusal;
    NothingReserved(store.w, s, n);
    assert Pruned(Table(map[], map[]), 0) == Table(map[], map[]);
    var _ := store.Reserve(Whole(store.w, s, n), 0);
  }

  method UploadWhole(store: FileBlobStore, s: Id, n: nat)
    requires store.Valid() && Allows(store.w, n)
    requires store.Records() == Table(map[0 := NewBlob(Whole(store.w, s, n), 0, store.w.limits.reservationTtl)], map[])
    modifies store
    ensures store.Valid() && old(store.history) <= store.history
    ensures store.Records() == Table(map[0 := WholeBlob(store.w, s, n)], map[])
  {
    hide FileBlobStore.Valid, ContentRefusal;
    ghost var t := store.Records();
    assert Pruned(t, 0).blobs == t.blobs && Pruned(t, 0).refs == t.refs;
    ZerosTaken(store.w, t.blobs[0], n);
    var _ := store.UploadContent(0, s, 0, 0, [Zeros(n)], false, Allow, 0);
  }

  // A store that starts on an empty directory.
  method FreshStore(w: World) returns (store: FileBlobStore)
    ensures fresh(store) && store.Valid() && store.w == w && store.Records() == Table(map[], map[])
  {
    store := new FileBlobStore(w, NOTHING);
    NothingIsClean(w);
    NothingMirrored();
  }

  // An empty store, one reservation within every limit, one upload: if the blob is larger
  // than maxRecoveryBytes, the files that are left are refused.
  method UploadBlocksRecovery(w: World, n: nat) returns (store: FileBlobStore)
    requires Allows(w, n) && w.limits.maxRecoveryBytes < n
    ensures fresh(store) && store.Valid() && store.w == w && !Accepts(w, store.disk)
  {
    hide FileBlobStore.Valid, Accepts;
    store := FreshStore(w);
    ReserveWhole(store, 0, n);
    UploadWhole(store, 0, n);
    BlocksRecovery(store, n);
  }

  lemma BlocksRecovery(store: FileBlobStore, n: nat)
    requires store.Valid() && 0 in store.blobs && Settled(store.blobs[0]) && store.blobs[0].sizeBytes == n
    requires store.w.limits.maxRecoveryBytes < n
    ensures !Accepts(store.w, store.disk)
  {
    SettledIsScanned(store.w, store.disk, store.Records(), 0);
  }

  // ---- A store without a record that cannot start again ----------------------------------------

  // Limits under which that blob can be referred to as well, with time left to do it.
  predicate AllowsFile(w: World, n: nat) {
    && Allows(w, n) && 1 <= w.limits.maxReferences && 1 <= w.limits.maxReferencesPerBlob
    && w.limits.blobTtl > 0 && w.limits.referenceTtl > 0
  }

  function FileOf(s: Id): UploadInput { UploadInput(0, s, 0, 0) }

  lemma FileTaken(w: World, s: Id, n: nat)
    requires AllowsFile(w, n)
    ensures
      var t := Table(map[0 := WholeBlob(w, s, n)], map[]);
      Pruned(t, 0) == t && ReferenceRefusal(w, t, FileOf(s), 0).None?
  {
    var t := Table(map[0 := WholeBlob(w, s, n)], map[]);
    assert Pruned(t, 0).blobs == t.blobs && Pruned(t, 0).refs == t.refs;
    assert RefsTo(t.refs, 0) == {};
  }

  // One file of session s, referred to and deleted again.
  method ReferWhole(store: FileBlobStore, s: Id, n: nat)
    requires store.Valid() && AllowsFile(store.w, n)
    requires store.Records() == Table(map[0 := WholeBlob(store.w, s, n)], map[])
    modifies store
    ensures store.Valid() && old(store.history) <= store.history && (s, 0) in store.disk.inboxes
    ensures store.blobs == map[0 := WholeBlob(store.w, s, n)] && store.references.Keys == {0}
    ensures store.references[0].session == s && store.references[0].generation == 0
  {
    hide FileBlobStore.Valid, ReferenceRefusal, WholeBlob;
    FileTaken(store.w, s, n);
    var _ := store.Materialize(FileOf(s), 0);
    HasInbox(store, 0);
  }

  lemma HasInbox(store: FileBlobStore, f: Id)
    requires store.Valid() && f in store.references
    ensures (store.references[f].session, store.references[f].generation) in store.disk.inboxes
  {
    assert Listed(store.references, store.disk.json, f);
    assert BinThere(store.w, store.disk, SlotOf(store.references[f]));
  }

  method DeleteWhole(store: FileBlobStore, s: Id, n: nat)
    requires store.Valid() && AllowsFile(store.w, n)
    requires store.blobs == map[0 := WholeBlob(store.w, s, n)] && store.references.Keys == {0}
    requires store.references[0].session == s && store.references[0].generation == 0
    modifies store
    ensures store.Valid() && old(store.history) <= store.history && store.Records() == Table(map[], map[])
  {
    hide FileBlobStore.Valid;
    FileTaken(store.w, s, n);
    assert store.references - {0} == map[];
    var _ := store.DeleteReference(0, s, 0, 0);
    assert RefsTo(store.references, 0) == {};
    var _ := store.DeleteBlob(0, s, 0);
    assert map[0 := WholeBlob(store.w, s, n)] - {0} == map[];
  }

  lemma InboxesOf(store: FileBlobStore, was: seq<Point>)
    requires store.Valid() && was <= store.history
    ensures LastDisk(store.first, was).inboxes <= store.disk.inboxes
  {
    InboxesStay(store.first, was, store.history);
  }

  lemma DiskIsLast(store: FileBlobStore)
    requires store.Valid()
    ensures LastDisk(store.first, store.history) == store.disk
  {
  }

  // A session comes and goes, and its inbox stays.
  method ComesAndGoes(store: FileBlobStore, s: Id, n: nat)
    requires store.Valid() && AllowsFile(store.w, n) && store.Records() == Table(map[], map[])
    modifies store
    ensures store.Valid() && old(store.history) <= store.history && store.Records() == Table(map[], map[])
    ensures old(store.disk.inboxes) <= store.disk.inboxes && (s, 0) in store.disk.inboxes
  {
    hide FileBlobStore.Valid, WholeBlob, NewBlob, LastDisk;
    ghost var before := store.history;
    DiskIsLast(store);
    ReserveWhole(store, s, n);
    UploadWhole(store, s, n);
    ReferWhole(store, s, n);
    ghost var between := store.history;
    DiskIsLast(store);
    DeleteWhole(store, s, n);
    InboxesOf(store, before);
    InboxesOf(store, between);
  }

  ghost predicate Inboxes(d: Disk, n: nat) { forall i | i in Upto(n) :: (i, 0) in d.inboxes }

  lemma NoInboxes(d: Disk)
    ensures Inboxes(d, 0)
  {
  }

  lemma OneMoreInbox(was: Disk, d: Disk, n: nat)
    requires Inboxes(was, n) && was.inboxes <= d.inboxes && (n, 0) in d.inboxes
    ensures Inboxes(d, n + 1)
  {
  }

  // Sessions that come and go, one after the other.
  method AllComeAndGo(store: FileBlobStore, count: nat, n: nat)
    requires store.Valid() && AllowsFile(store.w, n) && store.Records() == Table(map[], map[])
    modifies store
    ensures store.Valid() && store.Records() == Table(map[], map[]) && Inboxes(store.disk, count)
  {
    hide FileBlobStore.Valid, Inboxes, AllowsFile;
    if count == 0 {
      NoInboxes(store.disk);
    } else {
      AllComeAndGo(store, count - 1, n);
      ghost var was := store.disk;
      ComesAndGoes(store, count - 1, n);
      OneMoreInbox(was, store.disk, count - 1);
    }
  }

  // Enough of them: no record is left, and the files are refused.
  method InboxesBlockRecovery(w: World, n: nat) returns (store: FileBlobStore)
    requires AllowsFile(w, n)
    ensures fresh(store) && store.Valid() && store.w == w && store.Records() == Table(map[], map[])
    ensures !Accepts(w, store.disk)
  {
    hide FileBlobStore.Valid, Accepts, Inboxes, AllowsFile;
    store := FreshStore(w);
    AllComeAndGo(store, w.limits.maxReferences + 1, n);
    RefusesThem(store, w.limits.maxReferences + 1);
  }

  lemma RefusesThem(store: FileBlobStore, n: nat)
    requires store.Valid() && n > store.w.limits.maxReferences && Inboxes(store.disk, n)
    ensures !Accepts(store.w, store.disk)
  {
    ManyInboxesRefused(store.w, store.disk, store.Records(), n);
  }
}
