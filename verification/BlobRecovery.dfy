/** Which files recovery accepts, and what it leaves of them (src/blob-store.ts:691-891). */
module BlobRecovery {
  import opened Wrappers
  import opened Sums
  import opened BlobDisk
  import opened BlobSteps

  function Sessions(inboxes: set<(Id, nat)>): set<Id> { set i | i in inboxes :: i.0 }

  function JsonIn(d: Disk, inbox: (Id, nat)): set<Slot> {
    set s | s in d.json && s.session == inbox.0 && s.generation == inbox.1
  }

  function BinIn(d: Disk, inbox: (Id, nat)): set<Slot> {
    set s | s in d.bin && s.session == inbox.0 && s.generation == inbox.1
  }

  function EntriesIn(d: Disk, inbox: (Id, nat)): nat {
    |JsonIn(d, inbox)| + |BinIn(d, inbox)| + d.litter[InInbox(inbox.0, inbox.1)]
  }

  ghost function ManifestBytes(w: World, d: Disk): map<Id, nat> {
    map id | id in d.manifests :: w.blobRecordBytes(d.manifests[id])
  }

  ghost function JsonBytes(w: World, d: Disk): map<Slot, nat> {
    map s | s in d.json :: w.referenceRecordBytes(d.json[s])
  }

  // Digest to size, over settled blobs only.
  ghost function Expected(blobs: map<Id, Blob>): map<Digest, nat> {
    map h | h in SettledDigests(blobs) ::
        (var id :| id in blobs && Settled(blobs[id]) && blobs[id].sha256 == h; blobs[id].sizeBytes)
  }

  ghost predicate SettledAgree(blobs: map<Id, Blob>) {
    forall a, b {:trigger SameDigest(blobs, a, b)} | SameDigest(blobs, a, b) && Settled(blobs[a])
        && Settled(blobs[b]) ::
      blobs[a].sizeBytes == blobs[b].sizeBytes
  }

  // Everything recovery reads: record files and the objects of settled blobs.
  ghost function Scanned(w: World, d: Disk): nat {
    SumOf(ManifestBytes(w, d)) + SumOf(JsonBytes(w, d)) + SumOf(Expected(d.manifests))
  }

  // ---- What #load checks --------------------------------------------------------------------

  ghost predicate ManifestReads(w: World, d: Disk, id: Id)
    requires id in d.manifests
  {
    BlobFits(w, d.manifests, id) && w.blobRecordBytes(d.manifests[id]) <= w.limits.maxRecordBytes
  }

  ghost predicate ReferenceReads(w: World, d: Disk, s: Slot)
    requires s in d.json
  {
    && SlotOf(d.json[s]) == s
    && w.referenceRecordBytes(d.json[s]) <= w.limits.maxRecordBytes
    && s in d.bin && Holds(w, d.bin[s], d.json[s].sha256, d.json[s].sizeBytes)
  }

  ghost predicate SameFile(json: map<Slot, Reference>, a: Slot, b: Slot) {
    a in json && b in json && a.fileId == b.fileId
  }

  ghost predicate FilesDistinct(json: map<Slot, Reference>) {
    forall a, b {:trigger SameFile(json, a, b)} | SameFile(json, a, b) :: a == b
  }

  ghost function FilesTo(json: map<Slot, Reference>, b: Id): set<Slot> { set s | s in json && json[s].blobId == b }

  ghost predicate FilesFit(w: World, d: Disk, b: Id) { |FilesTo(d.json, b)| <= w.limits.maxReferencesPerBlob }

  ghost predicate ManifestsAccepted(w: World, d: Disk) {
    && |d.manifests| + d.litter[AmongBlobs] <= w.limits.maxBlobs * 4 + 64
    && |d.manifests| <= w.limits.maxBlobs
    && (forall id {:trigger ManifestReads(w, d, id)} | id in d.manifests :: ManifestReads(w, d, id))
  }

  ghost predicate InboxFits(w: World, d: Disk, i: (Id, nat)) { EntriesIn(d, i) <= w.limits.maxReferences * 3 + 32 }

  ghost predicate ReferencesAccepted(w: World, d: Disk) {
    && |Sessions(d.inboxes)| <= w.limits.maxReferences
    && (forall i {:trigger InboxFits(w, d, i)} | i in d.inboxes :: InboxFits(w, d, i))
    && |d.json| <= w.limits.maxReferences
    && (forall s {:trigger ReferenceReads(w, d, s)} | s in d.json :: ReferenceReads(w, d, s))
    && FilesDistinct(d.json)
  }

  ghost predicate UsesAccepted(w: World, d: Disk) {
    && (forall s | s in d.json :: d.json[s].blobId in d.manifests)
    && (forall b {:trigger FilesFit(w, d, b)} :: FilesFit(w, d, b))
  }

  ghost predicate ObjectsAccepted(w: World, d: Disk) {
    && SettledAgree(d.manifests)
    && |d.objects| + d.litter[AmongObjects] <= w.limits.maxBlobs * 2 + 64
    && (forall id {:trigger ObjectThere(w, d, id)} | id in d.manifests :: ObjectThere(w, d, id))
  }

  ghost predicate Accepts(w: World, d: Disk) {
    && ManifestsAccepted(w, d)
    && ReferencesAccepted(w, d)
    && UsesAccepted(w, d)
    && ObjectsAccepted(w, d)
    && Scanned(w, d) <= w.limits.maxRecoveryBytes
    && AliasesAgree(d.manifests)
    && SumOf(Declared(d.manifests)) <= w.limits.maxTotalBytes
  }

  // ---- What a crash state needs for it --------------------------------------------------------

  ghost predicate RecordsFit(w: World, d: Disk) {
    && (forall id | id in d.manifests :: w.blobRecordBytes(d.manifests[id]) <= w.limits.maxRecordBytes)
    && (forall s | s in d.json :: w.referenceRecordBytes(d.json[s]) <= w.limits.maxRecordBytes)
  }

  ghost predicate Sufficient(w: World, d: Disk) {
    && RecordsFit(w, d)
    && Scanned(w, d) <= w.limits.maxRecoveryBytes
    && |Sessions(d.inboxes)| <= w.limits.maxReferences
  }

  lemma CrashManifestsAccepted(w: World, d: Disk, t: Table)
    requires CrashOk(w, d, t) && RecordsFit(w, d)
    ensures ManifestsAccepted(w, d)
  {
    forall id | id in d.manifests ensures ManifestReads(w, d, id) { assert BlobFits(w, t.blobs, id); }
  }

  lemma CrashInboxFits(w: World, d: Disk, t: Table, i: (Id, nat))
    requires CrashOk(w, d, t)
    ensures InboxFits(w, d, i)
  {
    AsManyFiles(t.refs, d.json);
    SubsetSize(JsonIn(d, i), d.json.Keys);
    SubsetSize(BinIn(d, i), d.bin.Keys);
  }

  lemma CrashReferencesAccepted(w: World, d: Disk, t: Table)
    requires CrashOk(w, d, t) && RecordsFit(w, d) && |Sessions(d.inboxes)| <= w.limits.maxReferences
    ensures ReferencesAccepted(w, d)
  {
    AsManyFiles(t.refs, d.json);
    forall i | i in d.inboxes ensures InboxFits(w, d, i) { CrashInboxFits(w, d, t, i); }
    forall s | s in d.json ensures ReferenceReads(w, d, s) { assert BinThere(w, d, s) && Known(t.refs, d.json, s); }
    forall a, b | SameFile(d.json, a, b) ensures a == b { assert Known(t.refs, d.json, a) && Known(t.refs, d.json, b); }
  }

  // The files naming a blob are as many as the references to it.
  lemma FilesAreRefs(w: World, refs: map<Id, Reference>, json: map<Slot, Reference>, b: Id)
    requires Mirrors(refs, json)
    ensures |FilesTo(json, b)| == |RefsTo(refs, b)|
  {
    var refs' := map f | f in RefsTo(refs, b) :: refs[f];
    var json' := map s | s in FilesTo(json, b) :: json[s];
    forall f | f in refs' ensures Listed(refs', json', f) { assert Listed(refs, json, f); }
    forall s | s in json' ensures Known(refs', json', s) { assert Known(refs, json, s); }
    AsManyFiles(refs', json');
    assert refs'.Keys == RefsTo(refs, b) && json'.Keys == FilesTo(json, b);
  }

  lemma CrashUsesAccepted(w: World, d: Disk, t: Table)
    requires CrashOk(w, d, t)
    ensures UsesAccepted(w, d)
  {
    forall s | s in d.json ensures d.json[s].blobId in d.manifests {
      assert Known(t.refs, d.json, s) && ReferenceFits(t, s.fileId);
    }
    forall b ensures FilesFit(w, d, b) {
      FilesAreRefs(w, t.refs, d.json, b);
      assert BlobUsesFit(w, t.refs, b);
    }
  }

  lemma CrashObjectsAccepted(w: World, d: Disk, t: Table)
    requires CrashOk(w, d, t)
    ensures ObjectsAccepted(w, d) && AliasesAgree(d.manifests) && SumOf(Declared(d.manifests)) <= w.limits.maxTotalBytes
  {
  }

  lemma AcceptedRecordsFit(w: World, d: Disk)
    requires ManifestsAccepted(w, d) && ReferencesAccepted(w, d)
    ensures RecordsFit(w, d)
  {
    forall id | id in d.manifests ensures w.blobRecordBytes(d.manifests[id]) <= w.limits.maxRecordBytes {
      assert ManifestReads(w, d, id);
    }
    forall s | s in d.json ensures w.referenceRecordBytes(d.json[s]) <= w.limits.maxRecordBytes {
      assert ReferenceReads(w, d, s);
    }
  }

  // Recovery accepts the files of a crash exactly when its limits cover the records
  // and objects and no more session directories were made than there may be references.
  lemma CrashStatesAccepted(w: World, d: Disk, t: Table)
    requires CrashOk(w, d, t)
    ensures Accepts(w, d) <==> Sufficient(w, d)
  {
    if Accepts(w, d) { AcceptedRecordsFit(w, d); }
    CrashObjectsAccepted(w, d, t);
    hide CrashOk, ManifestsAccepted, ReferencesAccepted, UsesAccepted, ObjectsAccepted, RecordsFit, Scanned,
        AliasesAgree;
    if Sufficient(w, d) {
      CrashManifestsAccepted(w, d, t);
      CrashReferencesAccepted(w, d, t);
      CrashUsesAccepted(w, d, t);
    }
  }

  // ---- What recovery leaves ---------------------------------------------------------------------

  // Exactly the objects and contents that no record names, and temporary files, go.
  function Swept(d: Disk): Disk {
    d.(objects := map h | h in d.objects && h in SettledDigests(d.manifests) :: d.objects[h],
       bin := map s | s in d.bin && s in d.json :: d.bin[s],
       litter := multiset{})
  }

  lemma SweptIsClean(w: World, d: Disk, t: Table)
    requires CrashOk(w, d, t)
    ensures Clean(w, Swept(d), t)
  {
    var n := Swept(d);
    forall id | id in n.manifests ensures ObjectThere(w, n, id) { assert ObjectThere(w, d, id); }
    forall s | s in n.json ensures BinThere(w, n, s) { assert BinThere(w, d, s); }
    SubsetSize(n.objects.Keys, d.objects.Keys);
    SubsetSize(n.bin.Keys, d.bin.Keys);
    forall h | h in SettledDigests(t.blobs) ensures h in n.objects {
      var id :| id in t.blobs && Settled(t.blobs[id]) && t.blobs[id].sha256 == h;
      assert ObjectThere(w, d, id);
    }
    forall s | s in d.json ensures s in n.bin { assert BinThere(w, d, s); }
  }

  // ---- The limits are not enough by default ---------------------------------------------------

  function Zeros(n: nat): Content { seq(n, _ => 0 as Byte) }

  function OneBlob(w: World, n: nat): Blob {
    Blob(0, 0, 0, 0, n, w.hash(Zeros(n)), Available, 1, 0, 0, 1, None, Some(0))
  }

  function OneBlobDisk(w: World, n: nat): Disk {
    Disk(map[0 := OneBlob(w, n)], map[w.hash(Zeros(n)) := Zeros(n)], map[], map[], {}, multiset{})
  }

  lemma OneBlobDeclared(w: World, n: nat)
    ensures AliasesAgree(map[0 := OneBlob(w, n)])
    ensures SettledDigests(map[0 := OneBlob(w, n)]) == {w.hash(Zeros(n))}
    ensures SumOf(Declared(map[0 := OneBlob(w, n)])) == SumOf(Expected(map[0 := OneBlob(w, n)])) == n
  {
    var b := OneBlob(w, n);
    var blobs := map[0 := b];
    assert blobs[0] == b;
    DeclaredAt(blobs, 0);
    assert Digests(blobs) == {b.sha256} && SettledDigests(blobs) == {b.sha256};
    assert Declared(blobs) == map[][b.sha256 := n];
    assert Expected(blobs) == map[][b.sha256 := n];
    SumWith(map[], b.sha256, n);
  }

  lemma OneBlobClean(w: World, n: nat)
    requires n <= w.limits.maxBlobBytes <= w.limits.maxTotalBytes
    requires 1 <= w.limits.maxBlobsPerSession <= w.limits.maxBlobs
    ensures Clean(w, OneBlobDisk(w, n), Table(map[0 := OneBlob(w, n)], map[]))
    ensures n <= Scanned(w, OneBlobDisk(w, n))
  {
    var b, d := OneBlob(w, n), OneBlobDisk(w, n);
    var t := Table(map[0 := b], map[]);
    assert t.blobs[0] == b;
    OneBlobDeclared(w, n);
    OneBlobTable(w, n);
    hide TableOk, AliasesAgree, SettledDigests, Declared, Expected;
    assert ObjectThere(w, d, 0);
  }

  lemma OneBlobTable(w: World, n: nat)
    requires n <= w.limits.maxBlobBytes <= w.limits.maxTotalBytes
    requires 1 <= w.limits.maxBlobsPerSession <= w.limits.maxBlobs
    ensures TableOk(w, Table(map[0 := OneBlob(w, n)], map[]))
  {
    var t := Table(map[0 := OneBlob(w, n)], map[]);
    assert t.blobs[0] == OneBlob(w, n);
    OneBlobDeclared(w, n);
    hide AliasesAgree, SettledDigests, Declared, Expected;
    forall s ensures SessionFits(w, t.blobs, s) {
      SubsetSize(OfSession(t.blobs, s), {0});
    }
    forall i ensures BlobUsesFit(w, t.refs, i) { assert RefsTo(t.refs, i) == {}; }
  }

  // One uploaded blob larger than maxRecoveryBytes makes the next start fail; the
  // default limits allow 64 MiB blobs and 32 MiB of recovery.
  lemma OneBlobBlocksRecovery(w: World)
    requires w.limits.maxRecoveryBytes < w.limits.maxBlobBytes <= w.limits.maxTotalBytes
    requires 1 <= w.limits.maxBlobsPerSession <= w.limits.maxBlobs
    ensures exists d, t :: Clean(w, d, t) && !Accepts(w, d)
  {
    OneBlobClean(w, w.limits.maxBlobBytes);
    var d := OneBlobDisk(w, w.limits.maxBlobBytes);
    CrashStatesAccepted(w, d, Table(map[0 := OneBlob(w, w.limits.maxBlobBytes)], map[]));
  }

  const DEFAULTS := Limits(256, 32, 64 * 1024 * 1024, 512 * 1024 * 1024, 512, 16, 64 * 1024, 32 * 1024 * 1024,
                           3600000, 86400000, 86400000)

  lemma DefaultsDoNotCoverRecovery(w: World)
    requires w.limits == DEFAULTS
    ensures exists d, t :: Clean(w, d, t) && !Accepts(w, d)
  {
    OneBlobBlocksRecovery(w);
  }

  function Upto(n: nat): set<Id> { if n == 0 then {} else Upto(n - 1) + {n - 1} }

  lemma {:induction false} UptoCounts(n: nat)
    ensures |Upto(n)| == n && forall i | i in Upto(n) :: i < n
  {
    if n > 0 { UptoCounts(n - 1); }
  }

  const NOTHING := Disk(map[], map[], map[], map[], {}, multiset{})

  lemma EmptyTableOk(w: World)
    ensures TableOk(w, Table(map[], map[])) && SettledDigests(map[]) == {}
  {
    var t := Table(map[], map[]);
    assert Digests(t.blobs) == {} && Declared(t.blobs) == map[];
    forall s ensures SessionFits(w, t.blobs, s) { assert OfSession(t.blobs, s) == {}; }
    forall i ensures BlobUsesFit(w, t.refs, i) { assert RefsTo(t.refs, i) == {}; }
  }

  lemma NothingIsClean(w: World)
    ensures Clean(w, NOTHING, Table(map[], map[]))
  {
    EmptyTableOk(w);
  }

  // Too many inbox directories block recovery without a single record left.
  lemma ManyInboxesRefused(w: World, d: Disk, t: Table, n: nat)
    requires CrashOk(w, d, t) && n > w.limits.maxReferences
    requires forall s | s in Upto(n) :: (s, 0) in d.inboxes
    ensures !Accepts(w, d)
  {
    UptoCounts(n);
    forall s | s in Upto(n) ensures s in Sessions(d.inboxes) { assert (s, 0) in d.inboxes; }
    SubsetSize(Upto(n), Sessions(d.inboxes));
    CrashStatesAccepted(w, d, t);
  }

  // ---- What the scan may forget on the way ------------------------------------------------------

  function Without(l: multiset<Place>, p: Place): multiset<Place> { l[p := 0] }

  lemma OnlyThatLitter(w: World, d: Disk, n: Disk)
    requires n == d.(litter := n.litter) && forall p: Place | p.InInbox? :: n.litter[p] == d.litter[p]
    ensures ReferencesAccepted(w, n) <==> ReferencesAccepted(w, d)
  {
    forall i ensures InboxFits(w, n, i) <==> InboxFits(w, d, i) {
      assert JsonIn(n, i) == JsonIn(d, i) && BinIn(n, i) == BinIn(d, i);
    }
    forall s | s in d.json ensures ReferenceReads(w, n, s) <==> ReferenceReads(w, d, s) { }
  }

  lemma SameUses(w: World, d: Disk, n: Disk)
    requires n.json == d.json && n.manifests == d.manifests
    ensures UsesAccepted(w, n) <==> UsesAccepted(w, d)
  {
    forall b ensures FilesFit(w, n, b) <==> FilesFit(w, d, b) { }
  }

  lemma SameObjects(w: World, d: Disk, n: Disk)
    requires n.objects == d.objects && n.manifests == d.manifests && n.litter[AmongObjects] == d.litter[AmongObjects]
    ensures ObjectsAccepted(w, n) <==> ObjectsAccepted(w, d)
  {
    forall id | id in d.manifests ensures ObjectThere(w, n, id) <==> ObjectThere(w, d, id) { }
  }

  // Two reference tables with the same files are the same.
  lemma MirrorsOnce(a: map<Id, Reference>, b: map<Id, Reference>, json: map<Slot, Reference>)
    requires Mirrors(a, json) && Mirrors(b, json)
    ensures a == b
  {
    forall f | f in a ensures f in b && a[f] == b[f] { assert Listed(a, json, f) && Known(b, json, SlotOf(a[f])); }
    forall f | f in b ensures f in a { assert Listed(b, json, f) && Known(a, json, SlotOf(b[f])); }
  }

  lemma MirrorsDistinct(refs: map<Id, Reference>, json: map<Slot, Reference>)
    requires Mirrors(refs, json)
    ensures FilesDistinct(json)
  {
    forall a, b | SameFile(json, a, b) ensures a == b { assert Known(refs, json, a) && Known(refs, json, b); }
  }

  lemma MirrorsOneMore(refs: map<Id, Reference>, json: map<Slot, Reference>, r: Reference)
    requires Mirrors(refs, json) && r.fileId !in refs
    ensures Mirrors(refs[r.fileId := r], json[SlotOf(r) := r])
  {
    var m, n := refs[r.fileId := r], json[SlotOf(r) := r];
    forall f | f in m ensures Listed(m, n, f) { if f != r.fileId { assert Listed(refs, json, f); } }
    forall u | u in n ensures Known(m, n, u) { if u != SlotOf(r) { assert Known(refs, json, u); } }
  }

  lemma ExpectedAt(blobs: map<Id, Blob>, id: Id)
    requires SettledAgree(blobs) && id in blobs && Settled(blobs[id])
    ensures blobs[id].sha256 in Expected(blobs) && Expected(blobs)[blobs[id].sha256] == blobs[id].sizeBytes
  {
    var h := blobs[id].sha256;
    assert h in SettledDigests(blobs);
    forall j | j in blobs && Settled(blobs[j])
        && blobs[j].sha256 == h ensures blobs[j].sizeBytes == blobs[id].sizeBytes {
      assert SameDigest(blobs, j, id);
    }
  }
}
