/**
 The blob store's files and committed records, and which crash states of the
 files recovery accepts (src/blob-store.ts:246-1015).
 */
module BlobDisk {
  import opened Wrappers
  import opened Sums

  type Id = nat        // opaque identifiers, names and media types
  type Time = int      // milliseconds
  type Digest = nat    // a SHA-256 in hex

  newtype Byte = x: int | 0 <= x < 256
  type Content = seq<Byte>

  datatype BlobState = Reserved | Available | Quarantined

  datatype Blob = Blob(
    blobId: Id,
    session: Id,
    generation: nat,
    metadata: Id,
    sizeBytes: nat,
    sha256: Digest,
    state: BlobState,
    revision: nat,
    createdAt: Time,
    updatedAt: Time,
    expiresAt: Time,
    quarantineCode: Option<Id>,
    uploadKey: Option<Id>)

  datatype Reference = Reference(
    fileId: Id,
    session: Id,
    generation: nat,
    blobId: Id,
    metadata: Id,
    sizeBytes: nat,
    sha256: Digest,
    createdAt: Time,
    expiresAt: Time)

  datatype Limits = Limits(
    maxBlobs: nat,
    maxBlobsPerSession: nat,
    maxBlobBytes: nat,
    maxTotalBytes: nat,
    maxReferences: nat,
    maxReferencesPerBlob: nat,
    maxRecordBytes: nat,
    maxRecoveryBytes: nat,
    reservationTtl: nat,
    blobTtl: nat,
    referenceTtl: nat)

  // Where a reference's two files are: a session generation's inbox and a file id.
  datatype Slot = Slot(session: Id, generation: nat, fileId: Id)

  // A directory that can hold a temporary file.
  datatype Place = AmongBlobs | AmongObjects | InInbox(session: Id, generation: nat)

  datatype Disk = Disk(
    manifests: map<Id, Blob>,
    objects: map<Digest, Content>,
    json: map<Slot, Reference>,
    bin: map<Slot, Content>,
    inboxes: set<(Id, nat)>,
    litter: multiset<Place>)

  // The committed records.
  datatype Table = Table(blobs: map<Id, Blob>, refs: map<Id, Reference>)

  // The hash, the record sizes and the limits are given.
  datatype World = World(
    hash: Content -> Digest,
    blobRecordBytes: Blob -> nat,
    referenceRecordBytes: Reference -> nat,
    limits: Limits)

  function SlotOf(r: Reference): Slot { Slot(r.session, r.generation, r.fileId) }

  predicate Settled(b: Blob) { !b.state.Reserved? }

  // ---- Committed records -------------------------------------------------------------

  ghost predicate BlobFits(w: World, blobs: map<Id, Blob>, id: Id)
    requires id in blobs
  {
    && blobs[id].blobId == id
    && blobs[id].sizeBytes <= w.limits.maxBlobBytes
    && (blobs[id].state.Quarantined? <==> blobs[id].quarantineCode.Some?)
  }

  ghost predicate ReferenceFits(t: Table, f: Id)
    requires f in t.refs
  {
    var r := t.refs[f];
    && r.fileId == f
    && r.blobId in t.blobs
    && t.blobs[r.blobId].state.Available?
    && t.blobs[r.blobId].session == r.session && t.blobs[r.blobId].generation == r.generation
    && t.blobs[r.blobId].sizeBytes == r.sizeBytes && t.blobs[r.blobId].sha256 == r.sha256
  }

  ghost predicate SameDigest(blobs: map<Id, Blob>, a: Id, b: Id) {
    a in blobs && b in blobs && blobs[a].sha256 == blobs[b].sha256
  }

  ghost predicate AliasesAgree(blobs: map<Id, Blob>) {
    forall a, b {:trigger SameDigest(blobs, a, b)} | SameDigest(blobs, a, b) :: blobs[a].sizeBytes == blobs[b].sizeBytes
  }

  function Digests(blobs: map<Id, Blob>): set<Digest> { set id | id in blobs :: blobs[id].sha256 }

  function SettledDigests(blobs: map<Id, Blob>): set<Digest> { set id | id in blobs && Settled(blobs[id]) ::
      blobs[id].sha256 }

  // Digest to declared size, one entry for all aliases.
  ghost function Declared(blobs: map<Id, Blob>): map<Digest, nat> {
    map d | d in Digests(blobs) :: (var id :| id in blobs && blobs[id].sha256 == d; blobs[id].sizeBytes)
  }

  ghost function OfSession(blobs: map<Id, Blob>, session: Id): set<Id> {
    set id | id in blobs && blobs[id].session == session
  }

  ghost function RefsTo(refs: map<Id, Reference>, blobId: Id): set<Id> {
    set f | f in refs && refs[f].blobId == blobId
  }

  ghost predicate SessionFits(w: World, blobs: map<Id, Blob>, session: Id) {
    |OfSession(blobs, session)| <= w.limits.maxBlobsPerSession
  }

  ghost predicate BlobUsesFit(w: World, refs: map<Id, Reference>, blobId: Id) {
    |RefsTo(refs, blobId)| <= w.limits.maxReferencesPerBlob
  }

  ghost predicate BlobsOk(w: World, blobs: map<Id, Blob>) {
    && (forall id {:trigger BlobFits(w, blobs, id)} | id in blobs :: BlobFits(w, blobs, id))
    && AliasesAgree(blobs)
    && |blobs| <= w.limits.maxBlobs
    && (forall session {:trigger SessionFits(w, blobs, session)} :: SessionFits(w, blobs, session))
    && SumOf(Declared(blobs)) <= w.limits.maxTotalBytes
  }

  ghost predicate RefsOk(w: World, t: Table) {
    && (forall f {:trigger ReferenceFits(t, f)} | f in t.refs :: ReferenceFits(t, f))
    && |t.refs| <= w.limits.maxReferences
    && (forall b {:trigger BlobUsesFit(w, t.refs, b)} :: BlobUsesFit(w, t.refs, b))
  }

  ghost predicate TableOk(w: World, t: Table) { BlobsOk(w, t.blobs) && RefsOk(w, t) }

  // ---- Files ---------------------------------------------------------------------------------

  predicate Holds(w: World, c: Content, sha256: Digest, sizeBytes: nat) { |c| == sizeBytes && w.hash(c) == sha256 }

  ghost predicate ObjectThere(w: World, d: Disk, id: Id)
    requires id in d.manifests
  {
    var b := d.manifests[id];
    Settled(b) ==> b.sha256 in d.objects && Holds(w, d.objects[b.sha256], b.sha256, b.sizeBytes)
  }

  ghost predicate BinThere(w: World, d: Disk, s: Slot)
    requires s in d.json
  {
    && s in d.bin && Holds(w, d.bin[s], d.json[s].sha256, d.json[s].sizeBytes)
    && (s.session, s.generation) in d.inboxes
  }

  ghost predicate Listed(refs: map<Id, Reference>, json: map<Slot, Reference>, f: Id)
    requires f in refs
  {
    refs[f].fileId == f && SlotOf(refs[f]) in json && json[SlotOf(refs[f])] == refs[f]
  }

  ghost predicate Known(refs: map<Id, Reference>, json: map<Slot, Reference>, s: Slot)
    requires s in json
  {
    s.fileId in refs && refs[s.fileId] == json[s] && SlotOf(json[s]) == s
  }

  // The reference records are exactly the reference files.
  ghost predicate Mirrors(refs: map<Id, Reference>, json: map<Slot, Reference>) {
    && (forall f {:trigger Listed(refs, json, f)} | f in refs :: Listed(refs, json, f))
    && (forall s {:trigger Known(refs, json, s)} | s in json :: Known(refs, json, s))
  }

  ghost predicate ContentsThere(w: World, d: Disk) {
    && (forall id {:trigger ObjectThere(w, d, id)} | id in d.manifests :: ObjectThere(w, d, id))
    && (forall s {:trigger BinThere(w, d, s)} | s in d.json :: BinThere(w, d, s))
  }

  // Files a crash may leave behind records `t`: at most one object, one reference
  // content and one temporary file that no record names.
  ghost predicate CrashOk(w: World, d: Disk, t: Table) {
    && TableOk(w, t)
    && d.manifests == t.blobs
    && Mirrors(t.refs, d.json)
    && ContentsThere(w, d)
    && |d.objects| <= w.limits.maxBlobs + 1
    && |d.bin| <= w.limits.maxReferences + 1
    && |d.litter| <= 1
  }

  // Between operations no file is left behind.
  ghost predicate Clean(w: World, d: Disk, t: Table) {
    && CrashOk(w, d, t)
    && d.objects.Keys == SettledDigests(t.blobs)
    && d.bin.Keys == d.json.Keys
    && d.litter == multiset{}
  }

  // ---- Sums of declared sizes -----------------------------------------------------------------

  lemma DeclaredAt(blobs: map<Id, Blob>, id: Id)
    requires AliasesAgree(blobs) && id in blobs
    ensures blobs[id].sha256 in Declared(blobs) && Declared(blobs)[blobs[id].sha256] == blobs[id].sizeBytes
  {
    var d := blobs[id].sha256;
    assert d in Digests(blobs);
    forall j | j in blobs && blobs[j].sha256 == d ensures blobs[j].sizeBytes == blobs[id].sizeBytes {
      assert SameDigest(blobs, j, id);
    }
  }

  lemma DigestsOfMore(blobs: map<Id, Blob>, b: Blob)
    requires b.blobId !in blobs
    ensures Digests(blobs[b.blobId := b]) == Digests(blobs) + {b.sha256}
  {
    var m := blobs[b.blobId := b];
    assert m[b.blobId] == b;
    forall d | d in Digests(blobs) + {b.sha256} ensures d in Digests(m) {
      if d in Digests(blobs) { var id :| id in blobs && blobs[id].sha256 == d; assert m[id].sha256 == d; }
    }
  }

  lemma DeclaredOfMore(blobs: map<Id, Blob>, b: Blob)
    requires AliasesAgree(blobs) && AliasesAgree(blobs[b.blobId := b]) && b.blobId !in blobs
    ensures Declared(blobs[b.blobId := b])
         == if b.sha256 in Digests(blobs) then Declared(blobs) else Declared(blobs)[b.sha256 := b.sizeBytes]
  {
    var m := blobs[b.blobId := b];
    var n := if b.sha256 in Digests(blobs) then Declared(blobs) else Declared(blobs)[b.sha256 := b.sizeBytes];
    DigestsOfMore(blobs, b);
    assert n.Keys == Declared(m).Keys;
    forall d | d in Declared(m) ensures n[d] == Declared(m)[d] {
      if d in Digests(blobs) {
        var j :| j in blobs && blobs[j].sha256 == d;
        DeclaredAt(blobs, j);
        DeclaredAt(m, j);
      } else {
        DeclaredAt(m, b.blobId);
      }
    }
  }

  lemma DeclaredOfFewer(blobs: map<Id, Blob>, id: Id)
    requires AliasesAgree(blobs)
    ensures AliasesAgree(blobs - {id})
    ensures SumOf(Declared(blobs - {id})) <= SumOf(Declared(blobs))
  {
    var m := blobs - {id};
    forall a, b | SameDigest(m, a, b) ensures m[a].sizeBytes == m[b].sizeBytes { assert SameDigest(blobs, a, b); }
    forall d | d in Declared(m) ensures d in Declared(blobs) && Declared(blobs)[d] == Declared(m)[d] {
      var j :| j in m && m[j].sha256 == d;
      DeclaredAt(m, j);
      DeclaredAt(blobs, j);
    }
    SumMonotone(Declared(m), Declared(blobs));
  }

  lemma DeclaredOfSame(a: map<Id, Blob>, b: map<Id, Blob>)
    requires AliasesAgree(a) && a.Keys == b.Keys
    requires forall id | id in a :: a[id].sha256 == b[id].sha256 && a[id].sizeBytes == b[id].sizeBytes
    ensures AliasesAgree(b) && Declared(a) == Declared(b) && Digests(a) == Digests(b)
  {
    forall i, j | SameDigest(b, i, j) ensures b[i].sizeBytes == b[j].sizeBytes { assert SameDigest(a, i, j); }
    assert Digests(a) == Digests(b);
    forall d | d in Declared(a) ensures Declared(a)[d] == Declared(b)[d] {
      var j :| j in a && a[j].sha256 == d;
      DeclaredAt(a, j);
      DeclaredAt(b, j);
    }
  }
}
