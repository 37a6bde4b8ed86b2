/** What each change of the records and each single file operation keeps. */
module BlobSteps {
  import opened Wrappers
  import opened Sums
  import opened BlobDisk

  // ---- Changes of the records ----------------------------------------------------------

  // A reservation that the quotas admit (src/blob-store.ts:313-347).
  ghost predicate Admits(w: World, blobs: map<Id, Blob>, b: Blob) {
    && b.blobId !in blobs
    && b.sizeBytes <= w.limits.maxBlobBytes
    && b.state.Reserved? && b.quarantineCode.None?
    && (forall id | id in blobs && blobs[id].sha256 == b.sha256 :: blobs[id].sizeBytes == b.sizeBytes)
    && |blobs| < w.limits.maxBlobs
    && |OfSession(blobs, b.session)| < w.limits.maxBlobsPerSession
    && SumOf(Declared(blobs)) + (if b.sha256 in Digests(blobs) then 0 else b.sizeBytes) <= w.limits.maxTotalBytes
  }

  lemma ReservingKeepsSizes(w: World, blobs: map<Id, Blob>, b: Blob)
    requires BlobsOk(w, blobs) && Admits(w, blobs, b)
    ensures AliasesAgree(blobs[b.blobId := b]) && SumOf(Declared(blobs[b.blobId := b])) <= w.limits.maxTotalBytes
  {
    var m := blobs[b.blobId := b];
    forall i, j | SameDigest(m, i, j) ensures m[i].sizeBytes == m[j].sizeBytes {
      if i != b.blobId && j != b.blobId { assert SameDigest(blobs, i, j); }
    }
    DeclaredOfMore(blobs, b);
    if b.sha256 !in Digests(blobs) { SumWith(Declared(blobs), b.sha256, b.sizeBytes); }
  }

  lemma ReservingKeepsSession(w: World, blobs: map<Id, Blob>, b: Blob, s: Id)
    requires Admits(w, blobs, b) && SessionFits(w, blobs, s)
    ensures SessionFits(w, blobs[b.blobId := b], s)
  {
    var m := blobs[b.blobId := b];
    if s == b.session { OneMore(OfSession(blobs, s), OfSession(m, s), b.blobId); }
    else { assert OfSession(m, s) == OfSession(blobs, s); }
  }

  lemma ReservingKeepsBlobs(w: World, blobs: map<Id, Blob>, b: Blob)
    requires BlobsOk(w, blobs) && Admits(w, blobs, b)
    ensures BlobsOk(w, blobs[b.blobId := b])
  {
    var m := blobs[b.blobId := b];
    forall id | id in m ensures BlobFits(w, m, id) { if id != b.blobId { assert BlobFits(w, blobs, id); } }
    ReservingKeepsSizes(w, blobs, b);
    forall s ensures SessionFits(w, m, s) {
      assert SessionFits(w, blobs, s);
      ReservingKeepsSession(w, blobs, b, s);
    }
  }

  lemma ReservedSettlesNothing(blobs: map<Id, Blob>, b: Blob)
    requires !Settled(b) && (b.blobId in blobs ==> !Settled(blobs[b.blobId]))
    ensures SettledDigests(blobs[b.blobId := b]) == SettledDigests(blobs)
  {
    var m := blobs[b.blobId := b];
    forall d ensures d in SettledDigests(blobs) <==> d in SettledDigests(m) {
      if d in SettledDigests(blobs) {
        var id :| id in blobs && Settled(blobs[id]) && blobs[id].sha256 == d;
        assert m[id] == blobs[id];
      }
      if d in SettledDigests(m) {
        var id :| id in m && Settled(m[id]) && m[id].sha256 == d;
        assert m[id] == blobs[id];
      }
    }
  }

  lemma ReservingKeeps(w: World, t: Table, b: Blob)
    requires TableOk(w, t) && Admits(w, t.blobs, b)
    ensures TableOk(w, t.(blobs := t.blobs[b.blobId := b]))
  {
    var n := t.(blobs := t.blobs[b.blobId := b]);
    ReservingKeepsBlobs(w, t.blobs, b);
    ReservingKeepsRefs(w, t, b);
  }

  lemma ReservingKeepsRefs(w: World, t: Table, b: Blob)
    requires RefsOk(w, t) && b.blobId !in t.blobs
    ensures RefsOk(w, t.(blobs := t.blobs[b.blobId := b]))
  {
    var n := t.(blobs := t.blobs[b.blobId := b]);
    forall f | f in n.refs ensures ReferenceFits(n, f) { assert ReferenceFits(t, f); }
    forall i ensures BlobUsesFit(w, n.refs, i) { assert BlobUsesFit(w, t.refs, i); }
  }

  // The record of an existing blob is replaced; its content, owner and size stay.
  ghost predicate Replaces(t: Table, b: Blob) {
    && b.blobId in t.blobs
    && (b.state.Quarantined? <==> b.quarantineCode.Some?)
    && b.session == t.blobs[b.blobId].session && b.generation == t.blobs[b.blobId].generation
    && b.sha256 == t.blobs[b.blobId].sha256 && b.sizeBytes == t.blobs[b.blobId].sizeBytes
    && (t.blobs[b.blobId].state.Available? ==> b.state.Available?)
  }

  lemma ReplacingKeeps(w: World, t: Table, b: Blob)
    requires TableOk(w, t) && Replaces(t, b)
    ensures TableOk(w, t.(blobs := t.blobs[b.blobId := b]))
  {
    var n := t.(blobs := t.blobs[b.blobId := b]);
    forall id | id in n.blobs ensures BlobFits(w, n.blobs, id) { assert BlobFits(w, t.blobs, id); }
    DeclaredOfSame(t.blobs, n.blobs);
    assert n.blobs.Keys == t.blobs.Keys;
    forall s ensures SessionFits(w, n.blobs, s) {
      assert SessionFits(w, t.blobs, s);
      assert OfSession(n.blobs, s) == OfSession(t.blobs, s);
    }
    forall f | f in n.refs ensures ReferenceFits(n, f) { assert ReferenceFits(t, f); }
    forall i ensures BlobUsesFit(w, n.refs, i) { assert BlobUsesFit(w, t.refs, i); }
  }

  lemma RemovingBlobKeeps(w: World, t: Table, id: Id)
    requires TableOk(w, t) && RefsTo(t.refs, id) == {}
    ensures TableOk(w, t.(blobs := t.blobs - {id}))
  {
    var n := t.(blobs := t.blobs - {id});
    forall j | j in n.blobs ensures BlobFits(w, n.blobs, j) { assert BlobFits(w, t.blobs, j); }
    DeclaredOfFewer(t.blobs, id);
    assert n.blobs.Keys == t.blobs.Keys - {id};
    forall s ensures SessionFits(w, n.blobs, s) {
      assert SessionFits(w, t.blobs, s);
      SubsetSize(OfSession(n.blobs, s), OfSession(t.blobs, s));
    }
    forall f | f in n.refs ensures ReferenceFits(n, f) {
      assert ReferenceFits(t, f);
      assert t.refs[f].blobId == id ==> f in RefsTo(t.refs, id);
    }
    forall i ensures BlobUsesFit(w, n.refs, i) { assert BlobUsesFit(w, t.refs, i); }
  }

  ghost predicate AdmitsReference(w: World, t: Table, r: Reference) {
    && r.fileId !in t.refs
    && r.blobId in t.blobs && t.blobs[r.blobId].state.Available?
    && t.blobs[r.blobId].session == r.session && t.blobs[r.blobId].generation == r.generation
    && t.blobs[r.blobId].sizeBytes == r.sizeBytes && t.blobs[r.blobId].sha256 == r.sha256
    && |t.refs| < w.limits.maxReferences
    && |RefsTo(t.refs, r.blobId)| < w.limits.maxReferencesPerBlob
  }

  lemma ReferringKeeps(w: World, t: Table, r: Reference)
    requires TableOk(w, t) && AdmitsReference(w, t, r)
    ensures TableOk(w, t.(refs := t.refs[r.fileId := r]))
  {
    var n := t.(refs := t.refs[r.fileId := r]);
    forall f | f in n.refs ensures ReferenceFits(n, f) { if f != r.fileId { assert ReferenceFits(t, f); } }
    forall i ensures BlobUsesFit(w, n.refs, i) {
      assert BlobUsesFit(w, t.refs, i);
      if i == r.blobId { OneMore(RefsTo(t.refs, i), RefsTo(n.refs, i), r.fileId); }
      else { assert RefsTo(n.refs, i) == RefsTo(t.refs, i); }
    }
  }

  lemma RemovingReferenceKeeps(w: World, t: Table, f: Id)
    requires TableOk(w, t)
    ensures TableOk(w, t.(refs := t.refs - {f}))
  {
    var n := t.(refs := t.refs - {f});
    forall g | g in n.refs ensures ReferenceFits(n, g) { assert ReferenceFits(t, g); }
    assert n.refs.Keys == t.refs.Keys - {f};
    forall i ensures BlobUsesFit(w, n.refs, i) {
      assert BlobUsesFit(w, t.refs, i);
      SubsetSize(RefsTo(n.refs, i), RefsTo(t.refs, i));
    }
  }

  // ---- Single file operations -------------------------------------------------------------

  // A temporary file appears or goes; a directory appears.
  lemma LitterKeeps(w: World, d: Disk, t: Table, litter: multiset<Place>)
    requires CrashOk(w, d, t) && |litter| <= 1
    ensures CrashOk(w, d.(litter := litter), t)
  {
    var n := d.(litter := litter);
    forall id | id in n.manifests ensures ObjectThere(w, n, id) { assert ObjectThere(w, d, id); }
    forall s | s in n.json ensures BinThere(w, n, s) { assert BinThere(w, d, s); }
  }

  lemma InboxKeeps(w: World, d: Disk, t: Table, inbox: (Id, nat))
    requires CrashOk(w, d, t)
    ensures CrashOk(w, d.(inboxes := d.inboxes + {inbox}), t)
  {
    var n := d.(inboxes := d.inboxes + {inbox});
    forall id | id in n.manifests ensures ObjectThere(w, n, id) { assert ObjectThere(w, d, id); }
    forall s | s in n.json ensures BinThere(w, n, s) { assert BinThere(w, d, s); }
  }

  lemma ManifestKeeps(w: World, d: Disk, t: Table, b: Blob)
    requires CrashOk(w, d, t) && TableOk(w, t.(blobs := t.blobs[b.blobId := b]))
    requires Settled(b) ==> b.sha256 in d.objects && Holds(w, d.objects[b.sha256], b.sha256, b.sizeBytes)
    ensures CrashOk(w, d.(manifests := d.manifests[b.blobId := b], litter := multiset{}),
        t.(blobs := t.blobs[b.blobId := b]))
  {
    var n := d.(manifests := d.manifests[b.blobId := b], litter := multiset{});
    forall id | id in n.manifests ensures ObjectThere(w, n, id) { if id != b.blobId { assert ObjectThere(w, d, id); } }
    forall s | s in n.json ensures BinThere(w, n, s) { assert BinThere(w, d, s); }
  }

  lemma DroppingManifestKeeps(w: World, d: Disk, t: Table, id: Id)
    requires CrashOk(w, d, t) && TableOk(w, t.(blobs := t.blobs - {id}))
    ensures CrashOk(w, d.(manifests := d.manifests - {id}), t.(blobs := t.blobs - {id}))
  {
    var n := d.(manifests := d.manifests - {id});
    forall j | j in n.manifests ensures ObjectThere(w, n, j) { assert ObjectThere(w, d, j); }
    forall s | s in n.json ensures BinThere(w, n, s) { assert BinThere(w, d, s); }
  }

  // A digest gets its object when it has none.
  lemma ObjectKeeps(w: World, d: Disk, t: Table, sha256: Digest, c: Content)
    requires CrashOk(w, d, t) && sha256 !in d.objects && |d.objects| <= w.limits.maxBlobs
    ensures CrashOk(w, d.(objects := d.objects[sha256 := c], litter := multiset{}), t)
  {
    var n := d.(objects := d.objects[sha256 := c], litter := multiset{});
    forall id | id in n.manifests ensures ObjectThere(w, n, id) { assert ObjectThere(w, d, id); }
    forall s | s in n.json ensures BinThere(w, n, s) { assert BinThere(w, d, s); }
  }

  lemma DroppingObjectKeeps(w: World, d: Disk, t: Table, sha256: Digest)
    requires CrashOk(w, d, t) && sha256 !in SettledDigests(t.blobs)
    ensures CrashOk(w, d.(objects := d.objects - {sha256}), t)
  {
    var n := d.(objects := d.objects - {sha256});
    forall id | id in n.manifests ensures ObjectThere(w, n, id) { assert ObjectThere(w, d, id); }
    forall s | s in n.json ensures BinThere(w, n, s) { assert BinThere(w, d, s); }
    assert n.objects.Keys == d.objects.Keys - {sha256};
    SubsetSize(n.objects.Keys, d.objects.Keys);
  }

  lemma BinKeeps(w: World, d: Disk, t: Table, s: Slot, c: Content)
    requires CrashOk(w, d, t) && s !in d.bin && |d.bin| <= w.limits.maxReferences
    ensures CrashOk(w, d.(bin := d.bin[s := c]), t)
  {
    var n := d.(bin := d.bin[s := c]);
    forall id | id in n.manifests ensures ObjectThere(w, n, id) { assert ObjectThere(w, d, id); }
    forall u | u in n.json ensures BinThere(w, n, u) { assert BinThere(w, d, u); }
  }

  lemma DroppingBinKeeps(w: World, d: Disk, t: Table, s: Slot)
    requires CrashOk(w, d, t) && s !in d.json
    ensures CrashOk(w, d.(bin := d.bin - {s}), t)
  {
    var n := d.(bin := d.bin - {s});
    forall id | id in n.manifests ensures ObjectThere(w, n, id) { assert ObjectThere(w, d, id); }
    forall u | u in n.json ensures BinThere(w, n, u) { assert BinThere(w, d, u); }
    assert n.bin.Keys == d.bin.Keys - {s};
    SubsetSize(n.bin.Keys, d.bin.Keys);
  }

  lemma JsonKeeps(w: World, d: Disk, t: Table, r: Reference)
    requires CrashOk(w, d, t) && TableOk(w, t.(refs := t.refs[r.fileId := r])) && r.fileId !in t.refs
    requires SlotOf(r) in d.bin && Holds(w, d.bin[SlotOf(r)], r.sha256, r.sizeBytes)
        && (r.session, r.generation) in d.inboxes
    ensures CrashOk(w, d.(json := d.json[SlotOf(r) := r], litter := multiset{}), t.(refs := t.refs[r.fileId := r]))
  {
    var n := d.(json := d.json[SlotOf(r) := r], litter := multiset{});
    var m := t.refs[r.fileId := r];
    forall id | id in n.manifests ensures ObjectThere(w, n, id) { assert ObjectThere(w, d, id); }
    forall u | u in n.json ensures BinThere(w, n, u) { if u != SlotOf(r) { assert BinThere(w, d, u); } }
    forall f | f in m ensures Listed(m, n.json, f) { if f != r.fileId { assert Listed(t.refs, d.json, f); } }
    forall u | u in n.json ensures Known(m, n.json, u) { if u != SlotOf(r) { assert Known(t.refs, d.json, u); } }
  }

  lemma DroppingJsonKeeps(w: World, d: Disk, t: Table, f: Id)
    requires CrashOk(w, d, t) && f in t.refs
    ensures CrashOk(w, d.(json := d.json - {SlotOf(t.refs[f])}), t.(refs := t.refs - {f}))
  {
    var n := d.(json := d.json - {SlotOf(t.refs[f])});
    var m := t.refs - {f};
    RemovingReferenceKeeps(w, t, f);
    assert Listed(t.refs, d.json, f);
    forall id | id in n.manifests ensures ObjectThere(w, n, id) { assert ObjectThere(w, d, id); }
    forall u | u in n.json ensures BinThere(w, n, u) { assert BinThere(w, d, u); }
    forall g | g in m ensures Listed(m, n.json, g) { assert Listed(t.refs, d.json, g); }
    forall u | u in n.json ensures Known(m, n.json, u) { assert Known(t.refs, d.json, u); }
  }

  // ---- Clean files and quotas -----------------------------------------------------------------

  lemma {:induction false} SettledBoundedBy(blobs: map<Id, Blob>)
    ensures |SettledDigests(blobs)| <= |blobs|
    decreases |blobs|
  {
    if blobs == map[] {
      assert SettledDigests(blobs) == {};
    } else {
      var id :| id in blobs;
      var rest := blobs - {id};
      assert rest.Keys == blobs.Keys - {id};
      SettledBoundedBy(rest);
      assert SettledDigests(blobs) <= SettledDigests(rest) + {blobs[id].sha256} by {
        forall d | d in SettledDigests(blobs) && d != blobs[id].sha256 ensures d in SettledDigests(rest) {
          var j :| j in blobs && Settled(blobs[j]) && blobs[j].sha256 == d;
          assert rest[j] == blobs[j];
        }
      }
      OneMore(SettledDigests(rest), SettledDigests(blobs), blobs[id].sha256);
    }
  }

  // Distinct references have distinct files.
  lemma {:induction false} AsManyFiles(refs: map<Id, Reference>, json: map<Slot, Reference>)
    requires Mirrors(refs, json)
    ensures |json| == |refs|
    decreases |refs|
  {
    if refs == map[] {
      assert forall s | s in json :: Known(refs, json, s);
      assert json == map[];
    } else {
      var f :| f in refs;
      assert Listed(refs, json, f);
      var s := SlotOf(refs[f]);
      var refs', json' := refs - {f}, json - {s};
      forall g | g in refs' ensures Listed(refs', json', g) { assert Listed(refs, json, g); }
      forall u | u in json' ensures Known(refs', json', u) { assert Known(refs, json, u); }
      assert refs'.Keys == refs.Keys - {f} && json'.Keys == json.Keys - {s};
      AsManyFiles(refs', json');
    }
  }

  lemma CleanBounds(w: World, d: Disk, t: Table)
    requires Clean(w, d, t)
    ensures |d.objects| <= w.limits.maxBlobs && |d.bin| <= w.limits.maxReferences
  {
    SettledBoundedBy(t.blobs);
    assert |d.objects| == |d.objects.Keys| && |d.bin| == |d.bin.Keys| && |d.json| == |d.json.Keys|;
    AsManyFiles(t.refs, d.json);
  }

  ghost function ObjectSizes(d: Disk): map<Digest, nat> { map h | h in d.objects :: |d.objects[h]| }

  // Between operations the bytes of all objects stay within the quota, each object
  // has a settled blob, and its bytes have the declared size and hash.
  lemma ObjectsWithinQuota(w: World, d: Disk, t: Table)
    requires Clean(w, d, t)
    ensures SumOf(ObjectSizes(d)) <= w.limits.maxTotalBytes
    ensures forall h :: h in d.objects <==>
        exists id :: id in t.blobs && Settled(t.blobs[id]) && t.blobs[id].sha256 == h
    ensures forall id | id in t.blobs && Settled(t.blobs[id]) ::
              t.blobs[id].sha256 in d.objects
              && Holds(w, d.objects[t.blobs[id].sha256], t.blobs[id].sha256, t.blobs[id].sizeBytes)
  {
    forall h | h in d.objects ensures h in Declared(t.blobs) && Declared(t.blobs)[h] == ObjectSizes(d)[h] {
      assert h in SettledDigests(t.blobs);
      var id :| id in t.blobs && Settled(t.blobs[id]) && t.blobs[id].sha256 == h;
      assert ObjectThere(w, d, id);
      DeclaredAt(t.blobs, id);
    }
    SumMonotone(ObjectSizes(d), Declared(t.blobs));
    forall h ensures h in d.objects <==> exists id :: id in t.blobs && Settled(t.blobs[id]) && t.blobs[id].sha256 == h {
      assert h in d.objects <==> h in SettledDigests(t.blobs);
    }
    forall id | id in t.blobs && Settled(t.blobs[id])
      ensures t.blobs[id].sha256 in d.objects
              && Holds(w, d.objects[t.blobs[id].sha256], t.blobs[id].sha256, t.blobs[id].sizeBytes)
    {
      assert ObjectThere(w, d, id);
    }
  }
}
