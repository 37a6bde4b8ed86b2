/**
 Runs of the blob store: what any sequence of operations makes of the committed records
 (src/blob-store.ts:298-684). Every method of the store performs its step of such a run.
 */
module BlobRuns {
  import opened Wrappers
  import opened BlobDisk
  import opened BlobStore

  datatype Op =
    | Reserve(reservation: Reservation, now: Time)
    | Upload(id: Id, session: Id, generation: nat, key: Id, chunks: seq<Content>, broken: bool, policy: Policy,
        now: Time)
    | Materialize(input: UploadInput, now: Time)
    | DeleteBlob(id: Id, session: Id, generation: nat)
    | DeleteReference(fileId: Id, session: Id, generation: nat, now: Time)
    | DeleteGeneration(session: Id, generation: nat)
    | Prune(now: Time)      // a start ends with one

  ghost function Uploaded(w: World, p: Table, op: Op): Table
    requires op.Upload?
  {
    if UploadRefusal(p.blobs, op.id, op.session, op.generation, op.key, op.now).Some? then p
    else
      var b := p.blobs[op.id];
      var keyed := b.(uploadKey := Some(op.key));
      if Settled(b) then p
      else if ContentRefusal(w, b, op.chunks, op.broken).Some? then p.(blobs := p.blobs[op.id := keyed])
      else p.(blobs := p.blobs[op.id := SettledAs(keyed, op.policy, op.now, w.limits.blobTtl)])
  }

  ghost function Applied(w: World, t: Table, op: Op): Table {
    match op
    case Reserve(r, now) =>
      var p := Pruned(t, now);
      if Refusal(w, p.blobs, r).Some? || r.blobId in p.blobs then p
      else p.(blobs := p.blobs[r.blobId := NewBlob(r, now, w.limits.reservationTtl)])
    case Upload(_, _, _, _, _, _, _, now) => Uploaded(w, Pruned(t, now), op)
    case Materialize(u, now) =>
      var p := Pruned(t, now);
      if ReferenceRefusal(w, p, u, now).Some? || u.fileId in p.refs || u.blobId !in p.blobs then p
      else p.(refs := p.refs[u.fileId := NewReference(u, p.blobs[u.blobId], now, w.limits.referenceTtl)])
    case DeleteBlob(id, session, generation) =>
      if id in t.blobs && t.blobs[id].session == session && t.blobs[id].generation == generation
         && RefsTo(t.refs, id) == {}
      then t.(blobs := t.blobs - {id}) else t
    case DeleteReference(f, session, generation, now) =>
      if f in t.refs && t.refs[f].session == session && t.refs[f].generation == generation
      then Pruned(t.(refs := t.refs - {f}), now) else t
    case DeleteGeneration(session, generation) =>
      Table(OutsideBlobs(t.blobs, session, generation), OutsideRefs(t.refs, session, generation))
    case Prune(now) => Pruned(t, now)
  }

  // The store performs the step.
  method Perform(store: FileBlobStore, op: Op)
    requires store.Valid()
    modifies store
    ensures store.Valid() && store.Records() == Applied(store.w, old(store.Records()), op)
  {
    hide FileBlobStore.Valid, Refusal, ReferenceRefusal, UploadRefusal, ContentRefusal, Pruned, SettledAs, NewBlob,
      NewReference;
    match op
    case Reserve(r, now) => var _ := store.Reserve(r, now);
    case Upload(id, session, generation, key, chunks, broken, policy, now) =>
      var _ := store.UploadContent(id, session, generation, key, chunks, broken, policy, now);
    case Materialize(u, now) => var _ := store.Materialize(u, now);
    case DeleteBlob(id, session, generation) => var _ := store.DeleteBlob(id, session, generation);
    case DeleteReference(f, session, generation, now) => var _ := store.DeleteReference(f, session, generation, now);
    case DeleteGeneration(session, generation) => var _ := store.DeleteGeneration(session, generation);
    case Prune(now) => var _ := store.Prune(now);
  }

  ghost function Runs(w: World, t: Table, ops: seq<Op>): Table
    decreases |ops|
  {
    if ops == [] then t else Applied(w, Runs(w, t, ops[..|ops| - 1]), ops[|ops| - 1])
  }

  // ---- When a record goes ------------------------------------------------------------------

  // At `now` the blob has expired, and so has every reference to it but perhaps `gone`.
  ghost predicate Forgotten(t: Table, id: Id, now: Time, gone: set<Id>)
    requires id in t.blobs
  {
    t.blobs[id].expiresAt <= now
    && forall f | f in t.refs && t.refs[f].blobId == id :: f in gone || t.refs[f].expiresAt <= now
  }

  // The operation drops blob `id`.
  ghost predicate Drops(t: Table, op: Op, id: Id)
    requires id in t.blobs
  {
    var b := t.blobs[id];
    match op
    case DeleteBlob(i, session, generation) =>
      i == id && b.session == session && b.generation == generation && forall f | f in t.refs :: t.refs[f].blobId != id
    case DeleteGeneration(session, generation) => b.session == session && b.generation == generation
    case DeleteReference(f, session, generation, now) =>
      f in t.refs && t.refs[f].session == session && t.refs[f].generation == generation && Forgotten(t, id, now, {f})
    case _ => Forgotten(t, id, op.now, {})
  }

  // ... or reference `f`.
  ghost predicate DropsReference(t: Table, op: Op, f: Id)
    requires f in t.refs
  {
    var r := t.refs[f];
    match op
    case DeleteBlob(_, _, _) => false
    case DeleteGeneration(session, generation) => r.session == session && r.generation == generation
    case DeleteReference(g, session, generation, now) =>
      g in t.refs && t.refs[g].session == session && t.refs[g].generation == generation
      && (g == f || r.expiresAt <= now)
    case _ => r.expiresAt <= op.now
  }

  // A blob keeps its content and its owner, its upload key, and once settled all of it.
  predicate Forward(b: Blob, b': Blob) {
    && b'.blobId == b.blobId && b'.session == b.session && b'.generation == b.generation && b'.metadata == b.metadata
    && b'.sizeBytes == b.sizeBytes && b'.sha256 == b.sha256 && b'.createdAt == b.createdAt
    && b.revision <= b'.revision
    && (b.uploadKey.Some? ==> b'.uploadKey == b.uploadKey)
    && (Settled(b) ==> b' == b)
  }

  lemma PrunedBlob(t: Table, now: Time, id: Id)
    requires id in t.blobs
    ensures id in Pruned(t, now).blobs <==> !Forgotten(t, id, now, {})
    ensures id in Pruned(t, now).blobs ==> Pruned(t, now).blobs[id] == t.blobs[id]
  {
    var refs := Unexpired(t.refs, now);
    if f :| f in t.refs && t.refs[f].blobId == id && t.refs[f].expiresAt > now { assert f in RefsTo(refs, id); }
    if RefsTo(refs, id) != {} { var f :| f in RefsTo(refs, id); }
  }

  lemma UploadMoves(w: World, p: Table, op: Op, id: Id)
    requires op.Upload? && id in p.blobs
    ensures id in Uploaded(w, p, op).blobs && Forward(p.blobs[id], Uploaded(w, p, op).blobs[id])
    ensures Uploaded(w, p, op).refs == p.refs && Uploaded(w, p, op).blobs.Keys == p.blobs.Keys
  {
    hide ContentRefusal;
  }

  // A blob goes if and only if it was deleted, or expired without a reference that has not;
  // until then it only moves forward.
  lemma DropsExactly(w: World, t: Table, op: Op, id: Id)
    requires id in t.blobs
    ensures
      var n := Applied(w, t, op);
      if Drops(t, op, id) then id !in n.blobs || (op.Reserve? && op.reservation.blobId == id)
      else id in n.blobs && Forward(t.blobs[id], n.blobs[id])
  {
    hide Refusal, ReferenceRefusal, Uploaded;
    match op
    case DeleteBlob(i, _, _) =>
      if RefsTo(t.refs, id) != {} { var f :| f in RefsTo(t.refs, id); }
      if f :| f in t.refs && t.refs[f].blobId == id { assert f in RefsTo(t.refs, id); }
    case DeleteGeneration(_, _) =>
    case DeleteReference(f, _, _, now) => PrunedBlob(t.(refs := t.refs - {f}), now, id);
    case Upload(_, _, _, _, _, _, _, now) =>
      PrunedBlob(t, now, id);
      KeysOfUpload(w, Pruned(t, now), op);
      if id in Pruned(t, now).blobs { UploadMoves(w, Pruned(t, now), op, id); }
    case _ => PrunedBlob(t, op.now, id);
  }

  lemma KeysOfUpload(w: World, p: Table, op: Op)
    requires op.Upload?
    ensures Uploaded(w, p, op).refs == p.refs && Uploaded(w, p, op).blobs.Keys == p.blobs.Keys
  {
    hide ContentRefusal;
  }

  // A reference goes if and only if it was deleted or expired, and until then it stays as it is.
  lemma DropsReferenceExactly(w: World, t: Table, op: Op, f: Id)
    requires f in t.refs
    ensures
      var n := Applied(w, t, op);
      if DropsReference(t, op, f) then f !in n.refs || (op.Materialize? && op.input.fileId == f)
      else f in n.refs && n.refs[f] == t.refs[f]
  {
    hide Refusal, ReferenceRefusal, Uploaded;
    if op.Upload? { KeysOfUpload(w, Pruned(t, op.now), op); }
  }

  ghost predicate NeverDropped(w: World, t: Table, ops: seq<Op>, id: Id) {
    forall k | 0 <= k < |ops| ::
      var s := Runs(w, t, ops[..k]);
      id in s.blobs ==> !Drops(s, ops[k], id)
  }

  lemma ForwardOn(a: Blob, b: Blob, c: Blob)
    requires Forward(a, b) && Forward(b, c)
    ensures Forward(a, c)
  {
  }

  lemma {:induction false} RunMovesForward(w: World, t: Table, ops: seq<Op>, id: Id)
    requires id in t.blobs && NeverDropped(w, t, ops, id)
    ensures id in Runs(w, t, ops).blobs && Forward(t.blobs[id], Runs(w, t, ops).blobs[id])
    decreases |ops|
  {
    if ops != [] {
      hide Applied, Drops, Forward;
      var but := ops[..|ops| - 1];
      forall k | 0 <= k < |but| ensures id in Runs(w, t, but[..k]).blobs ==> !Drops(Runs(w, t, but[..k]), but[k], id) {
        assert but[..k] == ops[..k];
      }
      RunMovesForward(w, t, but, id);
      var s := Runs(w, t, but);
      DropsExactly(w, s, ops[|ops| - 1], id);
      ForwardOn(t.blobs[id], s.blobs[id], Runs(w, t, ops).blobs[id]);
    } else {
      assert Forward(t.blobs[id], t.blobs[id]);
    }
  }

  // ---- Quarantined content is never handed out ---------------------------------------------------

  // Every reference is to an available blob of its session and generation.
  ghost predicate RefsFit(t: Table) {
    forall f {:trigger ReferenceFits(t, f)} | f in t.refs :: ReferenceFits(t, f)
  }

  lemma PrunedRefsFit(t: Table, now: Time)
    requires RefsFit(t)
    ensures RefsFit(Pruned(t, now))
  {
    var p := Pruned(t, now);
    forall f | f in p.refs ensures ReferenceFits(p, f) {
      assert ReferenceFits(t, f) && f in RefsTo(p.refs, t.refs[f].blobId);
    }
  }

  ghost predicate SameBlob(t: Table, n: Table, id: Id) { id in t.blobs && id in n.blobs && n.blobs[id] == t.blobs[id] }

  // Nothing referred to changes.
  lemma UnreferredMayChange(t: Table, n: Table)
    requires RefsFit(t)
    requires forall f | f in n.refs :: f in t.refs && n.refs[f] == t.refs[f]
    requires forall f | f in n.refs :: SameBlob(t, n, n.refs[f].blobId)
    ensures RefsFit(n)
  {
    forall f | f in n.refs ensures ReferenceFits(n, f) { assert ReferenceFits(t, f); }
  }

  lemma UploadRefsFit(w: World, p: Table, op: Op)
    requires RefsFit(p) && op.Upload?
    ensures RefsFit(Uploaded(w, p, op))
  {
    var n := Uploaded(w, p, op);
    KeysOfUpload(w, p, op);
    forall f | f in n.refs ensures SameBlob(p, n, n.refs[f].blobId) {
      assert ReferenceFits(p, f);
      UploadMoves(w, p, op, p.refs[f].blobId);
    }
    hide Uploaded;
    UnreferredMayChange(p, n);
  }

  lemma ReferringFits(w: World, p: Table, u: UploadInput, now: Time)
    requires RefsFit(p) && ReferenceRefusal(w, p, u, now).None? && u.fileId !in p.refs
    ensures u.blobId in p.blobs
    ensures RefsFit(p.(refs := p.refs[u.fileId := NewReference(u, p.blobs[u.blobId], now, w.limits.referenceTtl)]))
  {
    var n := p.(refs := p.refs[u.fileId := NewReference(u, p.blobs[u.blobId], now, w.limits.referenceTtl)]);
    forall f | f in n.refs ensures ReferenceFits(n, f) { if f != u.fileId { assert ReferenceFits(p, f); } }
  }

  lemma AppliedRefsFit(w: World, t: Table, op: Op)
    requires RefsFit(t)
    ensures RefsFit(Applied(w, t, op))
  {
    hide RefsFit, Refusal, ReferenceRefusal, Pruned, Uploaded;
    match op
    case Reserve(r, now) =>
      PrunedRefsFit(t, now);
      if r.blobId !in Pruned(t, now).blobs { ReservedRefsFit(Pruned(t, now), r, now, w.limits.reservationTtl); }
    case Upload(_, _, _, _, _, _, _, now) =>
      PrunedRefsFit(t, now);
      UploadRefsFit(w, Pruned(t, now), op);
    case Materialize(u, now) =>
      PrunedRefsFit(t, now);
      var p := Pruned(t, now);
      if ReferenceRefusal(w, p, u, now).None? && u.fileId !in p.refs { ReferringFits(w, p, u, now); }
    case DeleteReference(f, _, _, now) =>
      WithoutRefFits(t, f);
      PrunedRefsFit(t.(refs := t.refs - {f}), now);
    case Prune(now) => PrunedRefsFit(t, now);
    case _ => DeletedRefsFit(w, t, op);
  }

  lemma ReservedRefsFit(p: Table, r: Reservation, now: Time, ttl: nat)
    requires RefsFit(p) && r.blobId !in p.blobs
    ensures RefsFit(p.(blobs := p.blobs[r.blobId := NewBlob(r, now, ttl)]))
  {
    forall f | f in p.refs ensures p.refs[f].blobId in p.blobs { assert ReferenceFits(p, f); }
    UnreferredMayChange(p, p.(blobs := p.blobs[r.blobId := NewBlob(r, now, ttl)]));
  }

  lemma WithoutRefFits(t: Table, f: Id)
    requires RefsFit(t)
    ensures RefsFit(t.(refs := t.refs - {f}))
  {
    forall g | g in t.refs ensures t.refs[g].blobId in t.blobs { assert ReferenceFits(t, g); }
    UnreferredMayChange(t, t.(refs := t.refs - {f}));
  }

  lemma DeletedRefsFit(w: World, t: Table, op: Op)
    requires RefsFit(t) && (op.DeleteBlob? || op.DeleteGeneration?)
    ensures RefsFit(Applied(w, t, op))
  {
    var n := Applied(w, t, op);
    forall f | f in n.refs ensures SameBlob(t, n, n.refs[f].blobId) {
      assert ReferenceFits(t, f) && f in RefsTo(t.refs, t.refs[f].blobId);
    }
    UnreferredMayChange(t, n);
  }

  lemma {:induction false} RunRefsFit(w: World, t: Table, ops: seq<Op>)
    requires RefsFit(t)
    ensures RefsFit(Runs(w, t, ops))
    decreases |ops|
  {
    if ops != [] {
      hide RefsFit, Applied;
      RunRefsFit(w, t, ops[..|ops| - 1]);
      AppliedRefsFit(w, Runs(w, t, ops[..|ops| - 1]), ops[|ops| - 1]);
    }
  }

  // A blob whose content the policy quarantined keeps its code and is referred to by nothing,
  // over any run of operations that does not drop the blob itself.
  lemma QuarantinedIsNeverReferred(w: World, t: Table, ops: seq<Op>, id: Id)
    requires RefsFit(t) && id in t.blobs && t.blobs[id].state.Quarantined? && NeverDropped(w, t, ops, id)
    ensures
      var n := Runs(w, t, ops);
      id in n.blobs && n.blobs[id] == t.blobs[id] && forall f | f in n.refs :: n.refs[f].blobId != id
  {
    hide NeverDropped;
    RunMovesForward(w, t, ops, id);
    RunRefsFit(w, t, ops);
    var n := Runs(w, t, ops);
    forall f | f in n.refs ensures n.refs[f].blobId != id { assert ReferenceFits(n, f); }
  }

  // ... and whoever asks for a reference to it is told so.
  lemma QuarantinedIsRefused(w: World, t: Table, u: UploadInput, now: Time)
    requires u.blobId in t.blobs && t.blobs[u.blobId].state.Quarantined? && !Forgotten(t, u.blobId, now, {})
    requires t.blobs[u.blobId].session == u.session && t.blobs[u.blobId].generation == u.generation
    requires u.fileId !in t.refs
    ensures ReferenceRefusal(w, Pruned(t, now), u, now) == Some(QuarantinedBlob)
  {
    PrunedBlob(t, now, u.blobId);
  }

  // ---- Sessions are kept apart ------------------------------------------------------------------

  // The operation is of this session and generation, or of none.
  predicate Concerns(op: Op, session: Id, generation: nat) {
    match op
    case Reserve(r, _) => r.session == session && r.generation == generation
    case Materialize(u, _) => u.session == session && u.generation == generation
    case Prune(_) => false
    case _ => op.session == session && op.generation == generation
  }

  // The clock by which the operation prunes, if it does.
  predicate Prunes(op: Op, at: Time) {
    match op
    case DeleteBlob(_, _, _) => false
    case DeleteGeneration(_, _) => false
    case _ => op.now >= at
  }

  // Whatever one session does with whatever ids: an unexpired blob or reference of another session
  // or generation stays exactly as it is.
  lemma SessionsApart(w: World, t: Table, op: Op, id: Id, f: Id)
    requires RefsFit(t)
    ensures id in t.blobs && !Concerns(op, t.blobs[id].session, t.blobs[id].generation)
            && !Prunes(op, t.blobs[id].expiresAt) ==>
              id in Applied(w, t, op).blobs && Applied(w, t, op).blobs[id] == t.blobs[id]
    ensures f in t.refs && !Concerns(op, t.refs[f].session, t.refs[f].generation)
            && !Prunes(op, t.refs[f].expiresAt) ==>
              f in Applied(w, t, op).refs && Applied(w, t, op).refs[f] == t.refs[f]
  {
    if id in t.blobs && !Concerns(op, t.blobs[id].session, t.blobs[id].generation)
       && !Prunes(op, t.blobs[id].expiresAt) {
      DropsExactly(w, t, op, id);
      if op.Upload? {
        PrunedBlob(t, op.now, id);
        OthersUpload(w, Pruned(t, op.now), op, id);
      } else {
        BlobApart(w, t, op, id);
      }
    }
    if f in t.refs { DropsReferenceExactly(w, t, op, f); }
  }

  lemma BlobApart(w: World, t: Table, op: Op, id: Id)
    requires id in t.blobs && !op.Upload? && !Drops(t, op, id)
    ensures id in Applied(w, t, op).blobs && Applied(w, t, op).blobs[id] == t.blobs[id]
  {
    DropsExactly(w, t, op, id);
    if !op.DeleteBlob? && !op.DeleteGeneration? { PrunedBlob(t, op.now, id); }
    if op.DeleteReference? { PrunedBlob(t.(refs := t.refs - {op.fileId}), op.now, id); }
    hide Refusal, ReferenceRefusal, Pruned, RefsTo;
  }

  lemma OthersUpload(w: World, p: Table, op: Op, id: Id)
    requires op.Upload? && id in p.blobs
    requires p.blobs[id].session != op.session || p.blobs[id].generation != op.generation
    ensures id in Uploaded(w, p, op).blobs && Uploaded(w, p, op).blobs[id] == p.blobs[id]
  {
    hide ContentRefusal;
  }

  // Every upload is judged by its content alone.
  ghost predicate Follows(w: World, t: Table, ops: seq<Op>, verdict: Digest -> Policy) {
    forall k | 0 <= k < |ops| && ops[k].Upload? ::
      var s := Runs(w, t, ops[..k]);
      ops[k].id in s.blobs ==> ops[k].policy == verdict(s.blobs[ops[k].id].sha256)
  }

  ghost predicate Judged(t: Table, verdict: Digest -> Policy) {
    forall id | id in t.blobs && Settled(t.blobs[id]) ::
      t.blobs[id].state.Available? <==> verdict(t.blobs[id].sha256).Allow?
  }

  lemma JudgedStep(w: World, t: Table, op: Op, verdict: Digest -> Policy)
    requires Judged(t, verdict)
    requires op.Upload? && op.id in t.blobs ==> op.policy == verdict(t.blobs[op.id].sha256)
    ensures Judged(Applied(w, t, op), verdict)
  {
    hide Refusal, ReferenceRefusal, ContentRefusal, RefsTo;
  }

  lemma {:induction false} RunIsJudged(w: World, t: Table, ops: seq<Op>, verdict: Digest -> Policy)
    requires Judged(t, verdict) && Follows(w, t, ops, verdict)
    ensures Judged(Runs(w, t, ops), verdict)
    decreases |ops|
  {
    if ops != [] {
      hide Judged, Applied;
      var but, last := ops[..|ops| - 1], ops[|ops| - 1];
      forall k | 0 <= k < |but| && but[k].Upload?
        ensures var s := Runs(w, t, but[..k]);
                but[k].id in s.blobs ==> but[k].policy == verdict(s.blobs[but[k].id].sha256)
      {
        assert but[..k] == ops[..k];
      }
      RunIsJudged(w, t, but, verdict);
      JudgedStep(w, Runs(w, t, but), last, verdict);
    }
  }

  const NO_RECORDS := Table(map[], map[])

  // Where the policy judges by content, no run of operations from an empty store, through
  // whatever aliases, ever hands out content that the policy refuses.
  lemma RefusedContentIsNeverReferred(w: World, ops: seq<Op>, verdict: Digest -> Policy, f: Id)
    requires Follows(w, NO_RECORDS, ops, verdict) && f in Runs(w, NO_RECORDS, ops).refs
    ensures verdict(Runs(w, NO_RECORDS, ops).refs[f].sha256).Allow?
  {
    RunIsJudged(w, NO_RECORDS, ops, verdict);
    RunRefsFit(w, NO_RECORDS, ops);
    assert ReferenceFits(Runs(w, NO_RECORDS, ops), f);
  }

  // ---- Retries --------------------------------------------------------------------------------

  // After a reservation was granted, a repeated one is granted and changes nothing, over any run
  // and at any time that does not drop the blob, uploaded or not.
  lemma ReservationRepeats(w: World, t: Table, r: Reservation, now: Time, ops: seq<Op>, later: Time)
    requires
      var p := Pruned(t, now);
      Refusal(w, p.blobs, r).None? && r.blobId !in p.blobs
    requires NeverDropped(w, Applied(w, t, Reserve(r, now)), ops, r.blobId)
    ensures r.blobId in Applied(w, t, Reserve(r, now)).blobs
    ensures
      var n := Runs(w, Applied(w, t, Reserve(r, now)), ops);
      r.blobId in n.blobs && (!Forgotten(n, r.blobId, later, {}) ==>
        && Refusal(w, Pruned(n, later).blobs, r).None? && r.blobId in Pruned(n, later).blobs
        && Applied(w, n, Reserve(r, later)) == Pruned(n, later))
  {
    var a := Applied(w, t, Reserve(r, now));
    assert a.blobs[r.blobId] == NewBlob(r, now, w.limits.reservationTtl);
    assert r.sizeBytes <= w.limits.maxBlobBytes;
    hide NeverDropped, Applied, Pruned;
    RunMovesForward(w, a, ops, r.blobId);
    var n := Runs(w, a, ops);
    PrunedBlob(n, later, r.blobId);
  }

  // After content was taken under a key, the same upload is answered with the settled blob and
  // changes nothing, and an upload under another key is refused.
  lemma UploadRepeats(w: World, t: Table, id: Id, key: Id, ops: seq<Op>, other: Id, later: Time)
    requires id in t.blobs && Settled(t.blobs[id]) && t.blobs[id].uploadKey == Some(key)
    requires NeverDropped(w, t, ops, id)
    ensures
      var n, b := Runs(w, t, ops), t.blobs[id];
      id in n.blobs && (!Forgotten(n, id, later, {}) ==>
        && id in Pruned(n, later).blobs && Pruned(n, later).blobs[id] == b
        && UploadRefusal(Pruned(n, later).blobs, id, b.session, b.generation, other, later)
           == if other == key then None else Some(BlobError.KeyConflict))
  {
    hide NeverDropped, Pruned;
    RunMovesForward(w, t, ops, id);
    PrunedBlob(Runs(w, t, ops), later, id);
  }
}
