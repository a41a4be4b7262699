/**
 The invariant that ties every stored row, and the pending batch, to the accepted push bodies, and the step
 lemmas: each transaction of an import run keeps it when the run holds the evidence the step calls for.
 */
module Coverage {
  import opened Utf8
  import opened LogEntry
  import opened Sources
  import opened Tables
  import opened Delivery
  import F = Fragments

  /** The content of the captured blob a row is attached to. */
  function BlobContent(db: Db, r: SourceRecord): Option<Bytes> {
    if r.blob.Some? && r.blob.value in db.blobs && db.blobs[r.blob.value].sha256.Some? then
      Some(db.blobs[r.blob.value].sha256.value.content)
    else None
  }

  /**
   The raw content a row's progress is counted in: its frozen blob until its live file was verified beyond it, then
   what its digest stands for.
   */
  function Base(r: SourceRecord, blob: Option<Bytes>): Option<Bytes> {
    if blob.Some? && r.provenance.verifiedRawSize <= |blob.value| then blob
    else if r.digest.Some? then Some(r.digest.value.content)
    else blob
  }

  /** Progress is truthful: every decoded byte below the stored offset was delivered under this id. */
  ghost predicate ProgressOk(codec: Codec, log: seq<Body>, id: Text, r: SourceRecord, blob: Option<Bytes>) {
    var base := Base(r, blob);
    && F.CursorOk(r.progress)
    && if base.None? then r.progress.offset == 0
       else
         var x := codec.decoded(r.identity.compression, base.value);
         r.progress.offset <= |x| && Covered(log, id, x, r.progress.offset)
  }

  /** Completion is truthful: the completed prefix of whatever the digest stands for was delivered in full. */
  ghost predicate CompletionOk(codec: Codec, log: seq<Body>, r: SourceRecord) {
    if !r.provenance.complete then r.provenance.completeSize == 0 && r.provenance.blobSha256.None?
    else
      && (r.provenance.blobSha256.Some? ==>
            Archived(codec, log, r.identity.compression, r.provenance.blobSha256.value.content))
      && r.provenance.decodedSha256.Some?
      && Delivered(log, r.provenance.decodedSha256.value.content)
      && (r.digest.Some? ==>
            var raw := r.digest.value.content;
            && r.provenance.completeSize <= |raw|
            && Archived(codec, log, r.identity.compression, raw[..r.provenance.completeSize]))
  }

  /** The digest stands for something else than the frozen blob: a plain file that grew past it. */
  predicate Outgrown(r: SourceRecord, blob: Option<Bytes>) {
    blob.Some? && r.digest.Some? && r.digest.value.content != blob.value
  }

  /** How digest, blob and sizes hang together; this is what makes the planner's choice of input safe. */
  predicate ShapeOk(r: SourceRecord, blob: Option<Bytes>) {
    if blob.None? then
      r.provenance.complete ==> r.digest.Some? && r.identity.size >= r.provenance.completeSize
    else
      && (Outgrown(r, blob) ==>
            && r.identity.compression == Plain
            && blob.value <= r.digest.value.content && |blob.value| < |r.digest.value.content|)
      && (if r.provenance.complete then
            if Outgrown(r, blob) && r.provenance.verifiedRawSize > |blob.value| then
              r.identity.size >= r.provenance.completeSize
            else r.provenance.completeSize == |blob.value|
          else r.provenance.verifiedRawSize <= |blob.value|)
  }

  /** A plain source that was completed from its frozen blob has been read to the end of the blob. */
  predicate FrozenRead(r: SourceRecord, blob: Option<Bytes>) {
    blob.Some? && r.provenance.complete && r.identity.compression == Plain ==> r.progress.offset >= |blob.value|
  }

  ghost predicate RowOk(codec: Codec, log: seq<Body>, id: Text, r: SourceRecord, blob: Option<Bytes>) {
    ProgressOk(codec, log, id, r, blob) && CompletionOk(codec, log, r) && ShapeOk(r, blob) && FrozenRead(r, blob)
  }

  ghost predicate RowsOk(codec: Codec, log: seq<Body>, db: Db) {
    forall id <- db.sources :: RowOk(codec, log, id, db.sources[id], BlobContent(db, db.sources[id]))
  }

  /** The cursor an import or a rebuild resumes a row at. */
  function ResumeAt(r: SourceRecord): F.Cursor {
    F.Cursor(r.progress.offset, if r.progress.line == 0 then 1 else r.progress.line, r.progress.fragment)
  }

  /** The fragmenter settings that go with a row and the input it is read from. */
  function SettingsFor(codec: Codec, id: Text, r: SourceRecord, frozen: bool): (st: F.Settings)
    ensures st.Usable() && st.sourceId == id
  {
    F.Settings(CanonicalPath(r), id, if frozen then r.provenance.activeAtCapture else r.identity.isActive,
               MAX_RAW_FRAGMENT, codec.shrinkTarget)
  }

  /** The row has content, and stands within it. */
  ghost predicate HasPieces(codec: Codec, r: SourceRecord, blob: Option<Bytes>) {
    Base(r, blob).Some? && r.progress.offset <= |codec.decoded(r.identity.compression, Base(r, blob).value)|
  }

  /** The fragments that remain of a row's content. */
  ghost function Pieces(codec: Codec, id: Text, r: SourceRecord, blob: Option<Bytes>): seq<F.LogFragment>
    requires HasPieces(codec, r, blob)
  {
    F.Fragments(codec.decoded(r.identity.compression, Base(r, blob).value)[r.progress.offset..], ResumeAt(r),
                SettingsFor(codec, id, r, Base(r, blob) == blob)).fragments
  }

  /**
   The pending batch is the next stretch of its source: the entries of the first fragments that remain at the
   stored offset, up to the batch's own; one that would complete the source ends where the source ends.
   */
  ghost predicate BatchOk(codec: Codec, id: Text, r: SourceRecord, blob: Option<Bytes>, batch: PendingBatch) {
    && |batch.progress| == 1 && batch.progress[0].sourceId == id
    && Base(r, blob).Some?
    && var d := batch.progress[0];
       var x := codec.decoded(r.identity.compression, Base(r, blob).value);
       && r.progress.offset <= |x|
       && var fs := Pieces(codec, id, r, blob);
          var n := |batch.body.values|;
          && 1 <= n <= |fs|
          && (forall k :: 0 <= k < n ==> batch.body.values[k].entry == fs[k].entry)
          && d.progress == fs[n - 1].next
          && (d.digest.Some? ==>
                && d.digest.value.content == Base(r, blob).value && d.progress.offset == |x|
                && codec.wellFormed(r.identity.compression, Base(r, blob).value))
          && (d.acknowledged ==> d.digest.Some?)
  }

  /** So the body carries exactly the bytes between the stored offset and the batch's own. */
  lemma BatchCovers(codec: Codec, id: Text, r: SourceRecord, blob: Option<Bytes>, batch: PendingBatch)
    requires BatchOk(codec, id, r, blob, batch)
    ensures var x := codec.decoded(r.identity.compression, Base(r, blob).value);
      && r.progress.offset < batch.progress[0].progress.offset <= |x|
      && BodyCovers(batch.body, id, x, r.progress.offset, batch.progress[0].progress.offset)
  {
    hide F.Fragments, BodyCovers, Content, EncodeEntry, F.Settings.Usable;
    var x := codec.decoded(r.identity.compression, Base(r, blob).value);
    var st := SettingsFor(codec, id, r, Base(r, blob) == blob);
    var n := |batch.body.values|;
    FragmentsCover(batch.body, x, ResumeAt(r), st, 0, n);
    F.OffsetsIncrease(x[r.progress.offset..], ResumeAt(r), st, n);
  }

  ghost predicate PendingOk(codec: Codec, db: Db) {
    db.pending.Some? ==>
      && |db.pending.value.progress| == 1
      && var id := db.pending.value.progress[0].sourceId;
         id in db.sources && BatchOk(codec, id, db.sources[id], BlobContent(db, db.sources[id]), db.pending.value)
  }

  /** No row is planned before the initial capture is complete. */
  predicate CaptureOk(db: Db) {
    !(db.capture.Some? && db.capture.value.state == CaptureComplete) ==> db.sources == map[] && db.pending.None?
  }

  /**
   A row has the frozen blob of its own id, if the manifest has one, and that blob's compression, which is also the one
   its name tells.
   */
  predicate TiedRow(capture: Option<Capture>, id: Text, r: SourceRecord) {
    && capture.Some? && WireOk(r.identity)
    && var key := BlobKey(capture.value.captureId, id);
       && r.blob == (if key in capture.value.expected then Some(key) else None)
       && (key in capture.value.expected ==> r.identity.compression == capture.value.expected[key].compression)
  }

  predicate TiesOk(db: Db) {
    forall id <- db.sources :: TiedRow(db.capture, id, db.sources[id])
  }

  /** The invariant of every reachable state of the store and the log of accepted bodies. */
  ghost predicate Inv(codec: Codec, log: seq<Body>, db: Db) {
    codec.Lawful() && RowsOk(codec, log, db) && TiesOk(db) && PendingOk(codec, db) && CaptureOk(db)
  }

  // ---- One row at a time ---------------------------------------------------------------------------

  /** Changing one row, with a new row that is in order, keeps all rows in order. */
  lemma PutRow(codec: Codec, log: seq<Body>, db: Db, id: Text, r: SourceRecord)
    requires RowsOk(codec, log, db)
    requires RowOk(codec, log, id, r, BlobContent(db, r))
    ensures RowsOk(codec, log, db.(sources := db.sources[id := r]))
  {
    hide RowOk;
    var next := db.(sources := db.sources[id := r]);
    forall k <- next.sources
      ensures RowOk(codec, log, k, next.sources[k], BlobContent(next, next.sources[k]))
    {
    }
  }

  /** Rewriting an existing row with one in order keeps the invariant while no batch is pending. */
  lemma RewriteRow(codec: Codec, log: seq<Body>, db: Db, id: Text, r: SourceRecord)
    requires Inv(codec, log, db) && db.pending.None? && id in db.sources
    requires r.blob == db.sources[id].blob && r.identity == db.sources[id].identity
    requires RowOk(codec, log, id, r, BlobContent(db, r))
    ensures Inv(codec, log, db.(sources := db.sources[id := r]))
  {
    hide RowOk;
    PutRow(codec, log, db, id, r);
  }

  /** Accepting one more body keeps every row in order. */
  lemma AcceptBody(codec: Codec, log: seq<Body>, db: Db, body: Body)
    requires Inv(codec, log, db)
    ensures Inv(codec, log + [body], db)
  {
    forall id <- db.sources
      ensures RowOk(codec, log + [body], id, db.sources[id], BlobContent(db, db.sources[id]))
    {
      AcceptBodyRow(codec, log, id, db.sources[id], BlobContent(db, db.sources[id]), body);
    }
  }

  lemma AcceptBodyRow(codec: Codec, log: seq<Body>, id: Text, r: SourceRecord, blob: Option<Bytes>, body: Body)
    requires RowOk(codec, log, id, r, blob)
    ensures RowOk(codec, log + [body], id, r, blob)
  {
    hide Covered, Delivered, ShapeOk;
    var base := Base(r, blob);
    if base.Some? {
      CoveredGrows(log, body, id, codec.decoded(r.identity.compression, base.value), r.progress.offset);
    }
    if r.provenance.complete {
      DeliveredGrows(log, body, r.provenance.decodedSha256.value.content);
      if r.provenance.blobSha256.Some? {
        DeliveredGrows(log, body, codec.decoded(r.identity.compression, r.provenance.blobSha256.value.content));
      }
      if r.digest.Some? {
        DeliveredGrows(log, body,
                       codec.decoded(r.identity.compression, r.digest.value.content[..r.provenance.completeSize]));
      }
    }
  }

  // ---- Acknowledging -------------------------------------------------------------------------------

  /** Acknowledging an accepted batch keeps the invariant: the row's progress moves over what the body covers. */
  lemma AcknowledgeKeeps(codec: Codec, log: seq<Body>, db: Db, batchId: Text, now: nat)
    requires Inv(codec, log, db) && CanAcknowledge(db, batchId)
    requires db.pending.value.body in log
    ensures Inv(codec, log, Acknowledge(db, batchId, now))
    ensures Acknowledge(db, batchId, now).pending.None?
  {
    hide RowOk, Pieces, CompressionFor;
    var batch := db.pending.value;
    var d := batch.progress[0];
    var r := db.sources[d.sourceId];
    AcknowledgeRow(codec, log, d.sourceId, r, BlobContent(db, r), batch, now);
    OneDelta(db.sources, batch.progress, now);
    PutRow(codec, log, db, d.sourceId, ApplyDelta(r, d, now));
  }

  lemma OneDelta(sources: map<Text, SourceRecord>, deltas: seq<Delta>, now: nat)
    requires |deltas| == 1 && AllKnown(sources, deltas)
    ensures ApplyDeltas(sources, deltas, now)
         == sources[deltas[0].sourceId := ApplyDelta(sources[deltas[0].sourceId], deltas[0], now)]
  {
  }

  lemma AcknowledgeRow(codec: Codec, log: seq<Body>, id: Text, r: SourceRecord, blob: Option<Bytes>,
                       batch: PendingBatch, now: nat)
    requires codec.Lawful() && RowOk(codec, log, id, r, blob) && BatchOk(codec, id, r, blob, batch) && batch.body in log
    ensures RowOk(codec, log, id, ApplyDelta(r, batch.progress[0], now), blob)
  {
    hide Covered, Delivered, BodyCovers, Pieces;
    BatchCovers(codec, id, r, blob, batch);
    var d := batch.progress[0];
    var raw := Base(r, blob).value;
    var x := codec.decoded(r.identity.compression, raw);
    BatchCursorOk(codec, id, r, blob, batch);
    CoveredJoin(log, batch.body, id, x, r.progress.offset, d.progress.offset);
    if d.digest.Some? {
      WholeDelivered(log, id, x);
      assert raw[..|raw|] == raw;
    }
  }

  lemma BatchCursorOk(codec: Codec, id: Text, r: SourceRecord, blob: Option<Bytes>, batch: PendingBatch)
    requires BatchOk(codec, id, r, blob, batch) && F.CursorOk(r.progress)
    ensures F.CursorOk(batch.progress[0].progress)
  {
    hide F.Fragments;
    var x := codec.decoded(r.identity.compression, Base(r, blob).value);
    var st := SettingsFor(codec, id, r, Base(r, blob) == blob);
    F.CursorsOk(x[r.progress.offset..], ResumeAt(r), st, |batch.body.values|);
  }

  lemma WholeDelivered(log: seq<Body>, id: Text, x: Bytes)
    requires Covered(log, id, x, |x|)
    ensures Delivered(log, x)
  {
  }

  // ---- Verifying and completing --------------------------------------------------------------------

  /** A row that counts nothing yet. */
  predicate Restarted(r: SourceRecord) {
    r.progress.offset == 0 && !r.provenance.complete
  }

  /** Whether the content behind the row's digest is the front of the file, and reached no further than was verified. */
  predicate FrontHolds(r: SourceRecord, blob: Option<Bytes>, now: Bytes) {
    && (r.digest.Some? ==> r.digest.value.content <= now || (blob.None? && Restarted(r)))
    && (blob.Some? ==> IsPrefixComplete(r) && (Outgrown(r, blob) ==> r.provenance.verifiedRawSize > |blob.value|))
  }

  /** Recording how far the live file was verified keeps the row in order and what it counts in. */
  lemma VerifiedSizeRow(codec: Codec, log: seq<Body>, id: Text, r: SourceRecord, blob: Option<Bytes>, now: Bytes,
                        next: SourceRecord)
    requires RowOk(codec, log, id, r, blob) && FrontHolds(r, blob, now)
    requires next.identity == r.identity && next.digest == r.digest && next.progress == r.progress
    requires next.provenance == r.provenance.WithVerification(|now|, next.provenance.coverageConflict)
    ensures Base(next, blob) == Base(r, blob)
    ensures RowOk(codec, log, id, next, blob) && FrontHolds(next, blob, now)
  {
    hide Covered, Delivered, Archived;
  }

  /**
   Replacing a digest by that of the file as it now is keeps the row in order, provided the content behind the
   old digest was found at the front of the file.
   */
  lemma VerifiedRow(codec: Codec, log: seq<Body>, id: Text, r: SourceRecord, blob: Option<Bytes>, now: Bytes)
    requires codec.Lawful() && RowOk(codec, log, id, r, blob) && FrontHolds(r, blob, now)
    requires |now| == r.identity.size && r.provenance.verifiedRawSize == |now|
    requires blob.Some? ==> |now| == r.provenance.completeSize
                            || (r.identity.compression == Plain && |now| > r.provenance.completeSize)
    ensures RowOk(codec, log, id, r.(digest := Some(Sha256(now))), blob)
    ensures blob.None? || |now| > r.provenance.completeSize ==>
      Base(r.(digest := Some(Sha256(now))), blob) == Some(now) && blob != Some(now)
  {
    hide Covered, Delivered, Archived;
    var next := r.(digest := Some(Sha256(now)));
    assert CompletionOk(codec, log, next) by {
      VerifiedCompletion(codec, log, r, blob, now);
    }
    VerifiedProgress(codec, log, id, r, blob, now);
  }

  lemma VerifiedCompletion(codec: Codec, log: seq<Body>, r: SourceRecord, blob: Option<Bytes>, now: Bytes)
    requires CompletionOk(codec, log, r) && ShapeOk(r, blob) && FrontHolds(r, blob, now)
    requires blob.Some? ==> |now| >= r.provenance.completeSize
    ensures CompletionOk(codec, log, r.(digest := Some(Sha256(now))))
  {
    hide Archived;
    if r.provenance.complete {
      var before := r.digest.value.content;
      assert before[..r.provenance.completeSize] == now[..r.provenance.completeSize];
    }
  }

  lemma VerifiedProgress(codec: Codec, log: seq<Body>, id: Text, r: SourceRecord, blob: Option<Bytes>, now: Bytes)
    requires codec.Lawful() && ProgressOk(codec, log, id, r, blob) && ShapeOk(r, blob) && FrontHolds(r, blob, now)
    requires r.provenance.verifiedRawSize == |now|
    ensures ProgressOk(codec, log, id, r.(digest := Some(Sha256(now))), blob)
  {
    hide Covered;
    var c := r.identity.compression;
    if blob.None? || |now| > |blob.value| {
      if r.digest.Some? && !Restarted(r) {
        CoveredPrefix(log, id, codec.decoded(c, now), codec.decoded(c, r.digest.value.content), r.progress.offset);
      } else {
        CoveredNothing(log, id, codec.decoded(c, now));
      }
    }
  }

  lemma CoveredNothing(log: seq<Body>, id: Text, x: Bytes)
    ensures Covered(log, id, x, 0)
  {
  }

  /** A row that starts over keeps its old digest and its own blob, and is in order all the same. */
  lemma RestartedRow(codec: Codec, log: seq<Body>, id: Text, r: SourceRecord, blob: Option<Bytes>, next: SourceRecord)
    requires codec.Lawful() && RowOk(codec, log, id, r, blob)
    requires next.digest == r.digest && Restarted(next) && F.CursorOk(next.progress)
          && next.provenance.completeSize == 0
    requires next.provenance.blobSha256.None? && next.provenance.verifiedRawSize == 0
    requires blob.Some? ==> next.identity.compression == r.identity.compression
    ensures RowOk(codec, log, id, next, blob)
  {
    hide Archived;
  }

  /** A row whose whole content was delivered may be marked complete at that size. */
  lemma CompletedRow(codec: Codec, log: seq<Body>, id: Text, r: SourceRecord, blob: Option<Bytes>, raw: Bytes,
                     next: SourceRecord)
    requires codec.Lawful() && RowOk(codec, log, id, r, blob) && Base(r, blob) == Some(raw)
    requires Archived(codec, log, r.identity.compression, raw)
    requires var x := codec.decoded(r.identity.compression, raw);
      && next.provenance.complete && next.provenance.completeSize == |raw|
      && next.provenance.decodedSha256 == Some(Sha256(x))
      && next.provenance.blobSha256 in {r.provenance.blobSha256, Some(Sha256(raw))}
      && next.provenance.verifiedRawSize == r.provenance.verifiedRawSize
    requires next.identity.compression == r.identity.compression
    requires blob != Some(raw) ==> next.identity.size >= |raw|
    requires next.digest == r.digest && next.progress == r.progress
    requires r.identity.compression == Plain ==> r.progress.offset == |raw|
    ensures RowOk(codec, log, id, next, blob) && Base(next, blob) == Some(raw)
  {
    hide Covered, Delivered;
    assert raw[..|raw|] == raw;
    if r.digest.Some? && r.digest.value.content != raw {
      assert r.digest.value.content[..|raw|] == raw;
    }
  }

  /** Recording the digest of the content a row already counts its progress in. */
  lemma DigestedRow(codec: Codec, log: seq<Body>, id: Text, r: SourceRecord, blob: Option<Bytes>, raw: Bytes)
    requires codec.Lawful() && RowOk(codec, log, id, r, blob) && Base(r, blob) == Some(raw)
    requires Archived(codec, log, r.identity.compression, raw) && r.provenance.completeSize == |raw|
    ensures RowOk(codec, log, id, r.(digest := Some(Sha256(raw))), blob)
    ensures Base(r.(digest := Some(Sha256(raw))), blob) == Some(raw)
  {
    hide Covered, Archived;
    assert raw[..|raw|] == raw;
  }

  /** Flags and timestamps play no part in the invariant. */
  lemma MarkedRow(codec: Codec, log: seq<Body>, id: Text, r: SourceRecord, blob: Option<Bytes>, next: SourceRecord)
    requires RowOk(codec, log, id, r, blob)
    requires next.identity == r.identity && next.digest == r.digest && next.progress == r.progress
    requires next.provenance.complete == r.provenance.complete
    requires next.provenance.completeSize == r.provenance.completeSize
    requires next.provenance.decodedSha256 == r.provenance.decodedSha256
    requires next.provenance.blobSha256 == r.provenance.blobSha256
    requires next.provenance.verifiedRawSize == r.provenance.verifiedRawSize
    ensures RowOk(codec, log, id, next, blob)
  {
    hide Covered, Delivered, Archived;
  }

  // ---- Deleting ------------------------------------------------------------------------------------

  /**
   The end-to-end guarantee: when a stored digest stands for content of the completed size, that content decodes to
   its end and all it decodes to was delivered, so a file with that digest and size holds no byte that cannot be
   read back from the log store.
   */
  lemma DigestOfCompletedSizeIsDelivered(codec: Codec, log: seq<Body>, db: Db, id: Text, file: Bytes)
    requires Inv(codec, log, db) && id in db.sources
    requires db.sources[id].digest == Some(Sha256(file))
    requires db.sources[id].provenance.completeSize == |file|
    ensures Archived(codec, log, db.sources[id].identity.compression, file)
  {
    hide Delivered, ProgressOk, ShapeOk;
    var r := db.sources[id];
    assert RowOk(codec, log, id, r, BlobContent(db, r));
    if r.provenance.complete {
      assert file[..|file|] == file;
    } else {
      assert file == [];
      DeliveredEmpty(log);
    }
  }
}
