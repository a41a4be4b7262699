/** The checkpoint store, whose methods are the transactions. */
module Checkpoint {
  import opened LogEntry
  import opened Sources
  import opened Tables

  /** The checkpoint store. Every method is one transaction: it takes effect as a whole or not at all. */
  class CheckpointStore {
    var sources: map<Text, SourceRecord>
    var pending: Option<PendingBatch>
    var blobs: map<BlobKey, BlobState>
    var capture: Option<Capture>
    var intents: map<IntentKey, PruneIntent>

    function State(): Db
      reads this
    {
      Db(sources, pending, blobs, capture, intents)
    }

    constructor ()
      ensures State() == Db(map[], None, map[], None, map[])
    {
      sources, pending, blobs, capture, intents := map[], None, map[], None, map[];
    }

    method RecordSource(id: Text, identity: Wire, provenance: Option<Provenance>, aliases: Option<seq<Alias>>,
                        inInitialManifest: bool, blob: Option<BlobKey>, digest: Option<Digest>, reset: bool, now: nat)
      modifies this`sources
      ensures State() == Tables.RecordSource(old(State()), id, identity, provenance, aliases, inInitialManifest,
                                                 blob, digest, reset, now)
    {
      var db := Tables.RecordSource(State(), id, identity, provenance, aliases, inInitialManifest, blob, digest, reset,
                                    now);
      sources := db.sources;
    }

    method SetSourceDigest(id: Text, digest: Digest, now: nat) returns (ok: bool)
      modifies this`sources
      ensures ok == (id in old(sources))
      ensures State() == if ok then SetDigest(old(State()), id, digest, now) else old(State())
    {
      ok := id in sources;
      if ok {
        sources := sources[id := sources[id].(digest := Some(digest), updatedNs := now)];
      }
    }

    method MarkSourceAcknowledged(id: Text, now: nat) returns (ok: bool)
      modifies this`sources
      ensures ok == (id in old(sources))
      ensures State() == if ok then MarkAcknowledged(old(State()), id, now) else old(State())
    {
      ok := id in sources;
      if ok {
        sources := sources[id := sources[id].(acknowledged := true, updatedNs := now)];
      }
    }

    /** Persist the exact outbound body before it is sent; refused while a different batch is pending. */
    method SavePendingBatch(batch: PendingBatch) returns (ok: bool)
      modifies this`pending
      ensures ok == (batch.progress != [] && DistinctSources(batch.progress)
                     && (old(pending).None? || old(pending).value.batchId == batch.batchId))
      ensures State() == if ok then old(State()).(pending := Some(batch)) else old(State())
    {
      ok := batch.progress != [] && DistinctSources(batch.progress)
            && (pending.None? || pending.value.batchId == batch.batchId);
      if ok {
        pending := Some(batch);
      }
    }

    /** Replace the pending batch's body and timestamps; the id must match. */
    method ReplacePendingBatch(batch: PendingBatch) returns (ok: bool)
      modifies this`pending
      ensures ok == (batch.progress != [] && DistinctSources(batch.progress)
                     && old(pending).Some? && old(pending).value.batchId == batch.batchId)
      ensures State() == if ok then old(State()).(pending := Some(batch)) else old(State())
    {
      ok := batch.progress != [] && DistinctSources(batch.progress)
            && pending.Some? && pending.value.batchId == batch.batchId;
      if ok {
        pending := Some(batch);
      }
    }

    /** Apply every pending delta and drop the batch, or change nothing when the id or a source does not match. */
    method AcknowledgeBatch(batchId: Text, now: nat) returns (ok: bool)
      modifies this`sources, this`pending
      ensures ok == CanAcknowledge(old(State()), batchId)
      ensures State() == if ok then Acknowledge(old(State()), batchId, now) else old(State())
    {
      if pending.None? || pending.value.batchId != batchId {
        return false;
      }
      var deltas := pending.value.progress;
      var rows := sources;
      var i := 0;
      while i < |deltas|
        invariant i <= |deltas| && rows.Keys == sources.Keys
        invariant AllKnown(sources, deltas[..i])
        invariant AllKnown(sources, deltas) ==>
          AllKnown(rows, deltas[i..]) && ApplyDeltas(rows, deltas[i..], now) == ApplyDeltas(sources, deltas, now)
      {
        var d := deltas[i];
        if d.sourceId !in rows {
          return false;
        }
        assert deltas[i..][1..] == deltas[i + 1..];
        rows := rows[d.sourceId := ApplyDelta(rows[d.sourceId], d, now)];
        i := i + 1;
      }
      assert deltas[..i] == deltas;
      sources, pending := rows, None;
      return true;
    }

    method DiscardPendingBatch(batchId: Text) returns (ok: bool)
      modifies this`pending
      ensures ok == (old(pending).Some? && old(pending).value.batchId == batchId)
      ensures State() == if ok then old(State()).(pending := None) else old(State())
    {
      ok := pending.Some? && pending.value.batchId == batchId;
      if ok {
        pending := None;
      }
    }

    /**
     Commit the frozen manifest before the first byte is copied. Repeating the same capture resumes it;
     different content under its id, or another id while it is pending, is refused.
     */
    method BeginCapture(captureId: Text, manifest: map<BlobKey, Wire>, expected: map<BlobKey, BlobState>)
      returns (ok: bool)
      modifies this`blobs, this`capture
      ensures ok == CanBeginCapture(old(State()), captureId, manifest, expected)
      ensures State() == if ok then Tables.BeginCapture(old(State()), captureId, manifest, expected) else old(State())
    {
      ok := CanBeginCapture(State(), captureId, manifest, expected);
      if ok {
        var db := Tables.BeginCapture(State(), captureId, manifest, expected);
        blobs, capture := db.blobs, db.capture;
      }
    }

    /** Record a validated blob of the pending capture. */
    method MarkBlobCaptured(key: BlobKey, sha256: Digest) returns (ok: bool)
      modifies this`blobs
      ensures ok == CanMarkCaptured(old(State()), key)
      ensures State() == if ok then old(State()).(blobs := old(blobs)[key := old(blobs)[key].(sha256 := Some(sha256))])
                         else old(State())
    {
      ok := CanMarkCaptured(State(), key);
      if ok {
        blobs := blobs[key := blobs[key].(sha256 := Some(sha256))];
      }
    }

    method FinishCapture(captureId: Text, state: CaptureState) returns (ok: bool)
      modifies this`capture
      ensures ok == (state != CapturePending && old(capture).Some? && old(capture).value.captureId == captureId)
      ensures State() == if ok then old(State()).(capture := Some(old(capture).value.(state := state)))
                         else old(State())
    {
      ok := state != CapturePending && capture.Some? && capture.value.captureId == captureId;
      if ok {
        capture := Some(capture.value.(state := state));
      }
    }

    /** Mark a captured blob reclaimable. */
    method ReleaseBlob(key: BlobKey) returns (ok: bool)
      modifies this`blobs
      ensures ok == (key in old(blobs) && old(blobs)[key].sha256.Some?)
      ensures State() == if ok then old(State()).(blobs := old(blobs)[key := old(blobs)[key].(released := true)])
                         else old(State())
    {
      ok := key in blobs && blobs[key].sha256.Some?;
      if ok {
        blobs := blobs[key := blobs[key].(released := true)];
      }
    }

    /** Persist the recovery intent; a repeat returns the stored row unchanged, whatever its state. */
    method RecordPruneIntent(intent: PruneIntent) returns (ok: bool)
      modifies this`intents
      ensures ok == CanRecordIntent(old(intents), intent)
      ensures intents == if ok then RecordIntent(old(intents), intent) else old(intents)
    {
      ok := intent.state == Pending;
      if ok {
        var key := KeyOf(intent);
        if key in intents {
          ok := intents[key].quarantinePath == intent.quarantinePath;
        } else {
          intents := intents[key := intent.(detail := [], reclaimedBytes := 0)];
        }
      }
    }

    /** Settle an intent, whatever state it was in; it can never be reset to pending. */
    method ResolvePruneIntent(key: IntentKey, state: IntentState, reclaimed: nat, detail: Text) returns (ok: bool)
      modifies this`intents
      ensures ok == (state != Pending && key in old(intents))
      ensures intents == if ok then ResolveIntent(old(intents), key, state, reclaimed, detail) else old(intents)
    {
      ok := state != Pending && key in intents;
      if ok {
        intents := intents[key := intents[key].(state := state, reclaimedBytes := reclaimed, detail := detail)];
      }
    }

    /** Start the tombstone clock of a source whose file is gone. */
    method MarkSourceAbsent(id: Text, now: nat) returns (marked: bool)
      modifies this`sources
      ensures marked == (id in old(sources) && !old(sources)[id].absent)
      ensures State() ==
        if marked then old(State()).(sources := old(sources)[id := old(sources)[id].(absent := true, updatedNs := now)])
                         else old(State())
    {
      marked := id in sources && !sources[id].absent;
      if marked {
        sources := sources[id := sources[id].(absent := true, updatedNs := now)];
      }
    }

    method PurgeTombstones(expired: set<Text>) returns (purged: nat)
      modifies this`sources
      ensures State() == Purge(old(State()), expired)
      ensures purged == |old(sources)| - |sources|
    {
      var db := Purge(State(), expired);
      assert db.sources.Keys <= sources.Keys;
      SubsetSize(db.sources.Keys, sources.Keys);
      purged := |sources| - |db.sources|;
      sources := db.sources;
    }
  }

  lemma {:induction false} SubsetSize<T>(a: set<T>, b: set<T>)
    requires a <= b
    ensures |a| <= |b|
  {
    if a != {} {
      var x :| x in a;
      SubsetSize(a - {x}, b - {x});
    }
  }
}
