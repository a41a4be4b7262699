/**
 The initial capture, which freezes every file's present prefix into the spool before any row exists, and the
 release of spool blobs whose content has been delivered.
 */
module CaptureRun {
  import opened Utf8
  import opened LogEntry
  import opened Sources
  import opened Tables
  import opened Delivery
  import opened Coverage
  import opened Probing
  import opened Checkpoint
  import opened Import
  import opened Tidy
  import F = Fragments

  /** The blobs are those of the manifest, each holds exactly what was frozen for it, and a finished capture has all. */
  predicate SpoolOk(db: Db) {
    if db.capture.None? then db.blobs == map[]
    else
      && ManifestOk(db.capture.value)
      && db.blobs.Keys == db.capture.value.expected.Keys
      && (forall key <- db.blobs ::
            && db.blobs[key].sourceId == db.capture.value.expected[key].sourceId
            && (db.blobs[key].sha256.Some? ==> |db.blobs[key].sha256.value.content| == db.blobs[key].highWaterSize))
      && (db.capture.value.state == CaptureComplete ==> forall key <- db.blobs :: db.blobs[key].sha256.Some?)
  }

  predicate CaptureDone(db: Db) {
    db.capture.Some? && db.capture.value.state == CaptureComplete
  }

  /** One blob the helper reports captured. */
  datatype CapturedBlob = CapturedBlob(key: BlobKey, sha256: Digest)

  /**
   The node helper's capture: it may fail, and its answer may name anything, but a blob it reports holds exactly
   the size that was frozen for it.
   */
  method HelperCapture(blobs: map<BlobKey, BlobState>) returns (answer: Option<seq<CapturedBlob>>)
    ensures answer.Some? ==>
      forall e <- answer.value :: e.key in blobs ==> |e.sha256.content| == blobs[e.key].highWaterSize
  {
    var failed: bool := *;
    if failed {
      return None;
    }
    var out: seq<CapturedBlob> := [];
    var more: bool := *;
    var budget: nat := *;
    while more && budget > 0
      invariant forall e <- out :: e.key in blobs ==> |e.sha256.content| == blobs[e.key].highWaterSize
    {
      var key: BlobKey := *;
      var content: Bytes := *;
      if key !in blobs || |content| == blobs[key].highWaterSize {
        out := out + [CapturedBlob(key, Sha256(content))];
      }
      budget, more := budget - 1, *;
    }
    return Some(out);
  }

  /** While the capture is not complete there are no rows, so the invariant does not depend on the blobs. */
  lemma NoRowsYet(codec: Codec, log: seq<Body>, db: Db, next: Db)
    requires Inv(codec, log, db) && !CaptureDone(db)
    requires next.sources == db.sources && next.pending == db.pending
    ensures Inv(codec, log, next)
  {
  }

  lemma BeginKeepsSpool(db: Db, captureId: Text, wires: seq<Wire>)
    requires SpoolOk(db) && db.capture.None? && WiresOk(wires)
    ensures var manifest := ManifestOf(captureId, wires);
      var next := Tables.BeginCapture(db, captureId, manifest, ExpectedOf(manifest));
      && SpoolOk(next)
      && next.capture == Some(Capture(captureId, CapturePending, manifest, ExpectedOf(manifest)))
      && next.sources == db.sources && next.pending == db.pending
  {
    hide BaseIdOf, WireOk;
    ManifestOfOk(captureId, wires);
  }

  lemma MarkKeepsSpool(db: Db, key: BlobKey, sha256: Digest)
    requires SpoolOk(db) && key in db.blobs && |sha256.content| == db.blobs[key].highWaterSize
    ensures SpoolOk(db.(blobs := db.blobs[key := db.blobs[key].(sha256 := Some(sha256))]))
  {
    hide ManifestOk;
  }

  /** Every blob of the manifest has been captured. */
  predicate AllCaptured(db: Db) {
    db.capture.Some? && forall key <- db.capture.value.expected :: key in db.blobs && db.blobs[key].sha256.Some?
  }

  lemma FinishKeepsSpool(db: Db)
    requires SpoolOk(db) && AllCaptured(db)
    ensures var next := db.(capture := Some(db.capture.value.(state := CaptureComplete)));
      SpoolOk(next) && AllCaptured(next)
  {
    hide WireOk, BaseIdOf;
  }

  /** A finished capture is what planning relies on. */
  lemma SpoolIsCaptured(db: Db)
    requires SpoolOk(db) && CaptureDone(db)
    ensures BlobsCaptured(db)
  {
    hide ManifestOk;
  }

  /** Record the helper's answer blob by blob; it must name every declared blob exactly once. */
  method RecordAnswer(state: ImportState, answer: seq<CapturedBlob>) returns (alive: bool, ok: bool)
    requires state.Ok() && SpoolOk(state.store.State()) && state.store.capture.Some?
          && !CaptureDone(state.store.State())
    requires forall e <- answer :: e.key in state.store.blobs ==>
      |e.sha256.content| == state.store.blobs[e.key].highWaterSize
    modifies state`failed, state.store`blobs, state.store`capture
    ensures state.Ok() && SpoolOk(state.store.State())
    ensures alive && ok ==> CaptureDone(state.store.State()) && AllCaptured(state.store.State())
    ensures alive && !ok ==> state.failed && !CaptureDone(state.store.State())
  {
    hide Inv, TidyLog, SpoolOk;
    ghost var start := state.store.State();
    var declared := state.store.capture.value.expected.Keys;
    var seen: set<BlobKey> := {};
    if |answer| != |declared| {
      state.failed := true;
      return true, false;
    }
    for i := 0 to |answer|
      invariant state.Ok() && SpoolOk(state.store.State())
      invariant state.store.capture == start.capture && state.store.blobs.Keys == start.blobs.Keys
      invariant forall key <- start.blobs :: state.store.blobs[key].highWaterSize == start.blobs[key].highWaterSize
      invariant forall key <- seen :: key in state.store.blobs && state.store.blobs[key].sha256.Some?
    {
      var e := answer[i];
      if e.key !in declared || e.key in seen {
        state.failed := true;
        return true, false;
      }
      if CanMarkCaptured(state.store.State(), e.key) {
        MarkKeepsSpool(state.store.State(), e.key, e.sha256);
      }
      var marked := state.store.MarkBlobCaptured(e.key, e.sha256);
      NoRowsYet(state.codec, state.loki.log, start, state.store.State());
      if !marked {
        state.failed := true;
        return true, false;
      }
      var died := state.Dies();
      if died {
        return false, false;
      }
      seen := seen + {e.key};
    }
    if seen != declared {
      state.failed := true;
      return true, false;
    }
    FinishKeepsSpool(state.store.State());
    ok := state.store.FinishCapture(state.store.capture.value.captureId, CaptureComplete);
    NoRowsYet(state.codec, state.loki.log, start, state.store.State());
    alive := true;
  }

  /**
   Freeze the manifest, have the helper copy it, and record each copy; the capture is complete only when every
   declared blob was reported exactly once. A crash or a failure anywhere leaves it to be resumed.
   */
  method EnsureCapture(state: ImportState, captureId: Text, wires: seq<Wire>) returns (alive: bool, ok: bool)
    requires state.Ok() && SpoolOk(state.store.State()) && WiresOk(wires)
    modifies state`failed, state.store`blobs, state.store`capture
    ensures state.Ok() && SpoolOk(state.store.State())
    ensures alive && ok ==> CaptureDone(state.store.State())
    ensures alive && ok && !CaptureDone(old(state.store.State())) ==> AllCaptured(state.store.State())
    ensures CaptureDone(old(state.store.State())) ==> alive && ok && state.store.State() == old(state.store.State())
    ensures alive && !ok ==> state.failed && !CaptureDone(state.store.State())
  {
    hide Inv, TidyLog, Tables.BeginCapture, SpoolOk;
    ghost var start := state.store.State();
    if CaptureDone(state.store.State()) {
      return true, true;
    }
    if state.store.capture.None? {
      var manifest := ManifestOf(captureId, wires);
      BeginKeepsSpool(state.store.State(), captureId, wires);
      var begun := state.store.BeginCapture(captureId, manifest, ExpectedOf(manifest));
      NoRowsYet(state.codec, state.loki.log, start, state.store.State());
      if !begun {
        state.failed := true;
        return true, false;
      }
      var died := state.Dies();
      if died {
        return false, false;
      }
    }
    if state.store.capture.value.expected == map[] {
      FinishKeepsSpool(state.store.State());
      ok := state.store.FinishCapture(state.store.capture.value.captureId, CaptureComplete);
      NoRowsYet(state.codec, state.loki.log, start, state.store.State());
      return true, ok;
    }
    var answer := HelperCapture(state.store.blobs);
    if answer.None? {
      state.failed := true;
      return true, false;
    }
    alive, ok := RecordAnswer(state, answer.value);
  }

  // ---- Release -------------------------------------------------------------------------------------

  /** At most this many blobs are named in one release command. */
  const MAX_RELEASE_BLOBS: nat := 128

  /** A captured blob not yet released, whose source is complete for exactly its content. */
  predicate Releasable(db: Db, key: BlobKey) {
    && key in db.blobs && !db.blobs[key].released && db.blobs[key].sha256.Some?
    && db.blobs[key].sourceId in db.sources
    && var r := db.sources[db.blobs[key].sourceId];
       && IsPrefixComplete(r)
       && (r.provenance.blobSha256 == db.blobs[key].sha256 || r.digest == db.blobs[key].sha256)
  }

  /** The spool gives up a blob only after its whole decoded content was delivered. */
  lemma ReleaseIsSafe(codec: Codec, log: seq<Body>, db: Db, key: BlobKey)
    requires Inv(codec, log, db) && SpoolOk(db) && Releasable(db, key)
    ensures Archived(codec, log, db.sources[db.blobs[key].sourceId].identity.compression,
                     db.blobs[key].sha256.value.content)
  {
    hide Archived, ProgressOk, Delivered;
    var id := db.blobs[key].sourceId;
    RowOfInv(codec, log, db, id);
    BlobIsTheRowsOwn(codec, log, db, key);
    var content := db.blobs[key].sha256.value.content;
    assert content[..|content|] == content;
  }

  lemma BlobIsTheRowsOwn(codec: Codec, log: seq<Body>, db: Db, key: BlobKey)
    requires Inv(codec, log, db) && SpoolOk(db) && key in db.blobs && db.blobs[key].sourceId in db.sources
    ensures db.sources[db.blobs[key].sourceId].blob == Some(key)
  {
    hide RowOk, BatchOk;
    assert TiedRow(db.capture, db.blobs[key].sourceId, db.sources[db.blobs[key].sourceId]);
  }

  /** Releasing a blob touches nothing the invariants speak of. */
  lemma ReleaseKeeps(codec: Codec, log: seq<Body>, db: Db, key: BlobKey)
    requires Inv(codec, log, db) && SpoolOk(db) && key in db.blobs
    ensures var next := db.(blobs := db.blobs[key := db.blobs[key].(released := true)]);
      Inv(codec, log, next) && SpoolOk(next)
  {
    hide RowOk, BatchOk, ManifestOk;
    var next := db.(blobs := db.blobs[key := db.blobs[key].(released := true)]);
    forall id <- next.sources
      ensures BlobContent(next, next.sources[id]) == BlobContent(db, db.sources[id])
    {
    }
  }

  /** The blobs after some of them were released. */
  predicate OnlyReleased(before: map<BlobKey, BlobState>, after: map<BlobKey, BlobState>, candidates: seq<BlobKey>) {
    && before.Keys == after.Keys
    && forall key <- before ::
         after[key] == before[key] || (key in candidates && after[key] == before[key].(released := true))
  }

  /** Name every releasable blob of the capture. */
  method Candidates(store: CheckpointStore) returns (candidates: seq<BlobKey>)
    ensures forall key <- candidates :: Releasable(store.State(), key)
    ensures forall key <- store.blobs :: Releasable(store.State(), key) ==> key in candidates
  {
    candidates := [];
    var todo := store.blobs.Keys;
    while todo != {}
      invariant todo <= store.blobs.Keys
      invariant forall key <- candidates :: Releasable(store.State(), key)
      invariant forall key <- store.blobs :: Releasable(store.State(), key) ==> key in candidates || key in todo
      decreases |todo|
    {
      var key :| key in todo;
      todo := todo - {key};
      if Releasable(store.State(), key) {
        candidates := candidates + [key];
      }
    }
  }

  /** Ask the node to drop delivered blobs, batch by batch, marking each batch once the node has dropped it. */
  method MaybeRelease(state: ImportState) returns (alive: bool)
    requires state.Ok() && SpoolOk(state.store.State())
    modifies state.store`blobs
    ensures state.Ok() && SpoolOk(state.store.State())
    ensures state.store.blobs.Keys == old(state.store.blobs).Keys
    ensures forall key <- state.store.blobs ::
      || state.store.blobs[key] == old(state.store.blobs)[key]
      || (&& CaptureDone(old(state.store.State())) && old(state.store.pending).None?
          && Releasable(old(state.store.State()), key)
          && state.store.blobs[key] == old(state.store.blobs)[key].(released := true))
    ensures state.calm ==> alive
  {
    hide Inv, TidyLog, SpoolOk, Releasable;
    if !CaptureDone(state.store.State()) || state.store.pending.Some? {
      return true;
    }
    var candidates := Candidates(state.store);
    var start := 0;
    while start < |candidates|
      invariant start <= |candidates|
      invariant state.Ok() && SpoolOk(state.store.State())
      invariant OnlyReleased(old(state.store.blobs), state.store.blobs, candidates)
    {
      var dropped: bool := *;
      if !dropped {
        return true;
      }
      var end := F.Min(start + MAX_RELEASE_BLOBS, |candidates|);
      while start < end
        invariant start <= end <= |candidates|
        invariant state.Ok() && SpoolOk(state.store.State())
        invariant OnlyReleased(old(state.store.blobs), state.store.blobs, candidates)
      {
        var key := candidates[start];
        if key !in state.store.blobs {
          return true;
        }
        ReleaseKeeps(state.codec, state.loki.log, state.store.State(), key);
        var ok := state.store.ReleaseBlob(key);
        if !ok {
          return true;
        }
        var died := state.Dies();
        if died {
          return false;
        }
        start := start + 1;
      }
    }
    alive := true;
  }
}
