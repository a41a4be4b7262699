/** What a run does first with a batch an earlier run left behind: push it again, re-timestamped when it is stale. */
module Pending {
  import opened Utf8
  import opened LogEntry
  import opened Sources
  import opened Tables
  import opened Delivery
  import opened Coverage
  import opened Batching
  import opened Checkpoint
  import opened Import
  import opened Importer
  import opened Tidy
  import F = Fragments
  import S = StreamReader

  /** The first `n` fragments lead exactly to the offset, and none before. */
  predicate TakesTo(fragments: seq<F.LogFragment>, target: nat, n: nat) {
    && 0 < n <= |fragments| && fragments[n - 1].next.offset == target
    && forall j :: 0 <= j < n - 1 ==> fragments[j].next.offset < target
  }

  /** Timestamps that are later than `floor` and increase along the queue. */
  predicate FreshTimes(queue: seq<Queued>, floor: nat) {
    && (queue != [] ==> queue[0].timestamp > floor)
    && forall i :: 0 < i < |queue| ==> queue[i - 1].timestamp < queue[i].timestamp
  }

  predicate FreshValues(values: seq<Value>, floor: nat) {
    && (values != [] ==> values[0].timestamp > floor)
    && forall i :: 0 < i < |values| ==> values[i - 1].timestamp < values[i].timestamp
  }

  lemma FreshBody(queue: seq<Queued>, floor: nat)
    requires FreshTimes(queue, floor)
    ensures FreshValues(ValuesOf(queue), floor)
  {
  }

  /** Take fragments up to the offset the batch ends at; stop when they run past it. */
  method Retake(state: ImportState, fragments: seq<F.LogFragment>, target: nat)
    returns (queue: seq<Queued>, matched: bool)
    modifies state`timestamp
    ensures matched ==> TakesTo(fragments, target, |queue|) && FreshTimes(queue, old(state.timestamp))
    ensures matched ==> queue != [] && state.timestamp == queue[|queue| - 1].timestamp > old(state.timestamp)
    ensures |queue| <= |fragments|
    ensures forall k :: 0 <= k < |queue| ==> queue[k].entry == fragments[k].entry && queue[k].next == fragments[k].next
    ensures (exists n :: TakesTo(fragments, target, n)) ==> matched
    ensures state.timestamp >= old(state.timestamp)
  {
    queue := [];
    var i := 0;
    while i < |fragments|
      invariant i == |queue| <= |fragments|
      invariant forall k :: 0 <= k < i ==> queue[k].entry == fragments[k].entry && queue[k].next == fragments[k].next
      invariant forall k :: 0 <= k < i ==> fragments[k].next.offset < target
      invariant FreshTimes(queue, old(state.timestamp))
      invariant state.timestamp >= old(state.timestamp)
      invariant queue != [] ==> state.timestamp == queue[i - 1].timestamp > old(state.timestamp)
    {
      var f := fragments[i];
      if f.next.offset > target {
        return queue, false;
      }
      var t := state.NextTimestamp();
      queue := queue + [Queued(t, f.entry, f.next)];
      if f.next.offset == target {
        return queue, true;
      }
      i := i + 1;
    }
    matched := false;
  }

  /** The batch is read again from the content it was made from. */
  predicate Rereads(r: SourceRecord, blob: Option<Bytes>) {
    blob.None? || Base(r, blob) == blob
  }

  /** What a rebuild reads: the captured blob if the row has one, else the live file. */
  function RereadContent(blob: Option<Bytes>, live: Bytes): Bytes {
    if blob.Some? then blob.value else live
  }

  /** The pending batch's own length in fragments is where its offset is reached. */
  lemma BatchTakesTo(codec: Codec, id: Text, r: SourceRecord, blob: Option<Bytes>, batch: PendingBatch)
    requires BatchOk(codec, id, r, blob, batch)
    ensures TakesTo(Pieces(codec, id, r, blob), batch.progress[0].progress.offset, |batch.body.values|)
  {
    hide F.Fragments;
    var x := codec.decoded(r.identity.compression, Base(r, blob).value);
    var st := SettingsFor(codec, id, r, Base(r, blob) == blob);
    var fs := Pieces(codec, id, r, blob);
    var n := |batch.body.values|;
    forall j | 0 <= j < n - 1
      ensures fs[j].next.offset < fs[n - 1].next.offset
    {
      F.OffsetsAhead(x[r.progress.offset..], ResumeAt(r), st, j + 1, n);
    }
  }

  lemma TakesToOnce(fragments: seq<F.LogFragment>, target: nat, m: nat, n: nat)
    requires TakesTo(fragments, target, m) && TakesTo(fragments, target, n)
    ensures m == n
  {
  }

  lemma TakesToPrefix(fs: seq<F.LogFragment>, fragments: seq<F.LogFragment>, target: nat, n: nat)
    requires TakesTo(fs, target, n) && n <= |fragments| && fragments <= fs
    ensures TakesTo(fragments, target, n)
  {
  }

  lemma TakesToLonger(fs: seq<F.LogFragment>, fragments: seq<F.LogFragment>, target: nat, n: nat)
    requires TakesTo(fragments, target, n) && fragments <= fs
    ensures TakesTo(fs, target, n)
  {
  }

  /** A row that has outgrown its blob was read to the end of the blob, so the blob yields nothing more. */
  lemma BlobIsSpent(codec: Codec, log: seq<Body>, id: Text, r: SourceRecord, blob: Option<Bytes>)
    requires codec.Lawful() && RowOk(codec, log, id, r, blob) && !Rereads(r, blob)
    ensures codec.decoded(r.identity.compression, blob.value) == blob.value
    ensures r.progress.offset >= |blob.value|
    ensures r.progress.offset == |blob.value| ==>
      F.Fragments(blob.value[r.progress.offset..], ResumeAt(r), SettingsFor(codec, id, r, true)) == F.Run([], false)
  {
    hide ProgressOk, CompletionOk, F.TakeStep;
    assert r.progress.offset == |blob.value| ==> blob.value[r.progress.offset..] == [];
    F.StepBounds([], ResumeAt(r), SettingsFor(codec, id, r, true));
  }

  /** The replacement: the same entries and progress with the new timestamps. */
  function Replacement(batch: PendingBatch, labels: Bytes, queue: seq<Queued>, now: nat): PendingBatch
    requires |batch.progress| == 1 && queue != []
  {
    var delta := batch.progress[0];
    var last := queue[|queue| - 1];
    PendingBatch(batch.batchId, Body(labels, ValuesOf(queue)), now,
                 [Delta(delta.sourceId, last.next, last.timestamp, delta.acknowledged, delta.digest)])
  }

  /** The same entries in the same order, the same progress but for the timestamp. */
  predicate SameBatch(before: PendingBatch, after: PendingBatch) {
    && after.batchId == before.batchId
    && |after.body.values| == |before.body.values|
    && (forall k :: 0 <= k < |after.body.values| ==> after.body.values[k].entry == before.body.values[k].entry)
    && |before.progress| == |after.progress| == 1
    && after.progress[0] == before.progress[0].(streamTsNs := after.progress[0].streamTsNs)
  }

  lemma ReplacementIsSame(codec: Codec, id: Text, r: SourceRecord, blob: Option<Bytes>, batch: PendingBatch,
                          labels: Bytes, queue: seq<Queued>, now: nat)
    requires BatchOk(codec, id, r, blob, batch)
    requires var fs := Pieces(codec, id, r, blob);
      && |queue| == |batch.body.values| && queue[|queue| - 1].next == fs[|queue| - 1].next
      && forall k :: 0 <= k < |queue| ==> queue[k].entry == fs[k].entry
    ensures var next := Replacement(batch, labels, queue, now);
      BatchOk(codec, id, r, blob, next) && SameBatch(batch, next)
  {
    hide Pieces;
  }

  lemma SameEntries(before: PendingBatch, after: PendingBatch)
    requires SameBatch(before, after)
    ensures |after.body.values| == |before.body.values|
    ensures forall k :: 0 <= k < |before.body.values| ==> after.body.values[k].entry == before.body.values[k].entry
  {
  }

  lemma ReplaceKeeps(codec: Codec, log: seq<Body>, db: Db, next: PendingBatch)
    requires Inv(codec, log, db) && db.pending.Some?
    requires var id := db.pending.value.progress[0].sourceId;
      && |next.progress| == 1 && next.progress[0].sourceId == id
      && BatchOk(codec, id, db.sources[id], BlobContent(db, db.sources[id]), next)
    ensures Inv(codec, log, db.(pending := Some(next)))
  {
    hide RowOk, BatchOk;
    var after := db.(pending := Some(next));
    forall k <- after.sources
      ensures RowOk(codec, log, k, after.sources[k], BlobContent(after, after.sources[k]))
    {
      assert BlobContent(after, after.sources[k]) == BlobContent(db, db.sources[k]);
    }
  }

  /** The row a pending batch belongs to. */
  lemma PendingRow(codec: Codec, log: seq<Body>, db: Db)
    requires Inv(codec, log, db) && db.pending.Some?
    ensures |db.pending.value.progress| == 1 && db.pending.value.progress[0].sourceId in db.sources
    ensures var id := db.pending.value.progress[0].sourceId;
      var r := db.sources[id];
      && codec.Lawful()
      && RowOk(codec, log, id, r, BlobContent(db, r))
      && BatchOk(codec, id, r, BlobContent(db, r), db.pending.value)
      && HasPieces(codec, r, BlobContent(db, r))
  {
    hide RowOk, Pieces;
  }

  /** What a read yields of the batch's own content leads to its end exactly when it got that far. */
  lemma RereadPieces(codec: Codec, id: Text, r: SourceRecord, blob: Option<Bytes>, batch: PendingBatch, live: Bytes,
                     fragments: seq<F.LogFragment>, finished: bool)
    requires BatchOk(codec, id, r, blob, batch) && HasPieces(codec, r, blob) && Rereads(r, blob)
    requires blob.None? ==> Base(r, blob) == Some(live)
    requires Yields(codec, id, r, blob.Some?, RereadContent(blob, live), fragments, finished)
    ensures fragments <= Pieces(codec, id, r, blob)
    ensures var target, n := batch.progress[0].progress.offset, |batch.body.values|;
      && ((exists m :: TakesTo(fragments, target, m)) <==> n <= |fragments|)
      && (forall m :: TakesTo(fragments, target, m) ==> m == n)
    ensures finished ==> |batch.body.values| <= |fragments|
  {
    hide TakesTo, F.Fragments;
    var target, n := batch.progress[0].progress.offset, |batch.body.values|;
    var fs := Pieces(codec, id, r, blob);
    BatchTakesTo(codec, id, r, blob, batch);
    if n <= |fragments| {
      TakesToPrefix(fs, fragments, target, n);
    }
    forall m: nat | TakesTo(fragments, target, m)
      ensures m == n && m <= |fragments|
    {
      TakesToLonger(fs, fragments, target, m);
      TakesToOnce(fs, target, m, n);
      TakesToInside(fragments, target, m);
    }
  }

  lemma TakesToInside(fragments: seq<F.LogFragment>, target: nat, m: nat)
    requires TakesTo(fragments, target, m)
    ensures 0 < m <= |fragments|
  {
  }

  /** Of a spent blob a read yields nothing. */
  lemma RereadSpent(codec: Codec, log: seq<Body>, id: Text, r: SourceRecord, blob: Option<Bytes>, live: Bytes,
                    fragments: seq<F.LogFragment>, finished: bool)
    requires codec.Lawful() && RowOk(codec, log, id, r, blob) && !Rereads(r, blob)
    requires Yields(codec, id, r, blob.Some?, RereadContent(blob, live), fragments, finished)
    ensures fragments == []
  {
    hide RowOk, F.Fragments;
    BlobIsSpent(codec, log, id, r, blob);
  }

  /** The file behind a pending batch, if it is the file that would be read again, is as it was. */
  predicate SourceUnchanged(db: Db, live: Bytes) {
    db.pending.Some? && |db.pending.value.progress| == 1 && db.pending.value.progress[0].sourceId in db.sources ==>
      var r := db.sources[db.pending.value.progress[0].sourceId];
      BlobContent(db, r).None? ==> Base(r, None) == Some(live)
  }

  /** All that a rebuild can read of a row's source, from where the row stands. */
  function Rebuilt(codec: Codec, id: Text, r: SourceRecord, blob: Option<Bytes>, live: Bytes): seq<F.LogFragment> {
    var x := codec.decoded(r.identity.compression, RereadContent(blob, live));
    if r.progress.offset > |x| then []
    else F.Fragments(x[r.progress.offset..], ResumeAt(r), SettingsFor(codec, id, r, blob.Some?)).fragments
  }

  /** A rebuild reads the same entries again, or never gets to the batch's offset. */
  predicate RebuildsSame(codec: Codec, db: Db, live: Bytes) {
    db.pending.Some? && |db.pending.value.progress| == 1 && db.pending.value.progress[0].sourceId in db.sources ==>
      var batch := db.pending.value;
      var id := batch.progress[0].sourceId;
      var r := db.sources[id];
      var fs := Rebuilt(codec, id, r, BlobContent(db, r), live);
      forall n: nat :: n <= |fs| && TakesTo(fs, batch.progress[0].progress.offset, n) ==> SameEntriesAgain(batch, fs, n)
  }

  predicate SameEntriesAgain(batch: PendingBatch, fs: seq<F.LogFragment>, n: nat) {
    && n == |batch.body.values| && 0 < n <= |fs| && |batch.progress| == 1
    && fs[n - 1].next == batch.progress[0].progress
    && forall k :: 0 <= k < n ==> fs[k].entry == batch.body.values[k].entry
  }

  /** It does of a source that is as it was, from whichever content it reads. */
  lemma UnchangedRebuildsSame(codec: Codec, log: seq<Body>, db: Db, live: Bytes)
    requires Inv(codec, log, db) && SourceUnchanged(db, live)
    ensures RebuildsSame(codec, db, live)
  {
    hide Inv, RowOk, BatchOk, TakesTo, F.Fragments, SameEntriesAgain, HasPieces;
    if db.pending.Some? {
      PendingRow(codec, log, db);
      var batch := db.pending.value;
      var id := batch.progress[0].sourceId;
      var r := db.sources[id];
      var blob := BlobContent(db, r);
      var target := batch.progress[0].progress.offset;
      if Rereads(r, blob) {
        BatchTakesTo(codec, id, r, blob, batch);
        BatchEntries(codec, id, r, blob, batch);
        RebuiltIsPieces(codec, id, r, blob, live);
        forall n: nat | n <= |Pieces(codec, id, r, blob)| && TakesTo(Rebuilt(codec, id, r, blob, live), target, n)
          ensures SameEntriesAgain(batch, Rebuilt(codec, id, r, blob, live), n)
        {
          TakesToOnce(Pieces(codec, id, r, blob), target, |batch.body.values|, n);
        }
      } else {
        BlobIsSpent(codec, log, id, r, blob);
        NothingToTake(target);
      }
    }
  }

  lemma NothingToTake(target: nat)
    ensures forall n: nat :: !TakesTo([], target, n)
  {
  }

  lemma RebuiltIsPieces(codec: Codec, id: Text, r: SourceRecord, blob: Option<Bytes>, live: Bytes)
    requires HasPieces(codec, r, blob) && Rereads(r, blob) && (blob.None? ==> Base(r, blob) == Some(live))
    ensures Rebuilt(codec, id, r, blob, live) == Pieces(codec, id, r, blob)
  {
    hide F.Fragments;
  }

  lemma BatchEntries(codec: Codec, id: Text, r: SourceRecord, blob: Option<Bytes>, batch: PendingBatch)
    requires BatchOk(codec, id, r, blob, batch)
    ensures HasPieces(codec, r, blob) && SameEntriesAgain(batch, Pieces(codec, id, r, blob), |batch.body.values|)
  {
    hide F.Fragments;
  }

  /** The replacement is in order exactly if it has the entries of the batch again. */
  lemma RebuiltInOrderExactly(codec: Codec, id: Text, r: SourceRecord, blob: Option<Bytes>, batch: PendingBatch,
                              fs: seq<F.LogFragment>, queue: seq<Queued>, labels: Bytes, now: nat)
    requires BatchOk(codec, id, r, blob, batch)
    requires 0 < |queue| <= |fs| && TakesTo(fs, batch.progress[0].progress.offset, |queue|)
    requires forall k :: 0 <= k < |queue| ==> queue[k].entry == fs[k].entry && queue[k].next == fs[k].next
    ensures BatchOk(codec, id, r, blob, Replacement(batch, labels, queue, now))
         <==> SameEntriesAgain(batch, fs, |queue|)
  {
    hide F.Fragments, TakesTo;
    var target := batch.progress[0].progress.offset;
    var next := Replacement(batch, labels, queue, now);
    BatchTakesTo(codec, id, r, blob, batch);
    BatchEntries(codec, id, r, blob, batch);
    TakesToInside(fs, target, |queue|);
    if BatchOk(codec, id, r, blob, next) {
      TakesToEnd(fs, target, |queue|);
      BatchTakesTo(codec, id, r, blob, next);
      TakesToOnce(Pieces(codec, id, r, blob), target, |batch.body.values|, |queue|);
      forall k | 0 <= k < |queue|
        ensures fs[k].entry == batch.body.values[k].entry
      {
        assert next.body.values[k].entry == queue[k].entry;
      }
    }
  }

  lemma TakesToEnd(fs: seq<F.LogFragment>, target: nat, n: nat)
    requires TakesTo(fs, target, n)
    ensures 0 < n <= |fs| && fs[n - 1].next.offset == target
  {
  }

  /**
   Without that: a body rebuilt from a rewritten file `now` covers the stretch of the old content `was` exactly if the
   two agree there.
   */
  lemma RewrittenCoversExactly(body: Body, was: Bytes, now: Bytes, cur: F.Cursor, st: F.Settings, hi: nat)
    requires st.Usable() && cur.offset <= |now| && hi <= |was|
    requires var fs := F.Fragments(now[cur.offset..], cur, st).fragments;
      && TakesTo(fs, hi, |body.values|)
      && forall k :: 0 <= k < |body.values| ==> body.values[k].entry == fs[k].entry
    ensures cur.offset <= hi <= |now|
    ensures BodyCovers(body, st.sourceId, was, cur.offset, hi) <==> was[cur.offset..hi] == now[cur.offset..hi]
  {
    hide F.Fragments, F.TakeStep, BodyHas;
    var lo, n := cur.offset, |body.values|;
    FragmentsCover(body, now, cur, st, 0, n);
    if BodyCovers(body, st.sourceId, was, lo, hi) {
      forall i | lo <= i < hi
        ensures was[i] == now[i]
      {
        FragmentsCarryOnly(body, now, cur, st, 0, i, was[i]);
      }
    } else {
      var i :| lo <= i < hi && !BodyHas(body, st.sourceId, i, was[i]);
      assert BodyHas(body, st.sourceId, i, now[i]);
      assert was[lo..hi][i - lo] == was[i] && now[lo..hi][i - lo] == now[i];
    }
  }

  /** How a rebuild ends: with the same batch at newer times, or with nothing changed. */
  predicate RebuildEnds(db: Db, after: PendingBatch, ok: bool, shortRead: bool) {
    && db.pending.Some? && |db.pending.value.progress| == 1 && db.pending.value.progress[0].sourceId in db.sources
    && var r := db.sources[db.pending.value.progress[0].sourceId];
       && (ok <==> Rereads(r, BlobContent(db, r)) && !shortRead)
       && (if ok then SameBatch(db.pending.value, after) else after == db.pending.value)
  }

  /**
   Read the stale batch's range again and give its entries fresh timestamps; if its offset is not reached nothing
   changes. While the source is unchanged this works, unless the read breaks off, exactly if the batch was made from
   the content that is read again; a batch of a file that has outgrown its captured blob is looked for in the blob, and
   never found.
   */
  method RebuildPending(state: ImportState, live: Bytes) returns (ok: bool, end: S.End, ghost shortRead: bool)
    requires state.Ok() && state.store.pending.Some? && RebuildsSame(state.codec, state.store.State(), live)
    modifies state`failed, state`timestamp, state`labels, state.store`pending
    ensures state.Ok() && state.store.pending.Some?
    ensures state.timestamp >= old(state.timestamp)
    ensures if ok then SameBatch(old(state.store.pending).value, state.store.pending.value)
            else state.store.pending == old(state.store.pending)
    ensures SourceUnchanged(old(state.store.State()), live) ==>
      && RebuildEnds(old(state.store.State()), state.store.pending.value, ok, shortRead)
      && (shortRead ==> !end.Finished?)
    ensures !ok ==> state.failed
    ensures ok ==>
      && state.failed == old(state.failed)
      && |state.store.pending.value.progress| == 1
      && FreshValues(state.store.pending.value.body.values, old(state.timestamp))
      && state.store.pending.value.progress[0].streamTsNs == state.timestamp > old(state.timestamp)
  {
    hide Inv, TidyLog, RowOk, BatchOk, Pieces, HasPieces, ResumeAt, TakesTo, Rereads, Yields, SameBatch, BlobContent,
         Base, FreshTimes, FreshValues;
    ghost var db := state.store.State();
    ghost var floor := state.timestamp;
    PendingRow(state.codec, state.loki.log, db);
    var batch := state.store.pending.value;
    var delta := batch.progress[0];
    var id := delta.sourceId;
    var r := state.store.sources[id];
    var blob := BlobContent(state.store.State(), r);
    var fragments;
    fragments, end := state.ReadFragments(id, r, blob.Some?, RereadContent(blob, live));
    shortRead := Rereads(r, blob) && |fragments| < |batch.body.values|;
    state.ChooseLabels(r.identity);
    var queue, matched := Retake(state, fragments, delta.progress.offset);
    if SourceUnchanged(db, live) {
      RereadCases(state.codec, state.loki.log, db, live, fragments, end.Finished?, queue);
    }
    if !matched {
      state.failed := true;
      return false, end, shortRead;
    }
    var now: nat := *;
    var next := Replacement(batch, state.labels, queue, now);
    RetakenIsSame(state.codec, state.loki.log, db, live, fragments, end.Finished?, queue, state.labels, now);
    ReplaceKeeps(state.codec, state.loki.log, db, next);
    SameEntries(batch, next);
    TidyReplace(state.loki.born, state.loki.log, db.sources, batch, next);
    FreshBody(queue, floor);
    ok := state.store.ReplacePendingBatch(next);
  }

  /** What was retaken is the batch again, at newer times. */
  lemma RetakenIsSame(codec: Codec, log: seq<Body>, db: Db, live: Bytes, fragments: seq<F.LogFragment>, finished: bool,
                      queue: seq<Queued>, labels: Bytes, now: nat)
    requires Inv(codec, log, db) && RebuildsSame(codec, db, live) && db.pending.Some?
    requires |db.pending.value.progress| == 1 && db.pending.value.progress[0].sourceId in db.sources
    requires forall k :: 0 <= k < |queue| <= |fragments| ==>
      queue[k].entry == fragments[k].entry && queue[k].next == fragments[k].next
    requires |queue| <= |fragments| && TakesTo(fragments, db.pending.value.progress[0].progress.offset, |queue|)
          && queue != []
    requires var id := db.pending.value.progress[0].sourceId;
      var blob := BlobContent(db, db.sources[id]);
      Yields(codec, id, db.sources[id], blob.Some?, RereadContent(blob, live), fragments, finished)
    ensures var batch := db.pending.value;
      var id := batch.progress[0].sourceId;
      var next := Replacement(batch, labels, queue, now);
      SameBatch(batch, next) && BatchOk(codec, id, db.sources[id], BlobContent(db, db.sources[id]), next)
  {
    hide Inv, RowOk, BatchOk, Pieces, HasPieces, SameBatch, Base, Replacement, Yields, Rebuilt, BlobContent, TakesTo;
    PendingRow(codec, log, db);
    var batch := db.pending.value;
    var id := batch.progress[0].sourceId;
    var r := db.sources[id];
    var blob := BlobContent(db, r);
    var fs := Rebuilt(codec, id, r, blob, live);
    YieldsRebuilt(codec, id, r, blob, live, fragments, finished);
    TakesToLonger(fs, fragments, batch.progress[0].progress.offset, |queue|);
    assert SameEntriesAgain(batch, fs, |queue|);
    BatchEntries(codec, id, r, blob, batch);
    ReplacementIsSame(codec, id, r, blob, batch, labels, queue, now);
  }

  lemma YieldsRebuilt(codec: Codec, id: Text, r: SourceRecord, blob: Option<Bytes>, live: Bytes,
                      fragments: seq<F.LogFragment>, finished: bool)
    requires Yields(codec, id, r, blob.Some?, RereadContent(blob, live), fragments, finished)
    ensures fragments <= Rebuilt(codec, id, r, blob, live)
  {
    hide F.Fragments;
  }

  /** Both ways a rebuild's read can go, for the row of the pending batch. */
  lemma RereadCases(codec: Codec, log: seq<Body>, db: Db, live: Bytes, fragments: seq<F.LogFragment>, finished: bool,
                    queue: seq<Queued>)
    requires Inv(codec, log, db) && SourceUnchanged(db, live) && db.pending.Some?
    requires |db.pending.value.progress| == 1 && db.pending.value.progress[0].sourceId in db.sources
    requires |queue| <= |fragments|
    requires forall k :: 0 <= k < |queue| ==> queue[k].entry == fragments[k].entry && queue[k].next == fragments[k].next
    requires var id := db.pending.value.progress[0].sourceId;
      var r := db.sources[id];
      var blob := BlobContent(db, r);
      Yields(codec, id, r, blob.Some?, RereadContent(blob, live), fragments, finished)
    ensures var batch := db.pending.value;
      var id, target, n := batch.progress[0].sourceId, batch.progress[0].progress.offset, |batch.body.values|;
      var r := db.sources[id];
      var blob := BlobContent(db, r);
      && ((exists m :: TakesTo(fragments, target, m)) <==> Rereads(r, blob) && n <= |fragments|)
      && (Rereads(r, blob) && finished ==> n <= |fragments|)
  {
    hide Inv, RowOk, BatchOk, Pieces, HasPieces, ResumeAt, Rereads, Yields, BlobContent, Base;
    PendingRow(codec, log, db);
    var batch := db.pending.value;
    var id := batch.progress[0].sourceId;
    var r := db.sources[id];
    var blob := BlobContent(db, r);
    if Rereads(r, blob) {
      RereadPieces(codec, id, r, blob, batch, live, fragments, finished);
    } else {
      RereadSpent(codec, log, id, r, blob, live, fragments, finished);
    }
  }

  // ---- Pushing it again ----------------------------------------------------------------------------

  /** Decoded bytes a batch stands for beyond what its sources already count. */
  function DecodedBytes(sources: map<Text, SourceRecord>, deltas: seq<Delta>): nat {
    if deltas == [] then 0
    else
      var d := deltas[|deltas| - 1];
      DecodedBytes(sources, deltas[..|deltas| - 1])
      + (if d.sourceId in sources then F.Max(d.progress.offset - sources[d.sourceId].progress.offset, 0) else 0)
  }

  method PendingDecodedBytes(store: CheckpointStore, deltas: seq<Delta>) returns (total: nat)
    ensures total == DecodedBytes(store.sources, deltas)
  {
    total := 0;
    for i := 0 to |deltas|
      invariant total == DecodedBytes(store.sources, deltas[..i])
    {
      assert deltas[..i + 1][..i] == deltas[..i];
      if deltas[i].sourceId in store.sources {
        total := total + F.Max(deltas[i].progress.offset - store.sources[deltas[i].sourceId].progress.offset, 0);
      }
    }
    assert deltas[..|deltas|] == deltas;
  }

  const STALE_PENDING_NS: nat := 24 * 3600 * 1000000000

  predicate IsStale(batch: PendingBatch, clock: nat) {
    clock - batch.createdNs > STALE_PENDING_NS
  }

  /** A batch that would be rebuilt now would be rebuilt as it was, or not at all. */
  predicate RebuildIsSafe(codec: Codec, db: Db, live: Bytes, clock: nat) {
    db.pending.Some? && IsStale(db.pending.value, clock) ==> RebuildsSame(codec, db, live)
  }

  /**
   Settle the batch an earlier run left pending before anything else is planned. The run goes on only when
   nothing is pending any more.
   */
  method FlushExistingPending(state: ImportState, live: Bytes, clock: nat) returns (alive: bool, proceed: bool)
    requires state.Ok() && RebuildIsSafe(state.codec, state.store.State(), live, clock)
    modifies state`bytesArchived, state`bodyBytes, state`pending, state`failed, state`timestamp, state`labels,
             state.store`sources, state.store`pending, state.loki`log
    ensures state.Ok()
    ensures SameRows(old(state.store.sources), state.store.sources)
    ensures alive && proceed ==> state.store.pending.None?
    ensures old(state.store.pending).None? ==>
      && alive && proceed && state.store.State() == old(state.store.State())
      && state.bytesArchived == old(state.bytesArchived) && state.bodyBytes == old(state.bodyBytes)
      && state.loki.log == old(state.loki.log)
    ensures alive && !proceed ==> state.pending || state.failed
    ensures alive && !proceed ==> state.store.sources == old(state.store.sources) && state.store.pending.Some?
    ensures alive && proceed && old(state.store.pending).Some? ==>
      Settled(old(state.store.State()), state.store.sources)
  {
    hide Inv, TidyLog, RowOk, BatchOk, SourceUnchanged, RebuildsSame, Rereads, EncodeBody, FreshValues, BlobContent;
    alive, proceed := true, true;
    if state.store.pending.None? {
      return;
    }
    PendingRow(state.codec, state.loki.log, state.store.State());
    state.ObserveTimestamp(state.store.pending.value.progress[0].streamTsNs);
    if IsStale(state.store.pending.value, clock) {
      var ok, end;
      ghost var shortRead;
      ok, end, shortRead := RebuildPending(state, live);
      if !ok {
        return true, false;
      }
      var died := state.Dies();
      if died {
        return false, false;
      }
    }
    alive, proceed := PushPending(state);
  }

  /** The rows after a pending batch was acknowledged: its one source stands where the batch ended. */
  predicate Settled(before: Db, after: map<Text, SourceRecord>) {
    && before.pending.Some? && |before.pending.value.progress| == 1
    && var d := before.pending.value.progress[0];
       && d.sourceId in before.sources && d.sourceId in after
       && after.Keys == before.sources.Keys
       && (forall k <- after :: k != d.sourceId ==> after[k] == before.sources[k])
       && after[d.sourceId].progress == d.progress
       && after[d.sourceId].acknowledged == d.acknowledged
       && after[d.sourceId].digest == (if d.digest.Some? then d.digest else before.sources[d.sourceId].digest)
       && after[d.sourceId].provenance == before.sources[d.sourceId].provenance
  }

  /** Push the stored body; only an accepted one moves its source on. */
  method PushPending(state: ImportState) returns (alive: bool, proceed: bool)
    requires state.Ok() && state.store.pending.Some?
    modifies state`bytesArchived, state`bodyBytes, state`pending, state`failed, state.store`sources,
             state.store`pending, state.loki`log
    ensures state.Ok()
    ensures SameRows(old(state.store.sources), state.store.sources)
    ensures alive && proceed ==> state.store.pending.None? && Settled(old(state.store.State()), state.store.sources)
    ensures alive && !proceed ==>
      (state.pending || state.failed) && state.store.sources == old(state.store.sources) && state.store.pending.Some?
  {
    hide Inv, TidyLog, EncodeBody, RowOk, BatchOk;
    PendingRow(state.codec, state.loki.log, state.store.State());
    var batch := state.store.pending.value;
    var bytes := PendingDecodedBytes(state.store, batch.progress);
    var outcome;
    alive, outcome := state.PushSaved();
    ProgressIsSame(batch.progress[0].sourceId, old(state.store.sources), state.store.sources);
    if !alive {
      return false, false;
    }
    if outcome.Accepted? {
      state.bytesArchived := state.bytesArchived + bytes;
      state.bodyBytes := state.bodyBytes + |EncodeBody(batch.body)|;
      return true, true;
    }
    if outcome.Retryable? {
      state.pending := true;
    } else {
      state.failed := true;
    }
    return true, false;
  }
}
