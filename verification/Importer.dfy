/**
 One import run over one guest: which input each plan reads, what is proved of it before it is read, and how
 each source ends. Within a run every probed prefix keeps the content it was probed with.
 */
module Importer {
  import opened Utf8
  import opened LogEntry
  import opened Sources
  import opened Tables
  import opened Delivery
  import opened Coverage
  import opened Batching
  import opened Planner
  import opened Import
  import opened Tidy
  import F = Fragments
  import Json

  /** How the import of one source ended. */
  datatype Ending = Skipped | Unproved | ReadBroken | PushStopped | BudgetStopped | Finished

  /** The window is the content the row counts its progress in, and the plan describes it. */
  ghost predicate InputOk(codec: Codec, db: Db, p: FilePlan, window: Bytes) {
    && p.sourceId in db.sources
    && var r := db.sources[p.sourceId];
       var blob := BlobContent(db, r);
       && Base(r, blob) == Some(window)
       && p.input.Frozen? == (blob == Some(window))
       && p.rawSize == |window|
       && p.start == ResumeAt(r)
       && p.activePrefix == (if p.input.Frozen? then r.provenance.activeAtCapture else r.identity.isActive)
       && (p.wire.Some? ==> p.wire == Some(r.identity))
       && (!p.input.Frozen? ==> r.identity.size >= |window|)
  }

  lemma InputHasPieces(codec: Codec, log: seq<Body>, db: Db, p: FilePlan, window: Bytes)
    requires Inv(codec, log, db) && InputOk(codec, db, p, window)
    ensures codec.Lawful()
    ensures HasPieces(codec, db.sources[p.sourceId], BlobContent(db, db.sources[p.sourceId]))
    ensures AtPiece(codec, p.sourceId, db.sources[p.sourceId], db.sources[p.sourceId],
                    BlobContent(db, db.sources[p.sourceId]), 0)
  {
    hide F.Fragments;
    RowOfInv(codec, log, db, p.sourceId);
  }

  /** A run that ended at the end of the stream has yielded every piece, and the last one ends where the stream does. */
  lemma AllPieces(codec: Codec, id: Text, r0: SourceRecord, blob: Option<Bytes>, frozen: bool,
                  fragments: seq<F.LogFragment>)
    requires HasPieces(codec, r0, blob) && frozen == (Base(r0, blob) == blob)
    requires var x := codec.decoded(r0.identity.compression, Base(r0, blob).value);
      F.Fragments(x[r0.progress.offset..], ResumeAt(r0), SettingsFor(codec, id, r0, frozen)) == F.Run(fragments, false)
    ensures Pieces(codec, id, r0, blob) == fragments
    ensures F.CursorAt(fragments, ResumeAt(r0), |fragments|).offset
         == |codec.decoded(r0.identity.compression, Base(r0, blob).value)|
  {
    hide F.Fragments;
    var x := codec.decoded(r0.identity.compression, Base(r0, blob).value);
    F.EndsAtEnd(x[r0.progress.offset..], ResumeAt(r0), SettingsFor(codec, id, r0, frozen));
  }

  /** The row stands at the end of the content it counts its progress in. */
  ghost predicate AtEnd(codec: Codec, p: FilePlan, r: SourceRecord, blob: Option<Bytes>, window: Bytes) {
    && Base(r, blob) == Some(window)
    && p.rawSize == |window|
    && (p.wire.Some? ==> p.wire == Some(r.identity))
    && (blob != Some(window) ==> r.identity.size >= |window|)
    && r.progress.offset == |codec.decoded(r.identity.compression, window)|
    && codec.wellFormed(r.identity.compression, window)
  }

  /** Such a row may be marked complete. */
  lemma EndIsEvidence(codec: Codec, log: seq<Body>, db: Db, p: FilePlan, window: Bytes)
    requires Inv(codec, log, db) && p.sourceId in db.sources
    requires AtEnd(codec, p, db.sources[p.sourceId], BlobContent(db, db.sources[p.sourceId]), window)
    ensures var x := codec.decoded(db.sources[p.sourceId].identity.compression, window);
      CompletionEvidence(codec, log, db, p, Sha256(window), Sha256(x))
  {
    hide Covered, Delivered, CompletionOk, ShapeOk;
    RowOfInv(codec, log, db, p.sourceId);
    var r := db.sources[p.sourceId];
    WholeDelivered(log, p.sourceId, codec.decoded(r.identity.compression, window));
  }

  /** The first `i` pieces are all there are, and they reach the end of the plan's content. */
  ghost predicate WholeQueue(codec: Codec, p: FilePlan, r0: SourceRecord, blob: Option<Bytes>, window: Bytes, i: nat) {
    && HasPieces(codec, r0, blob)
    && var fs := Pieces(codec, p.sourceId, r0, blob);
       && i == |fs|
       && AtEnd(codec, p, r0.(progress := F.CursorAt(fs, ResumeAt(r0), i)), blob, window)
  }

  /** With nothing queued the row itself stands at the end. */
  lemma NothingLeft(codec: Codec, p: FilePlan, r0: SourceRecord, r: SourceRecord, blob: Option<Bytes>, window: Bytes,
                    b: nat, i: nat)
    requires AtPiece(codec, p.sourceId, r0, r, blob, b) && WholeQueue(codec, p, r0, blob, window, i)
    requires Holds([], Pieces(codec, p.sourceId, r0, blob), b, i)
    ensures AtEnd(codec, p, r, blob, window)
  {
    hide F.Fragments, Pieces;
  }

  lemma RestReady(codec: Codec, p: FilePlan, r0: SourceRecord, r: SourceRecord, blob: Option<Bytes>, window: Bytes,
                  queue: seq<Queued>, b: nat, i: nat, completed: bool)
    requires AtPiece(codec, p.sourceId, r0, r, blob, b) && Holds(queue, Pieces(codec, p.sourceId, r0, blob), b, i)
          && queue != []
    requires completed ==> WholeQueue(codec, p, r0, blob, window, i)
    ensures QueueOk(codec, p.sourceId, r, blob, queue, completed, if completed then Some(Sha256(window)) else None)
  {
    hide Pieces, QueueOk;
    HoldsNothing(queue, Pieces(codec, p.sourceId, r0, blob), b, i);
    QueueReady(codec, p.sourceId, r0, r, blob, queue, b, i, completed,
               if completed then Some(Sha256(window)) else None);
  }

  /** Pushing the rest of the source brings the row to its end. */
  lemma RestPushed(codec: Codec, p: FilePlan, r0: SourceRecord, r: SourceRecord, blob: Option<Bytes>, window: Bytes,
                   queue: seq<Queued>, b: nat, i: nat, now: nat)
    requires AtPiece(codec, p.sourceId, r0, r, blob, b) && Holds(queue, Pieces(codec, p.sourceId, r0, blob), b, i)
          && queue != []
    requires WholeQueue(codec, p, r0, blob, window, i)
    ensures AtEnd(codec, p, ApplyDelta(r, DeltaFor(p.sourceId, queue, true, Some(Sha256(window))), now), blob, window)
  {
    hide Pieces;
    HoldsNothing(queue, Pieces(codec, p.sourceId, r0, blob), b, i);
  }

  /** The row is complete and acknowledged for exactly this content, which decodes to its end. */
  predicate ClosedFor(codec: Codec, r: SourceRecord, window: Bytes) {
    && codec.wellFormed(r.identity.compression, window)
    && r.digest == Some(Sha256(window)) && r.acknowledged
    && r.provenance.complete && r.provenance.completeSize == |window|
    && r.provenance.rawSha256 == Some(Sha256(window))
    && r.provenance.decodedSha256 == Some(Sha256(codec.decoded(r.identity.compression, window)))
  }

  /** Push what is left in the queue. */
  method FlushRest(state: ImportState, p: FilePlan, window: Bytes, ghost r0: SourceRecord, ghost blob: Option<Bytes>,
                   queue: seq<Queued>, cursor: nat, ghost b: nat, ghost i: nat, ghost size: nat, completed: bool)
    returns (alive: bool, ok: bool)
    requires state.Standing(p.sourceId, r0, blob, queue, b, i, cursor) && state.Sized(queue, size, cursor)
    requires completed ==> WholeQueue(state.codec, p, r0, blob, window, i)
    modifies state`bytesArchived, state`bodyBytes, state`pending, state`failed, state`stopped, state`boundExceeded,
             state`timestamp, state.store`sources, state.store`pending, state.loki`log
    ensures state.Ok()
    ensures OnlyProgress(p.sourceId, old(state.store.sources), state.store.sources)
    ensures state.boundExceeded == old(state.boundExceeded)
    ensures old(state.WithinBudget()) ==> state.WithinBudget()
    ensures alive && !ok ==> state.stopped && state.failed
    ensures alive && ok ==>
      && state.store.pending.None?
      && p.sourceId in state.store.sources
      && state.failed == old(state.failed) && state.stopped == old(state.stopped)
      && (queue == [] ==>
            && state.store.sources == old(state.store.sources)
            && state.timestamp == old(state.timestamp)
            && state.bytesArchived == old(state.bytesArchived) && state.bodyBytes == old(state.bodyBytes))
      && state.bytesArchived >= old(state.bytesArchived) && state.bodyBytes >= old(state.bodyBytes)
      && (queue != [] ==>
            state.store.sources[p.sourceId].progress.offset > old(state.store.sources)[p.sourceId].progress.offset)
      && (completed ==> AtEnd(state.codec, p, state.store.sources[p.sourceId], blob, window)
                        && state.store.sources[p.sourceId].blob == r0.blob)
      && (!completed ==> Advanced(old(state.store.sources)[p.sourceId], state.store.sources[p.sourceId]))
    ensures state.calm ==> alive && ok
  {
    hide Inv, TidyLog, AtPiece, Holds, QueueOk, EncodeBody, Pieces, WholeQueue, AtEnd, OnlyProgress;
    NoProgress(p.sourceId, state.store.sources);
    ghost var before := state.store.sources[p.sourceId];
    if queue == [] {
      if completed {
        NothingLeft(state.codec, p, r0, before, blob, window, b, i);
        PieceBlob(state.codec, p.sourceId, r0, before, blob, b);
      }
      return true, true;
    }
    RestReady(state.codec, p, r0, before, blob, window, queue, b, i, completed);
    QueueIsAhead(state.codec, p.sourceId, r0, before, blob, queue, b, i);
    alive, ok := state.FlushValues(p.sourceId, queue, cursor, completed,
                                   if completed then Some(Sha256(window)) else None);
    if alive && ok && completed {
      RestPushed(state.codec, p, r0, before, blob, window, queue, b, i, state.store.sources[p.sourceId].updatedNs);
      PieceBlob(state.codec, p.sourceId, r0, before, blob, b);
    }
  }

  lemma QueueIsAhead(codec: Codec, id: Text, r0: SourceRecord, r: SourceRecord, blob: Option<Bytes>, queue: seq<Queued>,
                     b: nat, i: nat)
    requires AtPiece(codec, id, r0, r, blob, b) && Holds(queue, Pieces(codec, id, r0, blob), b, i) && queue != []
    ensures queue[|queue| - 1].next.offset > r.progress.offset
  {
    hide Pieces;
    QueueAhead(codec, id, r0, r, blob, b, i - 1);
  }

  lemma PieceBlob(codec: Codec, id: Text, r0: SourceRecord, r: SourceRecord, blob: Option<Bytes>, b: nat)
    requires AtPiece(codec, id, r0, r, blob, b)
    ensures r.blob == r0.blob && r.identity == r0.identity && r.provenance == r0.provenance && r.digest == r0.digest
  {
    hide Pieces;
  }

  /** The verification marks are as they were. */
  predicate SameVerification(before: SourceRecord, after: SourceRecord) {
    && after.provenance.verifiedRawSize == before.provenance.verifiedRawSize
    && after.provenance.coverageConflict == before.provenance.coverageConflict
  }

  lemma ProgressKeepsOthers(id: Text, before: map<Text, SourceRecord>, after: map<Text, SourceRecord>)
    requires OnlyProgress(id, before, after)
    ensures OthersKept(id, before, after)
  {
  }

  lemma OthersKeptSteps(id: Text, a: map<Text, SourceRecord>, b: map<Text, SourceRecord>, c: map<Text, SourceRecord>)
    requires OthersKept(id, a, b) && OthersKept(id, b, c)
    ensures OthersKept(id, a, c)
  {
  }

  lemma CompletedIsClosed(codec: Codec, p: FilePlan, r: SourceRecord, blob: Option<Bytes>, window: Bytes, now: nat)
    requires AtEnd(codec, p, r, blob, window)
    ensures var x := codec.decoded(r.identity.compression, window);
      ClosedFor(codec, Completed(r, p, Sha256(window), Sha256(x), None)
                         .(digest := Some(Sha256(window)), acknowledged := true, updatedNs := now), window)
      && SameVerification(r, Completed(r, p, Sha256(window), Sha256(x), None)
                               .(digest := Some(Sha256(window)), acknowledged := true, updatedNs := now))
    ensures forall decoded: Digest :: Completed(r, p, Sha256(window), decoded, None).progress == r.progress
  {
  }

  /** Record a source complete whose end was reached, or note that the budget stopped the run. */
  method Conclude(state: ImportState, p: FilePlan, window: Bytes, completed: bool) returns (alive: bool, ending: Ending)
    requires state.Ok() && state.store.pending.None? && p.sourceId in state.store.sources
    requires var r := state.store.sources[p.sourceId];
      completed ==> AtEnd(state.codec, p, r, BlobContent(state.store.State(), r), window)
    requires !completed ==> state.stopped || state.BudgetReached()
    modifies state`stopped, state`covered, state.store`sources
    ensures state.Ok()
    ensures OthersKept(p.sourceId, old(state.store.sources), state.store.sources)
    ensures CoveredStep(old(state.covered), state.covered, p)
    ensures alive ==> p.sourceId in state.store.sources
                      && state.store.sources[p.sourceId].progress == old(state.store.sources)[p.sourceId].progress
    ensures ending == if completed then Finished else BudgetStopped
    ensures state.calm ==> alive
    ensures alive && completed ==>
      && ClosedFor(state.codec, state.store.sources[p.sourceId], window) && state.stopped == old(state.stopped)
      && SameVerification(old(state.store.sources)[p.sourceId], state.store.sources[p.sourceId])
    ensures !completed ==> alive && state.store.sources == old(state.store.sources) && state.stopped
  {
    hide Inv, TidyLog, AtEnd, CurrentCoverage, CompletionEvidence, ClosedFor, Completed;
    alive := true;
    if completed {
      var x := state.codec.decoded(state.store.sources[p.sourceId].identity.compression, window);
      EndIsEvidence(state.codec, state.loki.log, state.store.State(), p, window);
      ghost var r := state.store.sources[p.sourceId];
      alive := state.MarkComplete(p, Sha256(window), Sha256(x), None);
      if !alive {
        return false, Finished;
      }
      CompletedIsClosed(state.codec, p, r, BlobContent(state.store.State(), r), window,
                        state.store.sources[p.sourceId].updatedNs);
      ending := Finished;
    } else {
      state.stopped := true;
      ending := BudgetStopped;
    }
    if p.wire.Some? {
      state.AddCovered(p.wire.value, p.sourceId, state.store.sources[p.sourceId]);
    }
  }

  /** Where a source starts: nothing queued, nothing pushed. */
  lemma Starts(state: ImportState, p: FilePlan, window: Bytes)
    requires state.Ok() && state.store.pending.None? && InputOk(state.codec, state.store.State(), p, window)
    ensures var r := state.store.sources[p.sourceId];
      var blob := BlobContent(state.store.State(), r);
      && state.codec.Lawful()
      && Base(r, blob) == Some(window)
      && p.input.Frozen? == (Base(r, blob) == blob)
      && r.progress.offset <= |state.codec.decoded(r.identity.compression, window)|
      && state.Standing(p.sourceId, r, blob, [], 0, 0, r.progress.offset)
  {
    hide Inv, TidyLog, AtPiece, Pieces;
    InputHasPieces(state.codec, state.loki.log, state.store.State(), p, window);
  }

  lemma WholeInput(codec: Codec, db: Db, p: FilePlan, window: Bytes, fragments: seq<F.LogFragment>)
    requires InputOk(codec, db, p, window)
    requires Yields(codec, p.sourceId, db.sources[p.sourceId], p.input.Frozen?, window, fragments, true)
    ensures var r := db.sources[p.sourceId];
      WholeQueue(codec, p, r, BlobContent(db, r), window, |fragments|)
  {
    hide F.Fragments, Pieces;
    var r := db.sources[p.sourceId];
    AllPieces(codec, p.sourceId, r, BlobContent(db, r), p.input.Frozen?, fragments);
  }

  /** What a read yields is the beginning of what remains. */
  lemma ReadIsPieces(codec: Codec, db: Db, p: FilePlan, window: Bytes, fragments: seq<F.LogFragment>)
    requires InputOk(codec, db, p, window)
    requires var r := db.sources[p.sourceId];
      r.progress.offset <= |codec.decoded(r.identity.compression, window)|
    requires exists finished :: Yields(codec, p.sourceId, db.sources[p.sourceId], p.input.Frozen?, window, fragments,
                                       finished)
    ensures var r := db.sources[p.sourceId];
      HasPieces(codec, r, BlobContent(db, r)) && fragments <= Pieces(codec, p.sourceId, r, BlobContent(db, r))
  {
    hide F.Fragments;
  }

  /** Read the source from where its row stands and push what was read, batch by batch. */
  method ReadAndPush(state: ImportState, p: FilePlan, window: Bytes)
    returns (alive: bool, verdict: Verdict, whole: bool, queue: seq<Queued>, cursor: nat,
             ghost b: nat, ghost i: nat, ghost size: nat)
    requires state.Ok() && state.store.pending.None? && InputOk(state.codec, state.store.State(), p, window)
    modifies state`bytesArchived, state`bodyBytes, state`pending, state`failed, state`stopped, state`boundExceeded,
             state`timestamp, state.store`sources, state.store`pending, state.loki`log
    ensures state.Ok()
    ensures OnlyProgress(p.sourceId, old(state.store.sources), state.store.sources)
    ensures state.boundExceeded == old(state.boundExceeded)
    ensures old(state.WithinBudget()) ==> state.WithinBudget()
    ensures alive && verdict == PushFailed ==> state.stopped && state.failed
    ensures var r0 := old(state.store.sources[p.sourceId]);
      var blob := BlobContent(old(state.store.State()), r0);
      alive && verdict != PushFailed ==>
        && state.Standing(p.sourceId, r0, blob, queue, b, i, cursor) && state.Sized(queue, size, cursor)
        && state.failed == old(state.failed)
        && (verdict == Exhausted ==>
              state.stopped == old(state.stopped) && (state.BudgetReached() ==> old(state.BudgetReached())))
        && (verdict == CapReached ==> state.stopped && queue == [])
        && (b == 0 ==> state.bytesArchived == old(state.bytesArchived) && state.bodyBytes == old(state.bodyBytes))
        && (verdict == CapReached && old(state.FreshRun()) && state.timestamp < Json.PowerOfTen(20) ==> b > 0)
        && (verdict == Exhausted && whole ==> WholeQueue(state.codec, p, r0, blob, window, i))
    ensures state.calm ==> alive && verdict != PushFailed
    ensures state.calm && Readable(state.codec, p.sourceId, old(state.store.sources[p.sourceId]), p.input.Frozen?,
                                   window) ==>
      whole
  {
    hide Readable, Inv, TidyLog, AtPiece, Holds, Pieces, WholeQueue, OnlyProgress, InputOk, HasPieces, EncodeBody,
         Json.PowerOfTen, Yields, ResumeAt, BodySize;
    Starts(state, p, window);
    var r := state.store.sources[p.sourceId];
    ghost var db := state.store.State();
    var fragments, end := state.ReadFragments(p.sourceId, r, p.input.Frozen?, window);
    whole := end.Finished?;
    ReadIsPieces(state.codec, db, p, window, fragments);
    if whole {
      WholeInput(state.codec, db, p, window, fragments);
    }
    alive, verdict, queue, cursor, b, i, size := state.PushFragments(p.sourceId, r, BlobContent(db, r), fragments);
  }

  /** Push what is left, then record the source complete if its end was reached. */
  method FinishSource(state: ImportState, p: FilePlan, window: Bytes, ghost r0: SourceRecord, ghost blob: Option<Bytes>,
                      queue: seq<Queued>, cursor: nat, ghost b: nat, ghost i: nat, ghost size: nat, completed: bool)
    returns (alive: bool, ending: Ending)
    requires state.Standing(p.sourceId, r0, blob, queue, b, i, cursor) && state.Sized(queue, size, cursor)
    requires completed ==> WholeQueue(state.codec, p, r0, blob, window, i) && !state.stopped
    requires !completed ==> state.stopped || state.BudgetReached()
    modifies state`bytesArchived, state`bodyBytes, state`pending, state`failed, state`stopped, state`boundExceeded,
             state`timestamp, state`covered, state.store`sources, state.store`pending, state.loki`log
    ensures state.Ok()
    ensures OthersKept(p.sourceId, old(state.store.sources), state.store.sources)
    ensures CoveredStep(old(state.covered), state.covered, p)
    ensures state.boundExceeded == old(state.boundExceeded)
    ensures old(state.WithinBudget()) ==> state.WithinBudget()
    ensures ending in {PushStopped, BudgetStopped, Finished}
    ensures alive && ending == PushStopped ==> state.stopped && state.failed
    ensures alive && ending != PushStopped ==> state.store.pending.None? && p.sourceId in state.store.sources
    ensures alive && ending == Finished ==>
      completed && !state.stopped && ClosedFor(state.codec, state.store.sources[p.sourceId], window)
    ensures alive && ending == BudgetStopped ==>
      && !completed && state.stopped
      && OnlyProgress(p.sourceId, old(state.store.sources), state.store.sources)
      && (queue == [] ==> state.store.sources == old(state.store.sources) && state.timestamp == old(state.timestamp))
    ensures alive && ending == PushStopped ==> OnlyProgress(p.sourceId, old(state.store.sources), state.store.sources)
    ensures alive && ending != PushStopped ==>
      var before, now := old(state.store.sources)[p.sourceId].progress.offset,
        state.store.sources[p.sourceId].progress.offset;
      if queue == [] then
        now == before && state.bytesArchived == old(state.bytesArchived) && state.bodyBytes == old(state.bodyBytes)
      else now > before
    ensures alive && ending == BudgetStopped ==>
      Advanced(old(state.store.sources)[p.sourceId], state.store.sources[p.sourceId])
    ensures alive && ending == Finished ==>
      && SameVerification(r0, state.store.sources[p.sourceId])
      && state.store.sources[p.sourceId].progress.offset == |state.codec.decoded(r0.identity.compression, window)|
    ensures state.calm ==> alive && ending != PushStopped
  {
    hide Inv, TidyLog, AtPiece, Holds, Pieces, AtEnd, WholeQueue, OnlyProgress, OthersKept, EncodeBody, ClosedFor,
         BodySize, ResumeAt, SameVerification;
    var ok;
    ghost var before := state.store.sources[p.sourceId];
    PieceBlob(state.codec, p.sourceId, r0, before, blob, b);
    alive, ok := FlushRest(state, p, window, r0, blob, queue, cursor, b, i, size, completed);
    ProgressKeepsOthers(p.sourceId, old(state.store.sources), state.store.sources);
    if !alive || !ok {
      return alive, PushStopped;
    }
    if completed {
      SameBlobContent(old(state.store.State()), state.store.State(), before, state.store.sources[p.sourceId]);
    }
    ghost var last := state.store.sources;
    alive, ending := Conclude(state, p, window, completed);
    OthersKeptSteps(p.sourceId, old(state.store.sources), last, state.store.sources);
    if alive && ending == Finished {
      FinishedFacts(state.codec, p, r0, old(state.store.sources), last, state.store.sources, blob, window);
    }
  }

  lemma FinishedFacts(codec: Codec, p: FilePlan, r0: SourceRecord, before: map<Text, SourceRecord>,
                      middle: map<Text, SourceRecord>, after: map<Text, SourceRecord>, blob: Option<Bytes>,
                      window: Bytes)
    requires p.sourceId in before && before[p.sourceId].provenance == r0.provenance
    requires before[p.sourceId].identity == r0.identity
    requires OnlyProgress(p.sourceId, before, middle) && AtEnd(codec, p, middle[p.sourceId], blob, window)
    requires p.sourceId in after && SameVerification(middle[p.sourceId], after[p.sourceId])
    requires after[p.sourceId].progress == middle[p.sourceId].progress
    ensures SameVerification(r0, after[p.sourceId])
    ensures after[p.sourceId].progress.offset == |codec.decoded(r0.identity.compression, window)|
  {
  }

  lemma SameBlobContent(before: Db, after: Db, r: SourceRecord, next: SourceRecord)
    requires before.blobs == after.blobs && r.blob == next.blob
    ensures BlobContent(before, r) == BlobContent(after, next)
  {
  }

  lemma NoneCovered(covered: seq<CoveredFile>, p: FilePlan)
    ensures CoveredStep(covered, covered, p)
  {
  }

  lemma AdvancedSteps(a: SourceRecord, b: SourceRecord, c: SourceRecord)
    requires Advanced(a, b) && Advanced(b, c)
    ensures Advanced(a, c)
  {
  }

  /**
   Import one source whose row exists: read from where it stands, push, and record it complete if its end was reached.
   */
  method StreamRow(state: ImportState, p: FilePlan, window: Bytes) returns (alive: bool, ending: Ending)
    requires state.Ok() && state.store.pending.None? && !state.stopped
    requires p.sourceId in state.store.sources && InputOk(state.codec, state.store.State(), p, window)
    modifies state`bytesArchived, state`bodyBytes, state`pending, state`failed, state`stopped, state`boundExceeded,
             state`timestamp, state`labels, state`covered, state.store`sources, state.store`pending, state.loki`log
    ensures state.Ok()
    ensures OthersKept(p.sourceId, old(state.store.sources), state.store.sources)
    ensures CoveredStep(old(state.covered), state.covered, p)
    ensures state.boundExceeded == old(state.boundExceeded)
    ensures old(state.WithinBudget()) ==> state.WithinBudget()
    ensures alive && ending != PushStopped ==> state.store.pending.None?
    ensures alive && ending in {PushStopped, BudgetStopped} ==> state.stopped
    ensures alive && ending in {PushStopped, ReadBroken} ==> state.failed
    ensures ending !in {Unproved, Skipped} && (alive && ending in {ReadBroken, Finished} ==> !state.stopped)
    ensures alive && ending == Finished ==>
      p.sourceId in state.store.sources && ClosedFor(state.codec, state.store.sources[p.sourceId], window)
    ensures alive && ending != Finished ==> OnlyProgress(p.sourceId, old(state.store.sources), state.store.sources)
    ensures alive && ending == BudgetStopped && old(state.FreshStart()) && state.timestamp < Json.PowerOfTen(20) ==>
      && p.sourceId in state.store.sources
      && state.store.sources[p.sourceId].progress.offset > old(state.store.sources)[p.sourceId].progress.offset
    ensures alive && ending in {BudgetStopped, Finished, ReadBroken} ==>
      && p.sourceId in state.store.sources
      && var before, now := old(state.store.sources)[p.sourceId].progress.offset,
        state.store.sources[p.sourceId].progress.offset;
         && now >= before
         && (now > before
             || (state.bytesArchived == old(state.bytesArchived) && state.bodyBytes == old(state.bodyBytes)))
    ensures alive && ending in {BudgetStopped, ReadBroken} ==>
      Advanced(old(state.store.sources)[p.sourceId], state.store.sources[p.sourceId])
    ensures alive && ending == Finished ==>
      SameVerification(old(state.store.sources)[p.sourceId], state.store.sources[p.sourceId])
    ensures alive && ending in {BudgetStopped, ReadBroken, Finished} ==>
      state.store.sources[p.sourceId].progress.offset
      <= |state.codec.decoded(state.store.sources[p.sourceId].identity.compression, window)|
    ensures state.calm ==> alive
    ensures state.calm && CanRead(state.codec, old(state.store.sources), p, window) ==>
      ending in {BudgetStopped, Finished}
  {
    hide Readable, SameVerification, Inv, TidyLog, AtPiece, Holds, Pieces, AtEnd, WholeQueue, OnlyProgress, OthersKept,
         InputOk, HasPieces, EncodeBody, Json.PowerOfTen, ClosedFor, BodySize, ResumeAt, CoveredStep, Advanced,
         SameSource, ImportState.Grown;
    NoneCovered(state.covered, p);
    ghost var r0 := state.store.sources[p.sourceId];
    ghost var blob := BlobContent(state.store.State(), r0);
    Starts(state, p, window);
    state.ChooseLabels(state.store.sources[p.sourceId].identity);
    var verdict, whole, queue, cursor;
    ghost var b, i, size;
    alive, verdict, whole, queue, cursor, b, i, size := ReadAndPush(state, p, window);
    ProgressKeepsOthers(p.sourceId, old(state.store.sources), state.store.sources);
    if !alive || verdict == PushFailed {
      return alive, PushStopped;
    }
    Further(state, p.sourceId, r0, blob, queue, b, i, cursor);
    WithinWindow(state.codec, state.loki.log, old(state.store.State()), state.store.State(), p.sourceId, window);
    if verdict == Exhausted && !whole {
      state.failed := true;
      return true, ReadBroken;
    }
    ghost var middle := state.store.sources;
    var completed := verdict == Exhausted && !state.stopped && !state.BudgetReached();
    alive, ending := FinishSource(state, p, window, r0, blob, queue, cursor, b, i, size, completed);
    OthersKeptSteps(p.sourceId, old(state.store.sources), middle, state.store.sources);
    if alive && ending != Finished {
      OnlyProgressSteps(p.sourceId, old(state.store.sources), middle, state.store.sources);
    }
    if alive && ending == BudgetStopped {
      AdvancedSteps(r0, middle[p.sourceId], state.store.sources[p.sourceId]);
      WithinWindow(state.codec, state.loki.log, old(state.store.State()), state.store.State(), p.sourceId, window);
    }
    if alive && ending == Finished {
      SameCompression(p.sourceId, old(state.store.sources), state.store.sources);
    }
  }

  /** Import one source from where its row stands: read, push, and record it complete if its end was reached. */
  method StreamSource(state: ImportState, p: FilePlan, window: Bytes) returns (alive: bool, ending: Ending)
    requires state.Ok() && state.store.pending.None? && !state.stopped
    requires p.sourceId in state.store.sources && !p.input.NoInput? ==>
      InputOk(state.codec, state.store.State(), p, window)
    modifies state`bytesArchived, state`bodyBytes, state`pending, state`failed, state`stopped, state`boundExceeded,
             state`timestamp, state`labels, state`covered, state.store`sources, state.store`pending, state.loki`log
    ensures state.Ok()
    ensures OthersKept(p.sourceId, old(state.store.sources), state.store.sources)
    ensures CoveredStep(old(state.covered), state.covered, p)
    ensures state.boundExceeded == old(state.boundExceeded)
    ensures old(state.WithinBudget()) ==> state.WithinBudget()
    ensures alive && ending != PushStopped ==> state.store.pending.None?
    ensures alive && ending in {PushStopped, BudgetStopped} ==> state.stopped
    ensures alive && ending in {PushStopped, ReadBroken} ==> state.failed
    ensures alive && ending == Skipped ==> p.input.NoInput? || p.sourceId !in old(state.store.sources)
    ensures ending != Unproved
    ensures alive && ending == Skipped ==>
      && state.store.sources == old(state.store.sources)
      && state.bytesArchived == old(state.bytesArchived) && state.bodyBytes == old(state.bodyBytes)
    ensures alive && ending in {Skipped, ReadBroken, Finished} ==> !state.stopped
    ensures alive && ending == Finished ==>
      p.sourceId in state.store.sources && ClosedFor(state.codec, state.store.sources[p.sourceId], window)
    ensures alive && ending != Finished ==> OnlyProgress(p.sourceId, old(state.store.sources), state.store.sources)
    ensures alive && ending == BudgetStopped && old(state.FreshStart()) && state.timestamp < Json.PowerOfTen(20) ==>
      && p.sourceId in old(state.store.sources) && p.sourceId in state.store.sources
      && state.store.sources[p.sourceId].progress.offset > old(state.store.sources)[p.sourceId].progress.offset
    ensures alive && ending in {BudgetStopped, Finished, ReadBroken} ==>
      && p.sourceId in old(state.store.sources) && p.sourceId in state.store.sources
      && var before, now := old(state.store.sources)[p.sourceId].progress.offset,
        state.store.sources[p.sourceId].progress.offset;
         && now >= before
         && (now > before
             || (state.bytesArchived == old(state.bytesArchived) && state.bodyBytes == old(state.bodyBytes)))
    ensures alive && ending in {BudgetStopped, ReadBroken} ==>
      Advanced(old(state.store.sources)[p.sourceId], state.store.sources[p.sourceId])
    ensures alive && ending == Finished ==>
      SameVerification(old(state.store.sources)[p.sourceId], state.store.sources[p.sourceId])
    ensures alive && ending in {BudgetStopped, ReadBroken, Finished} ==>
      state.store.sources[p.sourceId].progress.offset
      <= |state.codec.decoded(state.store.sources[p.sourceId].identity.compression, window)|
    ensures state.calm ==> alive
    ensures state.calm && (ending == Skipped || CanRead(state.codec, old(state.store.sources), p, window)) ==>
      ending in {Skipped, BudgetStopped, Finished}
  {
    hide Inv, TidyLog, OnlyProgress, OthersKept, InputOk, CanRead, Json.PowerOfTen, ClosedFor, CoveredStep, Advanced,
         SameVerification;
    if p.input.NoInput? || p.sourceId !in state.store.sources {
      NoProgress(p.sourceId, state.store.sources);
      ProgressKeepsOthers(p.sourceId, state.store.sources, state.store.sources);
      NoneCovered(state.covered, p);
      return true, Skipped;
    }
    alive, ending := StreamRow(state, p, window);
  }

  /** What a plan reads can be read to its end, if its row exists. */
  ghost predicate CanRead(codec: Codec, sources: map<Text, SourceRecord>, p: FilePlan, window: Bytes) {
    p.sourceId in sources && Readable(codec, p.sourceId, sources[p.sourceId], p.input.Frozen?, window)
  }

  lemma SameCompression(id: Text, before: map<Text, SourceRecord>, after: map<Text, SourceRecord>)
    requires OthersKept(id, before, after) && id in before
    ensures id in after && after[id].identity == before[id].identity
  {
  }

  /** A row that moved along a window stands within it. */
  lemma WithinWindow(codec: Codec, log: seq<Body>, before: Db, after: Db, id: Text, window: Bytes)
    requires Inv(codec, log, after) && before.blobs == after.blobs && id in before.sources && id in after.sources
    requires Base(before.sources[id], BlobContent(before, before.sources[id])) == Some(window)
    requires Advanced(before.sources[id], after.sources[id])
    ensures after.sources[id].progress.offset <= |codec.decoded(after.sources[id].identity.compression, window)|
  {
    hide Covered, Delivered, Archived;
    RowOfInv(codec, log, after, id);
  }

  /** Every piece pushed has moved the row on. */
  lemma Further(state: ImportState, id: Text, r0: SourceRecord, blob: Option<Bytes>, queue: seq<Queued>, b: nat,
                i: nat, cursor: nat)
    requires state.Standing(id, r0, blob, queue, b, i, cursor)
    ensures state.store.sources[id].progress.offset >= r0.progress.offset + b
    ensures Advanced(r0, state.store.sources[id])
  {
    hide Inv, TidyLog, F.Fragments;
    var x := state.codec.decoded(r0.identity.compression, Base(r0, blob).value);
    var st := SettingsFor(state.codec, id, r0, Base(r0, blob) == blob);
    F.OffsetsAhead(x[r0.progress.offset..], ResumeAt(r0), st, 0, b);
  }
}
