/**
 The acknowledged import of one guest's logs. Every transaction and every push is a point where the process
 may die: methods return `alive == false` there, and the invariant holds all the same. Between runs files may
 change in any way; within one run a file keeps the prefix that was probed.
 */
module Import {
  import opened Utf8
  import opened LogEntry
  import opened Sources
  import opened Tables
  import opened Delivery
  import opened Coverage
  import opened Batching
  import opened Planner
  import opened Checkpoint
  import opened Tidy
  import F = Fragments
  import S = StreamReader
  import Json

  /** Total attempts for a transient push failure. */
  const PUSH_MAX_ATTEMPTS: nat := 3

  datatype PushOutcome = Accepted | Retryable | Rejected

  /** The log store: the bodies it has accepted, in order, and how many there were when each row was last started. */
  class LogStore {
    ghost var log: seq<Body>
    ghost var born: map<Text, nat>

    constructor ()
      ensures log == [] && born == map[]
    {
      log, born := [], map[];
    }

    /**
     Push one body, retrying transient failures. The store may take a body although its reply is lost, so a
     body may be in the log several times, and may be there although the push failed. A calm push is accepted.
     */
    method PushBatch(body: Body, calm: bool) returns (outcome: PushOutcome)
      modifies this`log
      ensures exists k: nat :: k <= PUSH_MAX_ATTEMPTS && log == old(log) + Copies(body, k)
      ensures outcome.Accepted? ==> body in log
      ensures calm ==> outcome.Accepted?
    {
      var attempts := 0;
      outcome := Retryable;
      ghost var k: nat := 0;
      assert log == old(log) + Copies(body, 0);
      while attempts < PUSH_MAX_ATTEMPTS && outcome.Retryable?
        invariant k <= attempts <= PUSH_MAX_ATTEMPTS && log == old(log) + Copies(body, k)
        invariant outcome.Accepted? ==> body in log
        invariant (calm ==> outcome.Accepted? || attempts == 0) && (attempts == 0 ==> outcome.Retryable?)
      {
        attempts := attempts + 1;
        var taken: bool := *;
        if taken || calm {
          log := log + [body];
          k := k + 1;
          assert log == old(log) + Copies(body, k);
          var answer: PushOutcome := *;
          outcome := if calm then Accepted else answer;
        } else {
          var refused: bool := *;
          outcome := if refused then Rejected else Retryable;
        }
      }
    }
  }

  ghost function Copies(body: Body, k: nat): (r: seq<Body>)
    ensures |r| == k
  {
    if k == 0 then [] else Copies(body, k - 1) + [body]
  }

  /** Pushing keeps the invariant, whatever became of the reply. */
  lemma {:induction false} AcceptCopies(codec: Codec, log: seq<Body>, db: Db, body: Body, k: nat)
    requires Inv(codec, log, db)
    ensures Inv(codec, log + Copies(body, k), db)
  {
    hide Inv;
    if k == 0 {
      assert log + Copies(body, 0) == log;
    } else {
      AcceptCopies(codec, log, db, body, k - 1);
      AcceptBody(codec, log + Copies(body, k - 1), db, body);
      assert log + Copies(body, k) == (log + Copies(body, k - 1)) + [body];
    }
  }

  lemma {:induction false} TidyCopies(born: map<Text, nat>, log: seq<Body>, sources: map<Text, SourceRecord>,
                                      pending: Option<PendingBatch>, k: nat)
    requires TidyLog(born, log, sources, pending) && pending.Some?
    ensures TidyLog(born, log + Copies(pending.value.body, k), sources, pending)
  {
    hide TidyLog;
    if k == 0 {
      assert log + Copies(pending.value.body, 0) == log;
    } else {
      TidyCopies(born, log, sources, pending, k - 1);
      TidyAccept(born, log + Copies(pending.value.body, k - 1), sources, pending);
      assert log + Copies(pending.value.body, k) == (log + Copies(pending.value.body, k - 1)) + [pending.value.body];
    }
  }

  datatype CoveredFile = CoveredFile(wire: Wire, sourceId: Text, sha256: Digest)

  /** A time read for an update of a row: the clock does not go back. */
  method Clock(floor: nat) returns (now: nat)
    ensures now >= floor
  {
    now := *;
    if now < floor {
      now := floor;
    }
  }

  /**
   The counters and flags of one import run over one guest. In a calm run the process does not die, every push is
   accepted and every transfer succeeds.
   */
  class ImportState {
    const store: CheckpointStore
    const loki: LogStore
    const codec: Codec
    const budget: int
    const labelsFor: (Profile, LogKind) -> Bytes
    const calm: bool
    ghost const origin: seq<Body>
    ghost var floor: seq<Body>
    var labels: Bytes
    var bytesArchived: int
    var bodyBytes: int
    var pending: bool
    var failed: bool
    var stopped: bool
    var boundExceeded: bool
    var timestamp: nat
    var covered: seq<CoveredFile>

    constructor (store: CheckpointStore, loki: LogStore, codec: Codec, budget: int,
                 labelsFor: (Profile, LogKind) -> Bytes, calm: bool)
      ensures fresh(this)
      ensures this.store == store && this.loki == loki && this.codec == codec && this.budget == budget
      ensures this.labelsFor == labelsFor && this.calm == calm && this.origin == this.floor == loki.log
      ensures bytesArchived == 0 && bodyBytes == 0 && !pending && !failed && !stopped && !boundExceeded && covered == []
    {
      this.store, this.loki, this.codec, this.budget, this.labelsFor, this.calm := store, loki, codec, budget,
        labelsFor, calm;
      labels, origin, floor := [], loki.log, loki.log;
      bytesArchived, bodyBytes, pending, failed, stopped, boundExceeded := 0, 0, false, false, false, false;
      timestamp, covered := 0, [];
    }

    /** The process may die between any two transactions, except in a calm run. */
    method Dies() returns (dies: bool)
      ensures calm ==> !dies
    {
      dies := *;
      dies := dies && !calm;
    }

    /** The log has only grown since the run began, and since it planned: `floor` is the log as it was then. */
    ghost predicate Grown()
      reads this`floor, loki`log
    {
      origin <= floor <= loki.log
    }

    /** The invariant of the store and the log of accepted bodies. */
    ghost predicate Ok()
      reads this, store, loki
    {
      && Inv(codec, loki.log, store.State()) && Grown()
      && TidyLog(loki.born, loki.log, store.sources, store.pending)
    }

    function BudgetReached(): bool
      reads this
    {
      bytesArchived >= budget || bodyBytes >= budget
    }

    /** Report a file whose current identity is covered in full, once per source. */
    method AddCovered(wire: Wire, id: Text, r: SourceRecord)
      modifies this`covered
      ensures covered ==
        if CurrentCoverage(r, wire) && !(exists c <- old(covered) :: c.sourceId == id)
        then old(covered) + [CoveredFile(wire, id, r.digest.value)] else old(covered)
    {
      if CurrentCoverage(r, wire) && !(exists c <- covered :: c.sourceId == id) {
        covered := covered + [CoveredFile(wire, id, r.digest.value)];
      }
    }

    method ObserveTimestamp(t: nat)
      modifies this`timestamp
      ensures timestamp == F.Max(t, old(timestamp))
    {
      if t > timestamp {
        timestamp := t;
      }
    }

    /** A strictly increasing timestamp, not behind the clock. */
    method NextTimestamp() returns (t: nat)
      modifies this`timestamp
      ensures t == timestamp > old(timestamp)
    {
      var clock: nat := *;
      timestamp := F.Max(timestamp + 1, clock);
      t := timestamp;
    }

    /** Push the stored body; only an accepted one is acknowledged, and moves its source on. */
    method PushSaved() returns (alive: bool, outcome: PushOutcome)
      requires Ok() && store.pending.Some?
      modifies store`sources, store`pending, loki`log
      ensures Ok()
      ensures |old(store.pending).value.progress| == 1
      ensures var d := old(store.pending).value.progress[0];
        && d.sourceId in old(store.sources)
        && OnlyProgress(d.sourceId, old(store.sources), store.sources)
        && (alive && outcome.Accepted? ==>
              && store.pending.None? && d.sourceId in store.sources
              && store.sources == old(store.sources)[d.sourceId := ApplyDelta(old(store.sources)[d.sourceId], d,
                                                                              store.sources[d.sourceId].updatedNs)])
      ensures alive && !outcome.Accepted? ==> store.State() == old(store.State())
      ensures calm ==> alive && outcome.Accepted?
    {
      hide Inv, TidyLog, OnlyProgress;
      ghost var db := store.State();
      PendingShape(codec, loki.log, db);
      var batch := store.pending.value;
      NoProgress(batch.progress[0].sourceId, store.sources);
      outcome := loki.PushBatch(batch.body, calm);
      ghost var k: nat :| loki.log == old(loki.log) + Copies(batch.body, k);
      AcceptCopies(codec, old(loki.log), db, batch.body, k);
      TidyCopies(loki.born, old(loki.log), db.sources, db.pending, k);
      var died := Dies();
      if died {
        return false, outcome;
      }
      if outcome.Accepted? {
        var now := Clock(store.sources[batch.progress[0].sourceId].updatedNs);
        AcknowledgeKeeps(codec, loki.log, db, batch.batchId, now);
        AcknowledgeTidies(codec, loki.born, loki.log, db, batch.batchId, now);
        OneDelta(db.sources, batch.progress, now);
        DeltaIsProgress(db.sources, batch.progress[0].sourceId, batch.progress[0], now);
        var acknowledged := store.AcknowledgeBatch(batch.batchId, now);
        died := Dies();
        if died {
          return false, outcome;
        }
      }
      alive := true;
    }

    /**
     Persist the exact body, push it, and advance progress only when it was accepted. When this returns alive
     and not ok, the batch either stays pending for the next run or was refused for its size.
     */
    method FlushValues(id: Text, queue: seq<Queued>, startOffset: nat, complete: bool, digest: Option<Digest>)
      returns (alive: bool, ok: bool)
      requires Ok() && store.pending.None? && queue != [] && id in store.sources
      requires QueueOk(codec, id, store.sources[id], BlobContent(store.State(), store.sources[id]), queue, complete,
                       digest)
      modifies this`bytesArchived, this`bodyBytes, this`pending, this`failed, this`stopped, this`boundExceeded,
               this`timestamp, store`sources, store`pending, loki`log
      ensures Ok()
      ensures OnlyProgress(id, old(store.sources), store.sources)
      ensures !(alive && ok) ==> bytesArchived == old(bytesArchived) && bodyBytes == old(bodyBytes)
      ensures alive && !ok ==>
        failed && store.sources == old(store.sources)
        && (stopped || |EncodeBody(Body(labels, ValuesOf(queue)))| > MAX_BODY_BYTES)
      ensures alive && ok ==>
        && store.pending.None?
        && id in store.sources
        && store.sources == old(store.sources)[id := ApplyDelta(old(store.sources)[id],
                                                                DeltaFor(id, queue, complete, digest),
                                                                store.sources[id].updatedNs)]
        && bytesArchived == old(bytesArchived) + F.Max(queue[|queue| - 1].next.offset - startOffset, 0)
        && bodyBytes == old(bodyBytes) + |EncodeBody(Body(labels, ValuesOf(queue)))|
        && stopped == old(stopped) && failed == old(failed)
      ensures |EncodeBody(Body(labels, ValuesOf(queue)))| <= MAX_BODY_BYTES ==> boundExceeded == old(boundExceeded)
      ensures |EncodeBody(Body(labels, ValuesOf(queue)))| <= MAX_BODY_BYTES && calm ==> alive && ok
    {
      hide Inv, TidyLog, EncodeBody, QueueOk, OnlyProgress;
      NoProgress(id, store.sources);
      var last := queue[|queue| - 1];
      var body := Body(labels, ValuesOf(queue));
      if |EncodeBody(body)| > MAX_BODY_BYTES {
        failed := true;
        boundExceeded := true;
        return true, false;
      }
      var batchId: Text := *;
      var created: nat := *;
      var batch := PendingBatch(batchId, body, created, [DeltaFor(id, queue, complete, digest)]);
      SaveKeeps(codec, loki.log, store.State(), id, queue, complete, digest, batch);
      SavedIsLined(codec, loki.log, store.State().(pending := Some(batch)));
      TidySave(loki.born, loki.log, store.sources, batch);
      var saved := store.SavePendingBatch(batch);
      var died := Dies();
      if died {
        return false, false;
      }
      var outcome;
      alive, outcome := PushSaved();
      if !alive {
        return false, false;
      }
      if outcome.Accepted? {
        bytesArchived := bytesArchived + F.Max(last.next.offset - startOffset, 0);
        bodyBytes := bodyBytes + |EncodeBody(body)|;
        ObserveTimestamp(last.timestamp);
        return true, true;
      }
      stopped := true;
      failed := true;
      if outcome.Retryable? {
        pending := true;
      }
      return true, false;
    }

    /** Record the completed prefix: provenance, then digest, then the acknowledged flag, each on its own. */
    method MarkComplete(p: FilePlan, raw: Digest, decoded: Digest, lineage: Option<Text>) returns (alive: bool)
      requires Ok() && store.pending.None?
      requires CompletionEvidence(codec, loki.log, store.State(), p, raw, decoded)
      modifies store`sources
      ensures Ok()
      ensures OthersKept(p.sourceId, old(store.sources), store.sources)
      ensures calm ==> alive
      ensures alive ==>
        && p.sourceId in store.sources
        && store.sources == old(store.sources)[p.sourceId :=
             Completed(old(store.sources)[p.sourceId], p, raw, decoded, lineage)
               .(digest := Some(raw), acknowledged := true, updatedNs := store.sources[p.sourceId].updatedNs)]
    {
      hide Inv, TidyLog, Tables.RecordSource, SetDigest, MarkAcknowledged, Completed, CompletedProvenance, Archived,
           OthersKept, SameSource;
      var id := p.sourceId;
      var r := store.sources[id];
      var now := Clock(r.updatedNs);
      var later := Clock(now);
      var last := Clock(later);
      CompletedSource(store.sources, p, raw, decoded, lineage, now, later, last);
      CompletionKeeps(codec, loki.log, store.State(), p, raw, decoded, lineage, now, later, last);
      CompletionTidies(loki.born, loki.log, store.State(), p, raw, decoded, lineage, now, later, last);
      store.RecordSource(id, if p.wire.Some? then p.wire.value else r.identity,
                         Some(CompletedProvenance(r, p, raw, decoded, lineage)), None, r.inInitialManifest, r.blob,
                         None, false, now);
      var died := Dies();
      if died {
        return false;
      }
      var ok := store.SetSourceDigest(id, raw, later);
      died := Dies();
      if died {
        return false;
      }
      ok := store.MarkSourceAcknowledged(id, last);
      died := Dies();
      return !died;
    }

    // ---- Reading and pushing one source --------------------------------------------------------------

    /**
     Decode a window of raw bytes and cut it into fragments from where the row stands. Reading may fail at any
     time; what was yielded before is still the beginning of what remains.
     */
    method ReadFragments(id: Text, r: SourceRecord, frozen: bool, window: Bytes)
      returns (fragments: seq<F.LogFragment>, end: S.End)
      requires codec.Lawful()
      ensures Yields(codec, id, r, frozen, window, fragments, end.Finished?)
      ensures calm && Readable(codec, id, r, frozen, window) ==> end.Finished?
    {
      hide F.Fragments, F.TakeStep, CanonicalPath;
      var st := SettingsFor(codec, id, r, frozen);
      var unreachable: bool := *;
      if unreachable && !calm {
        return [], S.Stopped(S.ReadFailed);
      }
      var reader := OpenDecoded(r.identity.compression, window, frozen);
      fragments, end := S.IterLogFragments(reader, st.filename, id, ResumeAt(r), st.activePrefix, MAX_RAW_FRAGMENT,
                                           codec.shrinkTarget);
    }

    /** Open a window of raw bytes as a decoded stream; a frozen window is checked against its recorded digest. */
    method OpenDecoded(compression: Compression, window: Bytes, frozen: bool) returns (reader: S.DecodedLogReader)
      requires codec.Lawful()
      ensures fresh(reader) && fresh(reader.raw) && fresh(reader.frames)
      ensures reader.Valid() && reader.Rest() == codec.decoded(compression, window) && reader.Position() == 0
      ensures reader.plain || !reader.frames.corrupt ==> codec.wellFormed(compression, window)
      ensures calm && codec.wellFormed(compression, window) ==> reader.Sound()
    {
      var x := codec.decoded(compression, window);
      var raw := new S.RemoteLogReader(window, if frozen then Some(window) else None, calm);
      var frames := new S.FrameDecoder([x], !codec.wellFormed(compression, window));
      S.FlattenSingle(x);
      reader := new S.DecodedLogReader(compression == Plain, raw, frames, 0);
    }

    /** The row of the source being imported, the queue, and the fragments they stand for. */
    ghost predicate Standing(id: Text, r0: SourceRecord, blob: Option<Bytes>, queue: seq<Queued>, b: nat, i: nat,
                             cursor: nat)
      reads this, store, loki
    {
      && Ok() && store.pending.None? && id in store.sources
      && BlobContent(store.State(), store.sources[id]) == blob
      && HasPieces(codec, r0, blob)
      && AtPiece(codec, id, r0, store.sources[id], blob, b)
      && Holds(queue, Pieces(codec, id, r0, blob), b, i) && b <= i
      && cursor == store.sources[id].progress.offset
    }

    /** The running size is that of the body the queue would make, and the queue keeps within every cap. */
    ghost predicate Sized(queue: seq<Queued>, bodySize: nat, cursor: nat)
      reads this
    {
      && bodySize == BodySize(labels, queue)
      && (queue != [] ==>
            && bodySize <= MAX_BODY_BYTES && bodySize <= budget - bodyBytes
            && bytesArchived + queue[|queue| - 1].next.offset - cursor <= budget)
    }

    predicate WithinBudget()
      reads this
    {
      bytesArchived <= budget && bodyBytes <= budget
    }

    /** Push the queue as a streaming batch; the row then stands at the fragment after it. */
    method PushQueue(id: Text, ghost r0: SourceRecord, ghost blob: Option<Bytes>, queue: seq<Queued>, ghost b: nat,
                     ghost i: nat, cursor: nat, ghost bodySize: nat)
      returns (alive: bool, ok: bool)
      requires Standing(id, r0, blob, queue, b, i, cursor) && Sized(queue, bodySize, cursor) && queue != []
      modifies this`bytesArchived, this`bodyBytes, this`pending, this`failed, this`stopped, this`boundExceeded,
               this`timestamp, store`sources, store`pending, loki`log
      ensures Ok()
      ensures OnlyProgress(id, old(store.sources), store.sources)
      ensures boundExceeded == old(boundExceeded)
      ensures old(WithinBudget()) ==> WithinBudget()
      ensures alive && !ok ==> stopped && failed
      ensures alive && ok ==>
        && Standing(id, r0, blob, [], i, i, queue[|queue| - 1].next.offset)
        && stopped == old(stopped) && failed == old(failed)
      ensures calm ==> alive && ok
    {
      hide OnlyProgress, Inv, TidyLog, AtPiece, Holds, QueueOk, EncodeBody, Pieces;
      QueueReady(codec, id, r0, store.sources[id], blob, queue, b, i, false, None);
      ghost var before := store.sources[id];
      alive, ok := FlushValues(id, queue, cursor, false, None);
      if alive && ok {
        AfterQueue(codec, id, r0, before, blob, queue, b, i, store.sources[id].updatedNs);
        HoldsNothing(queue, Pieces(codec, id, r0, blob), b, i);
        SameBlob(codec, id, r0, before, store.sources[id], blob, b, i);
      }
    }

    /** Push the queue first when one more value of this size would take it over a cap. */
    method MakeRoom(id: Text, ghost r0: SourceRecord, ghost blob: Option<Bytes>, encoded: nat, next: nat,
                    queue0: seq<Queued>, cursor0: nat, size0: nat, ghost b0: nat, ghost i: nat)
      returns (alive: bool, ok: bool, queue: seq<Queued>, cursor: nat, size: nat, ghost b: nat)
      requires Standing(id, r0, blob, queue0, b0, i, cursor0) && Sized(queue0, size0, cursor0)
            && (queue0 == [] ==> b0 == i)
      modifies this`bytesArchived, this`bodyBytes, this`pending, this`failed, this`stopped, this`boundExceeded,
               this`timestamp, store`sources, store`pending, loki`log
      ensures Ok()
      ensures OnlyProgress(id, old(store.sources), store.sources)
      ensures boundExceeded == old(boundExceeded)
      ensures old(WithinBudget()) ==> WithinBudget()
      ensures alive && !ok ==> stopped && failed
      ensures alive && ok ==>
        && Standing(id, r0, blob, queue, b, i, cursor) && Sized(queue, size, cursor) && (queue == [] ==> b == i)
        && stopped == old(stopped) && failed == old(failed)
        && (b == b0 ==>
              bytesArchived == old(bytesArchived) && bodyBytes == old(bodyBytes) && timestamp == old(timestamp))
        && b0 <= b
        && (queue == [] || Fits(size + encoded + 1, next, cursor))
      ensures calm ==> alive && ok
    {
      hide OnlyProgress, Inv, TidyLog, AtPiece, Holds, Pieces, EncodeBody;
      NoProgress(id, store.sources);
      queue, cursor, size, b := queue0, cursor0, size0, b0;
      if queue != [] && !Fits(size + encoded + 1, next, cursor) {
        HoldsSome(queue, Pieces(codec, id, r0, blob), b, i);
        alive, ok := PushQueue(id, r0, blob, queue, b, i, cursor, size);
        if !alive || !ok {
          return;
        }
        cursor := queue[|queue| - 1].next.offset;
        queue, b := [], i;
        size := EmptyBodySize();
        return;
      }
      alive, ok := true, true;
    }

    /** Queue one fragment, pushing the queue first when the fragment would take it over a cap. */
    method Enqueue(id: Text, ghost r0: SourceRecord, ghost blob: Option<Bytes>, f: F.LogFragment, queue0: seq<Queued>,
                   cursor0: nat, size0: nat, ghost b0: nat, ghost i: nat)
      returns (alive: bool, verdict: Verdict, queue: seq<Queued>, cursor: nat, size: nat, ghost b: nat)
      requires Standing(id, r0, blob, queue0, b0, i, cursor0) && Sized(queue0, size0, cursor0)
            && (queue0 == [] ==> b0 == i)
      requires i < |Pieces(codec, id, r0, blob)| && f == Pieces(codec, id, r0, blob)[i]
      modifies this`bytesArchived, this`bodyBytes, this`pending, this`failed, this`stopped, this`boundExceeded,
               this`timestamp, store`sources, store`pending, loki`log
      ensures Ok()
      ensures OnlyProgress(id, old(store.sources), store.sources)
      ensures boundExceeded == old(boundExceeded)
      ensures old(WithinBudget()) ==> WithinBudget()
      ensures alive && verdict == PushFailed ==> stopped && failed
      ensures alive && verdict != PushFailed ==>
        && Standing(id, r0, blob, queue, b, if verdict == Exhausted then i + 1 else i, cursor)
        && Sized(queue, size, cursor)
        && failed == old(failed)
        && (b == b0 ==> bytesArchived == old(bytesArchived) && bodyBytes == old(bodyBytes))
        && b0 <= b
      ensures alive && verdict == Exhausted ==> queue != [] && stopped == old(stopped) && !BudgetReached()
      ensures alive && verdict == CapReached ==> stopped && queue == [] && b == i
      ensures alive && verdict == CapReached && i == 0 && timestamp < Json.PowerOfTen(20) ==> !old(FreshRun())
      ensures calm ==> alive && verdict != PushFailed
    {
      hide OnlyProgress, Inv, TidyLog, AtPiece, Holds, Pieces, EncodeBody, EncodeEntry, Json.EncodeValue,
           Json.PowerOfTen;
      var t := NextTimestamp();
      var q := Queued(t, f.entry, f.next);
      var encoded := |EncodedValue(q)|;
      var ok;
      alive, ok, queue, cursor, size, b := MakeRoom(id, r0, blob, encoded, f.next.offset, queue0, cursor0, size0, b0,
                                                    i);
      if !alive || !ok {
        return alive, PushFailed, [], 0, 0, 0;
      }
      var addition := encoded + (if queue == [] then 0 else 1);
      if !Fits(size + addition, f.next.offset, cursor) {
        if i == 0 {
          CapIsReal(id, r0, blob, q, b, cursor);
        }
        stopped := true;
        return true, CapReached, queue, cursor, size, b;
      }
      QueueSize(labels, queue, q);
      BodySizePositive(labels, queue + [q]);
      QueueAhead(codec, id, r0, store.sources[id], blob, b, i);
      HoldsMore(queue, Pieces(codec, id, r0, blob), b, i, q);
      queue := queue + [q];
      size := size + addition;
      // The budget test that follows a queued value never fires: what fits leaves both counters below the budget.
      return true, Exhausted, queue, cursor, size, b;
    }

    /** The first fragment of a run that has pushed nothing yet always fits. */
    lemma CapIsReal(id: Text, r0: SourceRecord, blob: Option<Bytes>, q: Queued, b: nat, cursor: nat)
      requires Standing(id, r0, blob, [], b, 0, cursor)
      requires 0 < |Pieces(codec, id, r0, blob)|
      requires q.entry == Pieces(codec, id, r0, blob)[0].entry && q.next == Pieces(codec, id, r0, blob)[0].next
      ensures FreshRun() && q.timestamp < Json.PowerOfTen(20) ==>
        Fits(BodySize(labels, []) + |EncodedValue(q)|, q.next.offset, cursor)
    {
      hide Inv, TidyLog, Pieces, EncodeBody, EncodeEntry, Json.EncodeValue, Json.PowerOfTen, Holds;
      FirstFits(codec, id, r0, blob, q, labels, 0);
    }

    method EmptyBodySize() returns (size: nat)
      ensures size == BodySize(labels, [])
    {
      size := |EncodeBody(Body(labels, ValuesOf([])))|;
    }

    /**
     Queue and push fragments in order until they run out, a cap is reached or a push fails. Everything pushed
     is accounted for: the running size is exact and no cap is ever exceeded.
     */
    method PushFragments(id: Text, ghost r0: SourceRecord, ghost blob: Option<Bytes>, fragments: seq<F.LogFragment>)
      returns (alive: bool, verdict: Verdict, queue: seq<Queued>, cursor: nat, ghost b: nat, ghost i: nat,
               ghost bodySize: nat)
      requires Standing(id, r0, blob, [], 0, 0, r0.progress.offset) && r0 == store.sources[id]
      requires fragments <= Pieces(codec, id, r0, blob)
      modifies this`bytesArchived, this`bodyBytes, this`pending, this`failed, this`stopped, this`boundExceeded,
               this`timestamp, store`sources, store`pending, loki`log
      ensures Ok()
      ensures OnlyProgress(id, old(store.sources), store.sources)
      ensures boundExceeded == old(boundExceeded)
      ensures old(WithinBudget()) ==> WithinBudget()
      ensures alive && verdict == PushFailed ==> stopped && failed
      ensures alive && verdict != PushFailed ==>
        && Standing(id, r0, blob, queue, b, i, cursor) && Sized(queue, bodySize, cursor)
        && failed == old(failed)
      ensures alive && verdict == Exhausted ==>
        i == |fragments| && stopped == old(stopped) && (BudgetReached() ==> old(BudgetReached()))
      ensures alive && verdict == CapReached ==> stopped && queue == []
      ensures alive && verdict != PushFailed && b == 0 ==>
        bytesArchived == old(bytesArchived) && bodyBytes == old(bodyBytes)
      ensures alive && verdict == CapReached && old(FreshRun()) && timestamp < Json.PowerOfTen(20) ==> b > 0
      ensures calm ==> alive && verdict != PushFailed
    {
      hide Ok, OnlyProgress, Inv, TidyLog, AtPiece, Holds, Pieces, EncodeBody, EncodeEntry, Json.PowerOfTen, BodySize,
           ResumeAt, HasPieces;
      queue, cursor, b, i := [], store.sources[id].progress.offset, 0, 0;
      NoProgress(id, store.sources);
      var size := EmptyBodySize();
      var n := 0;
      while n < |fragments|
        invariant n == i <= |fragments|
        invariant Standing(id, r0, blob, queue, b, i, cursor) && Sized(queue, size, cursor)
        invariant OnlyProgress(id, old(store.sources), store.sources)
        invariant boundExceeded == old(boundExceeded) && stopped == old(stopped) && failed == old(failed)
        invariant old(WithinBudget()) ==> WithinBudget()
        invariant BudgetReached() ==> old(BudgetReached())
        invariant i == 0 ==> b == 0
        invariant b == 0 ==> bytesArchived == old(bytesArchived) && bodyBytes == old(bodyBytes)
        invariant queue == [] ==> b == i
      {
        ghost var before := store.sources;
        alive, verdict, queue, cursor, size, b := Enqueue(id, r0, blob, fragments[n], queue, cursor, size, b, i);
        OnlyProgressSteps(id, old(store.sources), before, store.sources);
        if !alive || verdict != Exhausted {
          bodySize := size;
          return;
        }
        i, n := i + 1, n + 1;
      }
      bodySize := size;
      return true, Exhausted, queue, cursor, b, i, size;
    }

    /** Whether a body of this size, reaching this offset, keeps within the body cap and the run's budget. */
    predicate Fits(bodySize: nat, next: nat, cursor: nat)
      reads this
    {
      bodySize <= F.Min(MAX_BODY_BYTES, budget - bodyBytes) && bytesArchived + next - cursor <= budget
    }

    /** A run that has pushed nothing yet, with a usable budget and labels of sensible size. */
    predicate FreshRun()
      reads this
    {
      bytesArchived == 0 && bodyBytes == 0 && budget >= 1024 * 1024 && |labels| <= MAX_LABELS
    }

    /** The same before a source is chosen. */
    ghost predicate FreshStart()
      reads this
    {
      && bytesArchived == 0 && bodyBytes == 0 && budget >= 1024 * 1024
      && forall profile: Profile, kind: LogKind :: |labelsFor(profile, kind)| <= MAX_LABELS
    }

    /** The stream labels of a source's bodies. */
    method ChooseLabels(wire: Wire)
      modifies this`labels
      ensures labels == labelsFor(wire.profile, wire.logKind)
    {
      labels := labelsFor(wire.profile, wire.logKind);
    }
  }

  /** Nothing but the progress of one row has changed: it was not completed, renamed or given another blob. */
  ghost predicate OnlyProgress(id: Text, before: map<Text, SourceRecord>, after: map<Text, SourceRecord>) {
    && before.Keys == after.Keys
    && (forall k <- before :: k != id ==> after[k] == before[k])
    && (id in before ==>
          && after[id].provenance == before[id].provenance && after[id].identity == before[id].identity
          && after[id].blob == before[id].blob && after[id].updatedNs >= before[id].updatedNs)
  }

  /** The row has moved along its source and is otherwise as it was. */
  predicate Advanced(before: SourceRecord, after: SourceRecord) {
    after == before.(progress := after.progress, streamTsNs := after.streamTsNs, acknowledged := after.acknowledged,
                     updatedNs := after.updatedNs)
  }

  /** The row is still that of the same file, under the same generation and with the same blob. */
  predicate SameSource(before: SourceRecord, after: SourceRecord) {
    && after.identity == before.identity && after.blob == before.blob
    && after.provenance.canonicalPath == before.provenance.canonicalPath
    && after.provenance.activeAtCapture == before.provenance.activeAtCapture
    && after.provenance.generation == before.provenance.generation
    && after.updatedNs >= before.updatedNs
  }

  /** No row came or went, no other row changed, and this one is still that of its file. */
  ghost predicate OthersKept(id: Text, before: map<Text, SourceRecord>, after: map<Text, SourceRecord>) {
    && before.Keys == after.Keys
    && (forall k <- before :: k != id ==> after[k] == before[k])
    && (id in before ==> SameSource(before[id], after[id]))
  }

  /** No row came or went, and each is still that of its file. */
  ghost predicate SameRows(before: map<Text, SourceRecord>, after: map<Text, SourceRecord>) {
    before.Keys == after.Keys && forall id <- before :: SameSource(before[id], after[id])
  }

  lemma SameRowsSteps(a: map<Text, SourceRecord>, b: map<Text, SourceRecord>, c: map<Text, SourceRecord>)
    requires SameRows(a, b) && SameRows(b, c)
    ensures SameRows(a, c)
  {
  }

  lemma ProgressIsSame(id: Text, before: map<Text, SourceRecord>, after: map<Text, SourceRecord>)
    requires OnlyProgress(id, before, after)
    ensures SameRows(before, after)
  {
  }

  lemma KeptIsSame(id: Text, before: map<Text, SourceRecord>, after: map<Text, SourceRecord>)
    requires OthersKept(id, before, after)
    ensures SameRows(before, after)
  {
  }

  lemma OnlyProgressSteps(id: Text, a: map<Text, SourceRecord>, b: map<Text, SourceRecord>, c: map<Text, SourceRecord>)
    requires OnlyProgress(id, a, b) && OnlyProgress(id, b, c)
    ensures OnlyProgress(id, a, c)
  {
  }

  lemma NoProgress(id: Text, a: map<Text, SourceRecord>)
    ensures OnlyProgress(id, a, a)
  {
  }

  /** Applying one delta changes progress only. */
  lemma DeltaIsProgress(a: map<Text, SourceRecord>, id: Text, d: Delta, now: nat)
    requires id in a && now >= a[id].updatedNs
    ensures OnlyProgress(id, a, a[id := ApplyDelta(a[id], d, now)])
  {
  }

  /** The fragments are the beginning of what a window holds from where the row stands; all of it when finished. */
  ghost predicate Yields(codec: Codec, id: Text, r: SourceRecord, frozen: bool, window: Bytes,
                         fragments: seq<F.LogFragment>, finished: bool)
  {
    var x := codec.decoded(r.identity.compression, window);
    if r.progress.offset > |x| then fragments == [] && !finished
    else
      var run := F.Fragments(x[r.progress.offset..], ResumeAt(r), SettingsFor(codec, id, r, frozen));
      && fragments <= run.fragments
      && (finished ==> run == F.Run(fragments, false) && codec.wellFormed(r.identity.compression, window))
  }

  /** The row stands within the window, which decodes to its end, and no entry's metadata is over the ceiling. */
  ghost predicate Readable(codec: Codec, id: Text, r: SourceRecord, frozen: bool, window: Bytes) {
    var x := codec.decoded(r.identity.compression, window);
    && r.progress.offset <= |x|
    && codec.wellFormed(r.identity.compression, window)
    && !F.Fragments(x[r.progress.offset..], ResumeAt(r), SettingsFor(codec, id, r, frozen)).stuck
  }

  /** At most the plan's own file was reported as covered. */
  predicate CoveredStep(before: seq<CoveredFile>, after: seq<CoveredFile>, p: FilePlan) {
    || after == before
    || (&& p.wire.Some? && |after| == |before| + 1 && after[..|before|] == before
        && after[|before|].wire == p.wire.value && after[|before|].sourceId == p.sourceId)
  }

  /** How pushing a source's fragments ended. */
  datatype Verdict = Exhausted | CapReached | PushFailed

  lemma HoldsSome(queue: seq<Queued>, fs: seq<F.LogFragment>, b: nat, i: nat)
    requires Holds(queue, fs, b, i) && queue != []
    ensures b < i
  {
  }

  /** The three transactions of a completion keep the invariant one by one. */
  lemma CompletionKeeps(codec: Codec, log: seq<Body>, db: Db, p: FilePlan, raw: Digest, decoded: Digest,
                        lineage: Option<Text>, now: nat, later: nat, last: nat)
    requires Inv(codec, log, db) && db.pending.None? && CompletionEvidence(codec, log, db, p, raw, decoded)
    ensures p.sourceId in db.sources
    ensures var id := p.sourceId;
      var r := db.sources[id];
      var done := Completed(r, p, raw, decoded, lineage);
      var db1 := db.(sources := db.sources[id := done.(updatedNs := now)]);
      var db2 := db.(sources := db.sources[id := done.(digest := Some(raw), updatedNs := later)]);
      var db3 := db.(sources := db.sources[id := done.(digest := Some(raw), acknowledged := true, updatedNs := last)]);
      && Tables.RecordSource(db, id, if p.wire.Some? then p.wire.value else r.identity,
                             Some(CompletedProvenance(r, p, raw, decoded, lineage)), None, r.inInitialManifest, r.blob,
                             None, false, now) == db1
      && SetDigest(db1, id, raw, later) == db2
      && MarkAcknowledged(db2, id, last) == db3
      && Inv(codec, log, db1) && Inv(codec, log, db2) && Inv(codec, log, db3)
  {
    hide Inv, RowOk, CompletedProvenance, Completed, CompletionEvidence;
    var id := p.sourceId;
    CompletionRows(codec, log, db, p, raw, decoded, lineage, now, later, last);
    var r := db.sources[id];
    CompletionRecorded(db, p, raw, decoded, lineage, now);
    var done := Completed(r, p, raw, decoded, lineage);
    RewriteRow(codec, log, db, id, done.(updatedNs := now));
    RewriteRow(codec, log, db, id, done.(digest := Some(raw), updatedNs := later));
    RewriteRow(codec, log, db, id, done.(digest := Some(raw), acknowledged := true, updatedNs := last));
    assert db.sources[id := done.(updatedNs := now)][id := done.(digest := Some(raw), updatedNs := later)]
        == db.sources[id := done.(digest := Some(raw), updatedNs := later)];
  }

  lemma CompletionRecorded(db: Db, p: FilePlan, raw: Digest, decoded: Digest, lineage: Option<Text>, now: nat)
    requires p.sourceId in db.sources
    ensures var r := db.sources[p.sourceId];
      Tables.RecordSource(db, p.sourceId, if p.wire.Some? then p.wire.value else r.identity,
                          Some(CompletedProvenance(r, p, raw, decoded, lineage)), None, r.inInitialManifest, r.blob,
                          None, false, now)
      == db.(sources := db.sources[p.sourceId := Completed(r, p, raw, decoded, lineage).(updatedNs := now)])
  {
    hide CompletedProvenance;
  }

  /** The row after each transaction is in order. */
  lemma CompletionRows(codec: Codec, log: seq<Body>, db: Db, p: FilePlan, raw: Digest, decoded: Digest,
                       lineage: Option<Text>, now: nat, later: nat, last: nat)
    requires Inv(codec, log, db) && CompletionEvidence(codec, log, db, p, raw, decoded)
    ensures p.sourceId in db.sources
    ensures var id := p.sourceId;
      var r := db.sources[id];
      var done := Completed(r, p, raw, decoded, lineage);
      var r1 := done.(updatedNs := now);
      var r2 := done.(digest := Some(raw), updatedNs := later);
      var r3 := done.(digest := Some(raw), acknowledged := true, updatedNs := last);
      && done.blob == r.blob && done.identity == r.identity
      && RowOk(codec, log, id, r1, BlobContent(db, r1))
      && RowOk(codec, log, id, r2, BlobContent(db, r2))
      && RowOk(codec, log, id, r3, BlobContent(db, r3))
  {
    hide Inv, RowOk, Archived, CompletedProvenance;
    var id := p.sourceId;
    var r := db.sources[id];
    var blob := BlobContent(db, r);
    RowOfInv(codec, log, db, id);
    var r1 := Completed(r, p, raw, decoded, lineage).(updatedNs := now);
    CompletedFields(r, p, raw, decoded, lineage);
    CompletedRow(codec, log, id, r, blob, raw.content, r1);
    var r2 := r1.(digest := Some(raw), updatedNs := later);
    DigestedRow(codec, log, id, r1, blob, raw.content);
    MarkedRow(codec, log, id, r1.(digest := Some(raw)), blob, r2);
    MarkedRow(codec, log, id, r2, blob, r2.(acknowledged := true, updatedNs := last));
  }

  /** None of them moves the row's progress. */
  lemma SavedIsLined(codec: Codec, log: seq<Body>, db: Db)
    requires Inv(codec, log, db)
    ensures PendingLined(db.sources, db.pending)
  {
    hide RowsOk, BatchOk, Lined;
    if db.pending.Some? {
      var id := db.pending.value.progress[0].sourceId;
      BatchIsLined(codec, id, db.sources[id], BlobContent(db, db.sources[id]), db.pending.value);
    }
  }

  lemma CompletionTidies(born: map<Text, nat>, log: seq<Body>, db: Db, p: FilePlan, raw: Digest, decoded: Digest,
                         lineage: Option<Text>, now: nat, later: nat, last: nat)
    requires TidyLog(born, log, db.sources, db.pending) && p.sourceId in db.sources
    ensures var id := p.sourceId;
      var done := Completed(db.sources[id], p, raw, decoded, lineage);
      && TidyLog(born, log, db.sources[id := done.(updatedNs := now)], db.pending)
      && TidyLog(born, log, db.sources[id := done.(digest := Some(raw), updatedNs := later)], db.pending)
      && TidyLog(born, log, db.sources[id := done.(digest := Some(raw), acknowledged := true, updatedNs := last)],
                 db.pending)
  {
    hide TidyLog, CompletedProvenance;
    var id := p.sourceId;
    var done := Completed(db.sources[id], p, raw, decoded, lineage);
    TidySameProgress(born, log, db.sources, db.sources[id := done.(updatedNs := now)], db.pending);
    TidySameProgress(born, log, db.sources, db.sources[id := done.(digest := Some(raw), updatedNs := later)],
                     db.pending);
    TidySameProgress(born, log, db.sources,
                     db.sources[id := done.(digest := Some(raw), acknowledged := true, updatedNs := last)],
             db.pending);
  }

  lemma CompletedFields(r: SourceRecord, p: FilePlan, raw: Digest, decoded: Digest, lineage: Option<Text>)
    ensures var q := CompletedProvenance(r, p, raw, decoded, lineage);
      q.complete && q.completeSize == p.rawSize && q.decodedSha256 == Some(decoded)
      && q.blobSha256 in {r.provenance.blobSha256, Some(raw)}
      && q.verifiedRawSize == r.provenance.verifiedRawSize && q.coverageConflict == r.provenance.coverageConflict
  {
  }

  /** None of them makes the row another file's. */
  lemma CompletedSource(a: map<Text, SourceRecord>, p: FilePlan, raw: Digest, decoded: Digest, lineage: Option<Text>,
                        now: nat, later: nat, last: nat)
    requires p.sourceId in a && (p.wire.Some? ==> p.wire == Some(a[p.sourceId].identity))
    requires a[p.sourceId].updatedNs <= now <= later <= last
    ensures var id := p.sourceId;
      var done := Completed(a[id], p, raw, decoded, lineage);
      && OthersKept(id, a, a[id := done.(updatedNs := now)])
      && OthersKept(id, a, a[id := done.(digest := Some(raw), updatedNs := later)])
      && OthersKept(id, a, a[id := done.(digest := Some(raw), acknowledged := true, updatedNs := last)])
  {
  }

  lemma RowOfInv(codec: Codec, log: seq<Body>, db: Db, id: Text)
    requires Inv(codec, log, db) && id in db.sources
    ensures codec.Lawful() && RowOk(codec, log, id, db.sources[id], BlobContent(db, db.sources[id]))
  {
  }

  function CompletedProvenance(r: SourceRecord, p: FilePlan, raw: Digest, decoded: Digest,
                               lineage: Option<Text>): Provenance {
    r.provenance.WithCompletion(p.rawSize, raw, decoded, |decoded.content|, p.input.Frozen?, lineage)
  }

  /** A row whose completed prefix has been recorded. */
  function Completed(r: SourceRecord, p: FilePlan, raw: Digest, decoded: Digest, lineage: Option<Text>): SourceRecord {
    r.(identity := if p.wire.Some? then p.wire.value else r.identity,
       provenance := CompletedProvenance(r, p, raw, decoded, lineage),
       absent := false)
  }

  /** What must be known before a source may be marked complete. */
  ghost predicate CompletionEvidence(codec: Codec, log: seq<Body>, db: Db, p: FilePlan, raw: Digest, decoded: Digest) {
    && p.sourceId in db.sources
    && var r := db.sources[p.sourceId];
       var blob := BlobContent(db, r);
       && Base(r, blob) == Some(raw.content)
       && decoded.content == codec.decoded(r.identity.compression, raw.content)
       && Archived(codec, log, r.identity.compression, raw.content)
       && p.rawSize == |raw.content|
       && (p.wire.Some? ==> p.wire == Some(r.identity))
       && (blob != Some(raw.content) ==> r.identity.size >= |raw.content|)
       && (r.identity.compression == Plain ==> r.progress.offset == |raw.content|)
  }

  lemma PendingShape(codec: Codec, log: seq<Body>, db: Db)
    requires Inv(codec, log, db) && db.pending.Some?
    ensures |db.pending.value.progress| == 1 && db.pending.value.progress[0].sourceId in db.sources
    ensures CanAcknowledge(db, db.pending.value.batchId)
  {
    hide RowOk, BatchOk;
  }

  lemma AcknowledgeTidies(codec: Codec, born: map<Text, nat>, log: seq<Body>, db: Db, batchId: Text, now: nat)
    requires Inv(codec, log, db) && CanAcknowledge(db, batchId) && TidyLog(born, log, db.sources, db.pending)
    ensures TidyLog(born, log, Acknowledge(db, batchId, now).sources, None)
  {
    hide RowOk, BatchOk, TidyLog;
    var batch := db.pending.value;
    OneDelta(db.sources, batch.progress, now);
    TidyAcknowledge(codec, born, log, db, Acknowledge(db, batchId, now).sources);
  }

  /** Saving a batch that is the next stretch of its source keeps the invariant. */
  lemma SaveKeeps(codec: Codec, log: seq<Body>, db: Db, id: Text, queue: seq<Queued>, complete: bool,
                  digest: Option<Digest>, batch: PendingBatch)
    requires Inv(codec, log, db) && id in db.sources
    requires QueueOk(codec, id, db.sources[id], BlobContent(db, db.sources[id]), queue, complete, digest)
    requires batch.body.values == ValuesOf(queue) && batch.progress == [DeltaFor(id, queue, complete, digest)]
    ensures Inv(codec, log, db.(pending := Some(batch)))
    ensures CanAcknowledge(db.(pending := Some(batch)), batch.batchId)
  {
    hide RowOk, Pieces;
    var next := db.(pending := Some(batch));
    assert RowsOk(codec, log, next) by {
      forall k <- next.sources
        ensures RowOk(codec, log, k, next.sources[k], BlobContent(next, next.sources[k]))
      {
        assert BlobContent(next, next.sources[k]) == BlobContent(db, db.sources[k]);
      }
    }
    assert BatchOk(codec, id, db.sources[id], BlobContent(db, db.sources[id]), batch);
  }
}
