/**
 What must be proved of a live file before its row may count on it: that the content behind the saved digest is
 still its front, or that its decoded content is that of a predecessor already delivered.
 */
module LiveInput {
  import opened Utf8
  import opened LogEntry
  import opened Sources
  import opened Tables
  import opened Delivery
  import opened Coverage
  import opened Planner
  import opened Import
  import opened Importer
  import opened Tidy
  import F = Fragments
  import S = StreamReader
  import Json

  const VERIFY_CHUNK: nat := 65536
  const DECODE_CHUNK: nat := 65536

  /** Read the whole window in chunks, keeping the bytes up to `size`. */
  method HashPrefix(live: Bytes, size: nat) returns (prefix: Bytes, position: nat)
    ensures prefix == S.Take(live, size) && position == |live|
  {
    prefix, position := [], 0;
    while position < |live|
      invariant position <= |live| && prefix == S.Take(live[..position], size)
    {
      var chunk := live[position..F.Min(position + VERIFY_CHUNK, |live|)];
      if position < size {
        prefix := prefix + S.Take(chunk, size - position);
      }
      position := position + |chunk|;
    }
    assert live[..position] == live;
  }

  /** The saved prefix is still the front of the file. */
  predicate PrefixHolds(p: FilePlan, live: Bytes) {
    p.verifyDigest.Some? ==> p.verifySize <= |live| && p.verifyDigest.value == Sha256(live[..p.verifySize])
  }

  /** A row whose verification was recorded, and one whose digest then followed. */
  function Marked(r: SourceRecord, size: nat, conflict: bool, now: nat): SourceRecord {
    r.(provenance := r.provenance.WithVerification(size, conflict), absent := false, updatedNs := now)
  }

  function Proved(r: SourceRecord, live: Bytes, now: nat): SourceRecord {
    Marked(r, |live|, false, now).(digest := Some(Sha256(live)))
  }

  /** Recording a conflict changes nothing the invariant speaks of. */
  lemma MarkingKeeps(codec: Codec, log: seq<Body>, db: Db, id: Text, conflict: bool, now: nat)
    requires Inv(codec, log, db) && db.pending.None? && id in db.sources
    ensures var r := db.sources[id];
      Inv(codec, log, db.(sources := db.sources[id := Marked(r, r.provenance.verifiedRawSize, conflict, now)]))
  {
    hide Inv, RowOk;
    var r := db.sources[id];
    RowOfInv(codec, log, db, id);
    MarkedRow(codec, log, id, r, BlobContent(db, r), Marked(r, r.provenance.verifiedRawSize, conflict, now));
    RewriteRow(codec, log, db, id, Marked(r, r.provenance.verifiedRawSize, conflict, now));
  }

  /** The store update that records a verification. */
  lemma MarkingIs(db: Db, id: Text, size: nat, conflict: bool, now: nat)
    requires id in db.sources
    ensures var r := db.sources[id];
      RecordSource(db, id, r.identity, Some(r.provenance.WithVerification(size, conflict)), None, r.inInitialManifest,
                   r.blob, None, false, now)
      == db.(sources := db.sources[id := Marked(r, size, conflict, now)])
  {
  }

  /**
   Recording how far the file was verified, and then moving the digest on to the file as it now is, keep the invariant.
   */
  lemma ProvingKeeps(codec: Codec, log: seq<Body>, db: Db, p: FilePlan, live: Bytes, now: nat, later: nat)
    requires Inv(codec, log, db) && db.pending.None? && PlanOk(db, p) && p.ReadsLive() && PrefixHolds(p, live)
    requires |live| == p.wire.value.size
    ensures Inv(codec, log, db.(sources := db.sources[p.sourceId := Marked(db.sources[p.sourceId], |live|, false,
                                                                           now)]))
    ensures Inv(codec, log, db.(sources := db.sources[p.sourceId := Proved(db.sources[p.sourceId], live, later)]))
    ensures var r := db.sources[p.sourceId];
      var blob := BlobContent(db, r);
      blob.None? || |live| > r.provenance.completeSize ==>
        Base(Proved(r, live, later), blob) == Some(live) && blob != Some(live)
  {
    hide Inv, RowOk, PrefixHolds, Proved, Marked;
    var id := p.sourceId;
    assert id in db.sources;
    hide PlanOk;
    RowOfInv(codec, log, db, id);
    ProvedRow(codec, log, db, p, live, now, later);
    RewriteRow(codec, log, db, id, Marked(db.sources[id], |live|, false, now));
    RewriteRow(codec, log, db, id, Proved(db.sources[id], live, later));
  }

  lemma LivePlan(db: Db, p: FilePlan)
    requires PlanOk(db, p) && p.ReadsLive()
    ensures p.sourceId in db.sources
    ensures var r := db.sources[p.sourceId];
      var blob := BlobContent(db, r);
      && p.wire == Some(r.identity)
      && (p.verifyDigest == r.digest || (p.verifyDigest.None? && blob.None? && Restarted(r)))
      && (blob.Some? ==>
            && IsPrefixComplete(r) && p.verifySize == VerifySize(r)
            && (r.identity.compression == Plain || r.identity.size == r.provenance.completeSize))
  {
  }

  lemma ProvedRow(codec: Codec, log: seq<Body>, db: Db, p: FilePlan, live: Bytes, now: nat, later: nat)
    requires PlanOk(db, p) && p.ReadsLive() && PrefixHolds(p, live) && |live| == p.wire.value.size && codec.Lawful()
    requires RowOk(codec, log, p.sourceId, db.sources[p.sourceId], BlobContent(db, db.sources[p.sourceId]))
    ensures var r := db.sources[p.sourceId];
      var blob := BlobContent(db, r);
      && Marked(r, |live|, false, now).blob == r.blob && Proved(r, live, later).blob == r.blob
      && Marked(r, |live|, false, now).identity == r.identity && Proved(r, live, later).identity == r.identity
      && BlobContent(db, Marked(r, |live|, false, now)) == blob && BlobContent(db, Proved(r, live, later)) == blob
      && RowOk(codec, log, p.sourceId, Marked(r, |live|, false, now), blob)
      && RowOk(codec, log, p.sourceId, Proved(r, live, later), blob)
      && (blob.None? || |live| > r.provenance.completeSize ==>
            Base(Proved(r, live, later), blob) == Some(live) && blob != Some(live))
  {
    hide RowOk, PrefixHolds, Codec.Lawful, PlanOk, FrontHolds, Base;
    LivePlan(db, p);
    var id := p.sourceId;
    var r := db.sources[id];
    var blob := BlobContent(db, r);
    var marked := Marked(r, |live|, false, now);
    FrontOfFile(codec, log, id, r, blob, p, live);
    VerifiedSizeRow(codec, log, id, r, blob, live, marked);
    VerifiedRow(codec, log, id, marked, blob, live);
    SameBase(marked.(digest := Some(Sha256(live))), Proved(r, live, later), blob);
    MarkedRow(codec, log, id, marked.(digest := Some(Sha256(live))), blob, Proved(r, live, later));
  }

  lemma SameBase(a: SourceRecord, b: SourceRecord, blob: Option<Bytes>)
    requires a.digest == b.digest && a.provenance.verifiedRawSize == b.provenance.verifiedRawSize
    ensures Base(a, blob) == Base(b, blob)
  {
  }

  /** A verification moves no row's progress. */
  lemma ProvingTidies(born: map<Text, nat>, log: seq<Body>, db: Db, id: Text, size: nat, live: Bytes, conflict: bool,
                      now: nat, later: nat)
    requires TidyLog(born, log, db.sources, db.pending) && id in db.sources
    ensures TidyLog(born, log, db.sources[id := Marked(db.sources[id], size, conflict, now)], db.pending)
    ensures TidyLog(born, log, db.sources[id := Proved(db.sources[id], live, later)], db.pending)
  {
    hide TidyLog;
    TidySameProgress(born, log, db.sources, db.sources[id := Marked(db.sources[id], size, conflict, now)], db.pending);
    TidySameProgress(born, log, db.sources, db.sources[id := Proved(db.sources[id], live, later)], db.pending);
  }

  /** The file is then the content the row counts in. */
  lemma ProvedInput(db: Db, p: FilePlan, codec: Codec, live: Bytes, now: nat)
    requires PlanOk(db, p) && p.input.Live? && |live| == p.wire.value.size
    requires var r := db.sources[p.sourceId];
      var blob := BlobContent(db, r);
      blob.None? || |live| > r.provenance.completeSize ==>
        Base(Proved(r, live, now), blob) == Some(live) && blob != Some(live)
    ensures InputOk(codec, db.(sources := db.sources[p.sourceId := Proved(db.sources[p.sourceId], live, now)]), p, live)
  {
    hide Base;
  }

  /** A frozen input is the content the row counts in as it stands. */
  lemma FrozenInput(db: Db, p: FilePlan, codec: Codec)
    requires PlanOk(db, p) && p.input.Frozen?
    requires |BlobContent(db, db.sources[p.sourceId]).value| == p.rawSize
    ensures InputOk(codec, db, p, BlobContent(db, db.sources[p.sourceId]).value)
  {
  }

  /** What a verification found is what the row may rely on. */
  lemma FrontOfFile(codec: Codec, log: seq<Body>, id: Text, r: SourceRecord, blob: Option<Bytes>, p: FilePlan,
                    live: Bytes)
    requires RowOk(codec, log, id, r, blob) && PrefixHolds(p, live) && |live| == r.identity.size
    requires p.verifyDigest == r.digest || (p.verifyDigest.None? && blob.None? && Restarted(r))
    requires blob.Some? ==>
      && IsPrefixComplete(r) && p.verifySize == VerifySize(r)
      && (r.identity.compression == Plain || r.identity.size == r.provenance.completeSize)
    ensures FrontHolds(r, blob, live)
    ensures blob.Some? ==> |live| == r.provenance.completeSize
                           || (r.identity.compression == Plain && |live| > r.provenance.completeSize)
  {
    hide Covered, Delivered, Archived;
    if p.verifyDigest.Some? {
      assert |live[..p.verifySize]| == p.verifySize;
    }
  }

  /** Record the verified size, then the digest of the file as it now is. */
  method RecordProof(state: ImportState, p: FilePlan, live: Bytes) returns (alive: bool)
    requires state.Ok() && state.store.pending.None? && PlanOk(state.store.State(), p) && p.ReadsLive()
    requires PrefixHolds(p, live) && |live| == p.wire.value.size
    modifies state.store`sources
    ensures state.Ok()
    ensures OthersKept(p.sourceId, old(state.store.sources), state.store.sources)
    ensures alive ==>
      state.store.sources == old(state.store.sources)[p.sourceId :=
        Proved(old(state.store.sources)[p.sourceId], live, state.store.sources[p.sourceId].updatedNs)]
    ensures alive && p.input.Live? ==> InputOk(state.codec, state.store.State(), p, live)
    ensures state.calm ==> alive
  {
    hide Inv, TidyLog, InputOk, RecordSource, PrefixHolds, OthersKept;
    var id := p.sourceId;
    var r := state.store.sources[id];
    var now := Clock(r.updatedNs);
    var later := Clock(now);
    ghost var db := state.store.State();
    MarkingIs(db, id, |live|, false, now);
    MarkingIsSource(db.sources, id, live, false, now, later);
    ProvingTidies(state.loki.born, state.loki.log, db, id, |live|, live, false, now, later);
    ProvingKeeps(state.codec, state.loki.log, db, p, live, now, later);
    if p.input.Live? {
      ProvedInput(db, p, state.codec, live, later);
    }
    hide PlanOk;
    state.store.RecordSource(id, r.identity, Some(r.provenance.WithVerification(|live|, false)), None,
                             r.inInitialManifest, r.blob, None, false, now);
    var died := state.Dies();
    if died {
      return false;
    }
    var ok := state.store.SetSourceDigest(id, Sha256(live), later);
    assert state.store.State() == db.(sources := db.sources[id := Proved(r, live, later)]);
    alive := true;
  }

  /**
   Prove the saved raw prefix before coverage of a renamed, appended or resumed file is reused. A changed
   prefix is recorded as a conflict and stops the run; nothing is claimed of the file then.
   */
  method PrepareLiveInput(state: ImportState, p: FilePlan, live: Bytes) returns (alive: bool, ok: bool)
    requires state.Ok() && state.store.pending.None? && PlanOk(state.store.State(), p)
    requires p.wire.Some? ==> |live| == p.wire.value.size
    modifies state`failed, state`stopped, state.store`sources
    ensures state.Ok()
    ensures OthersKept(p.sourceId, old(state.store.sources), state.store.sources)
    ensures alive && ok ==> state.stopped == old(state.stopped) && state.failed == old(state.failed)
    ensures alive && !ok ==> state.stopped && state.failed
    ensures alive && ok && !p.ReadsLive() ==> state.store.sources == old(state.store.sources)
    ensures alive && ok && p.ReadsLive() ==>
      && PrefixHolds(p, live)
      && state.store.sources == old(state.store.sources)[p.sourceId :=
           Proved(old(state.store.sources)[p.sourceId], live, state.store.sources[p.sourceId].updatedNs)]
    ensures alive && ok && p.input.Live? ==> InputOk(state.codec, state.store.State(), p, live)
    ensures alive && !ok && p.ReadsLive() && !PrefixHolds(p, live) ==>
      || state.store.sources == old(state.store.sources)
      || state.store.sources[p.sourceId].provenance.coverageConflict
    ensures alive && !ok && PrefixHolds(p, live) ==> state.store.sources == old(state.store.sources)
    ensures state.calm ==> alive
    ensures state.calm && (!p.ReadsLive() || PrefixHolds(p, live)) ==> ok
  {
    hide Inv, TidyLog, InputOk, RecordSource, OthersKept;
    NothingChanged(p.sourceId, state.store.sources);
    alive := true;
    if !p.ReadsLive() {
      return true, true;
    }
    var id := p.sourceId;
    var r := state.store.sources[id];
    var readable: bool := *;
    if !readable && !state.calm {
      state.failed, state.stopped := true, true;
      return true, false;
    }
    var prefix, position := HashPrefix(live, p.verifySize);
    if p.verifyDigest.Some? && (position < p.verifySize || Sha256(prefix) != p.verifyDigest.value) {
      var now := Clock(r.updatedNs);
      MarkingIs(state.store.State(), id, r.provenance.verifiedRawSize, true, now);
      MarkingKeeps(state.codec, state.loki.log, state.store.State(), id, true, now);
      MarkingIsSource(state.store.sources, id, live, true, now, now);
      ProvingTidies(state.loki.born, state.loki.log, state.store.State(), id, r.provenance.verifiedRawSize, live, true,
                    now, now);
      state.store.RecordSource(id, r.identity, Some(r.provenance.WithVerification(r.provenance.verifiedRawSize, true)),
                               None, r.inInitialManifest, r.blob, None, false, now);
      state.failed, state.stopped := true, true;
      return true, false;
    }
    alive := RecordProof(state, p, live);
    ok := true;
  }

  lemma NothingChanged(id: Text, a: map<Text, SourceRecord>)
    ensures OthersKept(id, a, a)
  {
  }

  /** A verification never makes the row another file's. */
  lemma MarkingIsSource(a: map<Text, SourceRecord>, id: Text, live: Bytes, conflict: bool, now: nat, later: nat)
    requires id in a && a[id].updatedNs <= now <= later
    ensures forall size: nat {:trigger Marked(a[id], size, conflict, now)} ::
      OthersKept(id, a, a[id := Marked(a[id], size, conflict, now)])
    ensures OthersKept(id, a, a[id := Proved(a[id], live, later)])
  {
  }

  // ---- When a verification raises a conflict -------------------------------------------------------

  /** The size a row is verified up to is the length of the content behind its digest. */
  predicate InSync(r: SourceRecord) {
    r.digest.Some? ==> VerifySize(r) == |r.digest.value.content|
  }

  /**
   A file that still has the content behind the digest at its front passes verification exactly when the row's
   two records of that content agree.
   */
  lemma UnchangedFilePasses(r: SourceRecord, p: FilePlan, live: Bytes)
    requires r.digest.Some? && p.verifyDigest == r.digest && p.verifySize == VerifySize(r)
    requires r.digest.value.content <= live
    ensures PrefixHolds(p, live) <==> InSync(r)
  {
    if PrefixHolds(p, live) {
      assert |live[..p.verifySize]| == p.verifySize;
    }
  }

  /**
   The two transactions of a verification leave the row in agreement when both happened and the file was not
   empty; a crash between them leaves it so only if the file had not grown.
   */
  lemma VerificationInSync(r: SourceRecord, live: Bytes, now: nat)
    requires r.digest.Some?
    ensures live != [] ==> InSync(Proved(r, live, now))
    ensures live != [] ==> (InSync(Marked(r, |live|, false, now)) <==> |live| == |r.digest.value.content|)
    ensures live == [] ==>
      (InSync(Proved(r, live, now)) <==>
         (if r.provenance.complete then r.provenance.completeSize else r.identity.size) == 0)
  {
    assert live != [] ==> |live| != 0;
  }

  /** A crash between the two transactions makes every later verification of an appended file fail. */
  lemma CrashMakesFalseConflict(r: SourceRecord, p: FilePlan, live: Bytes, later: Bytes, now: nat)
    requires r.digest.Some? && r.digest.value.content <= live <= later && |live| > |r.digest.value.content|
    requires p.verifyDigest == r.digest && p.verifySize == VerifySize(Marked(r, |live|, false, now))
    ensures !PrefixHolds(p, later)
  {
    UnchangedFilePasses(Marked(r, |live|, false, now), p, later);
  }

  // ---- Compression successors ----------------------------------------------------------------------

  /** The two digests that prove a successor delivered: its own raw content, and the predecessor's decoded one. */
  lemma LineageIsEvidence(codec: Codec, log: seq<Body>, db: Db, p: FilePlan, predecessor: Text, window: Bytes)
    requires Inv(codec, log, db) && InputOk(codec, db, p, window)
    requires predecessor in db.sources && IsPrefixComplete(db.sources[predecessor])
    requires db.sources[p.sourceId].identity.compression != Plain
    requires codec.wellFormed(db.sources[p.sourceId].identity.compression, window)
    requires var x := codec.decoded(db.sources[p.sourceId].identity.compression, window);
      db.sources[predecessor].provenance.decodedSha256 == Some(Sha256(x))
    ensures var x := codec.decoded(db.sources[p.sourceId].identity.compression, window);
      CompletionEvidence(codec, log, db, p, Sha256(window), Sha256(x))
  {
    hide Covered, Delivered, ProgressOk, ShapeOk;
    RowOfInv(codec, log, db, predecessor);
  }

  /**
   Reuse a predecessor's coverage for a file whose decoded content is exactly the predecessor's: nothing is
   pushed again, and the file's own raw digest is recorded.
   */
  method TryLineageReuse(state: ImportState, p: FilePlan, predecessor: Option<Text>, window: Bytes)
    returns (alive: bool, reused: bool)
    requires state.Ok() && state.store.pending.None?
    requires p.sourceId in state.store.sources && !p.input.NoInput? ==>
      InputOk(state.codec, state.store.State(), p, window)
    requires p.sourceId in state.store.sources && predecessor.Some? ==>
      state.store.sources[p.sourceId].identity.compression != Plain
    modifies state`covered, state.store`sources
    ensures state.Ok()
    ensures OthersKept(p.sourceId, old(state.store.sources), state.store.sources)
    ensures CoveredStep(old(state.covered), state.covered, p)
    ensures alive && reused ==>
      && predecessor.Some? && predecessor.value in old(state.store.sources)
      && p.sourceId in state.store.sources
      && var r := state.store.sources[p.sourceId];
         var x := state.codec.decoded(r.identity.compression, window);
         && ClosedFor(state.codec, r, window)
         && r.provenance.lineageOf == predecessor
         && p.sourceId in old(state.store.sources) && r.progress == old(state.store.sources)[p.sourceId].progress
         && old(state.store.sources)[predecessor.value].provenance.decodedSha256 == Some(Sha256(x))
    ensures alive && reused ==>
      SameVerification(old(state.store.sources)[p.sourceId], state.store.sources[p.sourceId])
    ensures alive && !reused ==> state.store.sources == old(state.store.sources) && state.covered == old(state.covered)
    ensures state.calm ==> alive
  {
    hide OthersKept, SameVerification, Codec.Lawful, RowOk, Inv, TidyLog, InputOk, CompletionEvidence, CurrentCoverage;
    if p.input.NoInput? || predecessor.None? || predecessor.value !in state.store.sources
       || !IsPrefixComplete(state.store.sources[predecessor.value])
       || p.sourceId !in state.store.sources || IsPrefixComplete(state.store.sources[p.sourceId]) {
      NothingChanged(p.sourceId, state.store.sources);
      return true, false;
    }
    NothingChanged(p.sourceId, state.store.sources);
    InputIdentity(state.codec, state.store.State(), p, window);
    var compression := state.store.sources[p.sourceId].identity.compression;
    RowOfInv(state.codec, state.loki.log, state.store.State(), p.sourceId);
    var reader := state.OpenDecoded(compression, window, p.input.Frozen?);
    var readable, x := DecodeAll(reader);
    if !readable {
      return true, false;
    }
    var before := state.store.sources[predecessor.value].provenance;
    if before.decodedSha256 != Some(Sha256(x)) || before.decodedBytes != |x| {
      return true, false;
    }
    LineageIsEvidence(state.codec, state.loki.log, state.store.State(), p, predecessor.value, window);
    ghost var r := state.store.sources[p.sourceId];
    alive := state.MarkComplete(p, Sha256(window), Sha256(x), predecessor);
    reused := alive;
    LineageIsClosed(state.codec, p, r, window, predecessor);
    if alive && p.wire.Some? {
      state.AddCovered(p.wire.value, p.sourceId, state.store.sources[p.sourceId]);
    }
  }

  /** Decode a whole stream; only one that decodes to its end is read. */
  method DecodeAll(reader: S.DecodedLogReader) returns (ok: bool, x: Bytes)
    requires reader.Valid()
    modifies reader, reader.raw, reader.frames
    ensures ok ==> x == old(reader.Rest()) && (reader.plain || !reader.frames.corrupt)
    ensures reader.Sound() ==> ok
  {
    hide S.DecodedLogReader.Rest, S.DecodedLogReader.Undecoded, S.Take, S.Drop, S.RemoteLogReader.Valid;
    x := [];
    ghost var all := reader.Rest();
    while true
      invariant reader.Valid() && x + reader.Rest() == all
      decreases |reader.Rest()|
    {
      ghost var rest := reader.Rest();
      var chunk := reader.Read(DECODE_CHUNK);
      if chunk.Failed? {
        return false, [];
      }
      S.TakeThenDrop(rest, DECODE_CHUNK);
      assert x + rest == (x + chunk.bytes) + reader.Rest();
      x := x + chunk.bytes;
      if chunk.bytes == [] {
        return true, x;
      }
    }
  }

  lemma LineageIsClosed(codec: Codec, p: FilePlan, r: SourceRecord, window: Bytes, lineage: Option<Text>)
    requires p.rawSize == |window| && (p.wire.Some? ==> p.wire == Some(r.identity)) && lineage.Some?
    requires codec.wellFormed(r.identity.compression, window)
    ensures forall now: nat ::
      var x := codec.decoded(r.identity.compression, window);
      var next := Completed(r, p, Sha256(window), Sha256(x), lineage)
                    .(digest := Some(Sha256(window)), acknowledged := true, updatedNs := now);
      ClosedFor(codec, next, window) && SameVerification(r, next) && next.provenance.lineageOf == lineage
  {
  }

  lemma InputIdentity(codec: Codec, db: Db, p: FilePlan, window: Bytes)
    requires InputOk(codec, db, p, window)
    ensures p.sourceId in db.sources && p.rawSize == |window|
    ensures p.wire.Some? ==> p.wire == Some(db.sources[p.sourceId].identity)
  {
  }

  /** Import one source, by lineage when a predecessor's content proves it, else by streaming what remains. */
  method ImportSource(state: ImportState, p: FilePlan, predecessor: Option<Text>, window: Bytes)
    returns (alive: bool, ending: Ending)
    requires state.Ok() && state.store.pending.None? && !state.stopped
    requires p.sourceId in state.store.sources && !p.input.NoInput? ==>
      InputOk(state.codec, state.store.State(), p, window)
    requires p.sourceId in state.store.sources && predecessor.Some? ==>
      state.store.sources[p.sourceId].identity.compression != Plain
    modifies state`bytesArchived, state`bodyBytes, state`pending, state`failed, state`stopped, state`boundExceeded,
             state`timestamp, state`labels, state`covered, state.store`sources, state.store`pending, state.loki`log
    ensures state.Ok()
    ensures OthersKept(p.sourceId, old(state.store.sources), state.store.sources)
    ensures CoveredStep(old(state.covered), state.covered, p)
    ensures state.boundExceeded == old(state.boundExceeded)
    ensures old(state.WithinBudget()) ==> state.WithinBudget()
    ensures alive && ending != PushStopped ==> state.store.pending.None?
    ensures alive && ending in {PushStopped, BudgetStopped} ==> state.stopped
    ensures alive && ending in {PushStopped, ReadBroken} ==> state.failed
    ensures alive && ending == Skipped ==> p.input.NoInput? || p.sourceId !in old(state.store.sources)
    ensures ending != Unproved && (p.input.NoInput? ==> alive && ending == Skipped)
    ensures alive && ending == Skipped ==>
      && state.store.sources == old(state.store.sources)
      && state.bytesArchived == old(state.bytesArchived) && state.bodyBytes == old(state.bodyBytes)
    ensures alive && ending in {Skipped, ReadBroken, Finished} ==> !state.stopped
    ensures alive && ending == Finished ==>
      p.sourceId in state.store.sources && ClosedFor(state.codec, state.store.sources[p.sourceId], window)
    ensures alive && ending != Finished ==> OnlyProgress(p.sourceId, old(state.store.sources), state.store.sources)
    ensures alive && ending == BudgetStopped && old(state.FreshStart()) && state.timestamp < Json.PowerOfTen(20) ==>
      && p.sourceId in old(state.store.sources) && p.sourceId in state.store.sources
      && state.store.sources[p.sourceId].progress.offset > old(state.store.sources)[p.sourceId].progress.offset
    ensures alive && ending in {BudgetStopped, Finished, ReadBroken} ==>
      && p.sourceId in old(state.store.sources) && p.sourceId in state.store.sources
      && var before, now := old(state.store.sources)[p.sourceId].progress.offset,
        state.store.sources[p.sourceId].progress.offset;
         && now >= before
         && (now > before
             || (state.bytesArchived == old(state.bytesArchived) && state.bodyBytes == old(state.bodyBytes)))
    ensures alive && ending in {BudgetStopped, ReadBroken} ==>
      Advanced(old(state.store.sources)[p.sourceId], state.store.sources[p.sourceId])
    ensures alive && ending == Finished ==>
      SameVerification(old(state.store.sources)[p.sourceId], state.store.sources[p.sourceId])
    ensures alive && ending in {BudgetStopped, ReadBroken, Finished} ==>
      || state.store.sources[p.sourceId].progress == old(state.store.sources)[p.sourceId].progress
      || state.store.sources[p.sourceId].progress.offset
         <= |state.codec.decoded(state.store.sources[p.sourceId].identity.compression, window)|
    ensures state.calm ==> alive
    ensures state.calm && (p.input.NoInput? || CanRead(state.codec, old(state.store.sources), p, window)) ==>
      ending in {Skipped, BudgetStopped, Finished}
  {
    hide SameVerification, CanRead, Advanced, Inv, TidyLog, InputOk, ClosedFor, OnlyProgress, OthersKept,
         Json.PowerOfTen;
    if p.input.NoInput? {
      NoProgress(p.sourceId, state.store.sources);
      ProgressKeepsOthers(p.sourceId, state.store.sources, state.store.sources);
      return true, Skipped;
    }
    var reused;
    alive, reused := TryLineageReuse(state, p, predecessor, window);
    if !alive || reused {
      return alive, Finished;
    }
    alive, ending := StreamSource(state, p, window);
  }
}
