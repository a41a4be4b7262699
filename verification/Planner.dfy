/** What one file needs in this run: the row it belongs to, the input to read, where to resume, what to verify. */
module Planner {
  import opened Utf8
  import opened LogEntry
  import opened Sources
  import opened Tables
  import opened Delivery
  import opened Coverage
  import F = Fragments

  /** What to read: nothing, the live file as probed, or the frozen spool blob. */
  datatype Input = NoInput | Live(wire: Wire) | Frozen(key: BlobKey)

  datatype FilePlan = FilePlan(
    sourceId: Text,
    wire: Option<Wire>,
    input: Input,
    rawSize: nat,
    start: F.Cursor,
    activePrefix: bool,
    completeForCurrent: bool,
    verifySize: nat,
    verifyDigest: Option<Digest>)
  {
    /** Whether the run must first prove the saved raw prefix against the live file. */
    predicate ReadsLive() {
      input.Live? || (completeForCurrent && verifyDigest.Some?)
    }
  }

  /**
   The row a probe was matched to, whether the probe is a rename or append of that row's file, and the spool blob
   that goes with the row's id. `manifest` stands in for the probe of a frozen file that is gone.
   */
  datatype Match = Match(
    wire: Option<Wire>,
    record: Option<Text>,
    same: bool,
    blob: Option<BlobKey>,
    manifest: Option<Wire>,
    baseId: Text)
  {
    predicate HasReference() {
      wire.Some? || manifest.Some?
    }

    function Reference(): Wire
      requires HasReference()
    {
      if wire.Some? then wire.value else manifest.value
    }
  }

  predicate IsCaptured(db: Db, key: BlobKey) {
    key in db.blobs && db.blobs[key].sha256.Some?
  }

  function SelectInput(db: Db, r: SourceRecord, blob: Option<BlobKey>, wire: Option<Wire>, covered: bool): Input {
    if covered then NoInput
    else if blob.Some? && IsCaptured(db, blob.value) && r.blob == blob then
      if IsPrefixComplete(r) && wire.Some? && wire.value.isActive then NoInput
      else if IsPrefixComplete(r) && wire.Some? && wire.value.compression == Plain
              && wire.value.size > r.provenance.completeSize then Live(wire.value)
      else if IsPrefixComplete(r) && wire.None? then NoInput
      else Frozen(blob.value)
    else if wire.None? then NoInput
    else Live(wire.value)
  }

  /** A saved digest is checked again unless nothing about the file can have changed since it completed. */
  predicate MustVerify(r: SourceRecord, wire: Wire) {
    r.digest.Some? &&
    (|| r.identity.path != wire.path
     || wire.size > r.provenance.completeSize
     || r.provenance.coverageConflict
     || !IsPrefixComplete(r))
  }

  function VerifySize(r: SourceRecord): nat {
    if r.provenance.verifiedRawSize != 0 then r.provenance.verifiedRawSize
    else if r.provenance.complete then r.provenance.completeSize
    else r.identity.size
  }

  /** The id of the row the plan works on. */
  function PlannedId(m: Match, existing: seq<Text>): Text {
    if m.same && m.record.Some? then m.record.value
    else if m.record.None? then m.baseId
    else NextGeneration(existing, m.baseId).0
  }

  /** The plan can be recorded: there is something to record, and a row for a match that keeps its row. */
  predicate Sound(db: Db, m: Match) {
    m.HasReference() && (m.same ==> m.record.Some? && m.record.value in db.sources)
  }

  /** The id of a file that no row matched is already that of another row. */
  predicate Taken(db: Db, m: Match) {
    !m.same && m.record.None? && m.baseId in db.sources
  }

  /**
   The rows after planning: the matched row refreshed, or a row that starts at nothing. When the id is taken the row
   that has it starts over: it keeps its digest and its blob, and loses its progress.
   */
  function Recorded(db: Db, m: Match, existing: seq<Text>, now: nat): (next: Db)
    requires Sound(db, m)
    ensures PlannedId(m, existing) in next.sources
  {
    var reference := m.Reference();
    var id := PlannedId(m, existing);
    if m.same then
      var r := db.sources[id];
      if r.identity == reference && !r.absent then db
      else
        var aliases := if m.wire.Some? && r.identity.path != reference.path
          then Some([Alias(reference.path, reference.device, reference.inode)]) else None;
        RecordSource(db, id, reference, None, aliases, m.blob.Some?, m.blob, None, false, now)
    else
      var attached := if m.record.None? then m.blob else None;
      var generation := if m.record.None? then 1 else NextGeneration(existing, m.baseId).1;
      RecordSource(db, id, reference, Some(FreshProvenance(reference, generation)), None, attached.Some?, attached,
                   None, true, now)
  }

  function PlanFor(db: Db, m: Match, existing: seq<Text>, now: nat): FilePlan
    requires Sound(db, m)
  {
    var next := Recorded(db, m, existing, now);
    var id := PlannedId(m, existing);
    var r := next.sources[id];
    var blob := if m.same || m.record.None? then m.blob else None;
    var covered := m.wire.Some? && PrefixCompleteForCurrent(r, m.wire.value);
    var input := SelectInput(next, r, blob, m.wire, covered);
    var verify := m.same && m.wire.Some? && MustVerify(db.sources[id], m.wire.value);
    FilePlan(
      id, m.wire, input,
      match input
      case NoInput => 0
      case Live(w) => w.size
      case Frozen(key) => if key in db.blobs then db.blobs[key].highWaterSize else 0,
      ResumeAt(r),
      if input.Frozen? then r.provenance.activeAtCapture else m.wire.Some? && m.wire.value.isActive,
      covered,
      if verify then VerifySize(db.sources[id]) else 0,
      if verify then db.sources[id].digest else None)
  }

  // ---- What a plan may rely on ---------------------------------------------------------------------

  /** The row a plan works on, while no other step has touched it. */
  predicate PlanOk(db: Db, p: FilePlan) {
    && p.sourceId in db.sources
    && var r := db.sources[p.sourceId];
       var blob := BlobContent(db, r);
       && p.start == ResumeAt(r)
       && p.completeForCurrent == (p.wire.Some? && PrefixCompleteForCurrent(r, p.wire.value))
       && p.input == SelectInput(db, r, r.blob, p.wire, p.completeForCurrent)
       && (p.wire.Some? ==> p.wire == Some(r.identity))
       && (p.ReadsLive() ==>
             && p.wire.Some?
             && (p.verifyDigest == r.digest || (p.verifyDigest.None? && blob.None? && Restarted(r)))
             && (blob.Some? ==>
                   && IsPrefixComplete(r) && p.verifySize == VerifySize(r)
                   && (r.identity.compression == Plain || r.identity.size == r.provenance.completeSize)))
       && (p.input.Live? ==> p.wire == Some(p.input.wire) && p.rawSize == p.input.wire.size)
       && (p.input.Live? && blob.Some? ==>
             p.input.wire.size > r.provenance.completeSize && p.input.wire.compression == Plain)
       && (p.input.Live? ==> p.activePrefix == p.input.wire.isActive)
       && (p.input.Frozen? ==> p.activePrefix == r.provenance.activeAtCapture)
       && (p.input.Frozen? ==>
             && blob.Some? && r.blob == Some(p.input.key) && Base(r, blob) == blob
             && p.rawSize == db.blobs[p.input.key].highWaterSize)
  }

  /** The frozen blob that goes with an id, if the manifest has one. */
  function ManifestBlob(capture: Capture, id: Text): Option<BlobKey> {
    var key := BlobKey(capture.captureId, id);
    if key in capture.expected then Some(key) else None
  }

  /**
   What a match comes with: a match in the same generation has its row's own blob; a file without a row has the blob
   of its id, frozen with the compression the file has; a replacement's id has no blob.
   */
  predicate MatchOk(db: Db, m: Match, existing: seq<Text>, paths: map<Text, (nat, nat)>) {
    && m.HasReference() && db.capture.Some? && WireOk(m.Reference())
    && (m.blob.Some? ==> IsCaptured(db, m.blob.value))
    && (if m.same then
          && m.record.Some? && m.record.value in db.sources
          && var r := db.sources[m.record.value];
             && m.blob == r.blob
             && (m.wire.Some? ==> SameGeneration(r, m.wire.value, paths))
             && (m.wire.None? ==> !IsPrefixComplete(r) && m.manifest.value.compression == r.identity.compression)
        else if m.record.None? then
          && m.blob == ManifestBlob(db.capture.value, m.baseId)
          && (m.blob.Some? ==> m.Reference().compression == db.capture.value.expected[m.blob.value].compression)
        else
          ManifestBlob(db.capture.value, PlannedId(m, existing)).None? && PlannedId(m, existing) !in db.sources)
  }

  lemma FreshRowOk(codec: Codec, log: seq<Body>, id: Text, r: SourceRecord, blob: Option<Bytes>)
    requires codec.Lawful()
    requires Restarted(r) && F.CursorOk(r.progress) && r.digest.None? && r.provenance.completeSize == 0
    requires r.provenance.blobSha256.None? && r.provenance.verifiedRawSize == 0
    ensures RowOk(codec, log, id, r, blob)
  {
  }

  /** Recording a newer probe of the same file keeps its row in order. */
  lemma RefreshedRowOk(codec: Codec, log: seq<Body>, id: Text, r: SourceRecord, next: SourceRecord, blob: Option<Bytes>)
    requires RowOk(codec, log, id, r, blob)
    requires next.identity.compression == r.identity.compression
    requires next.identity.size >= r.identity.size || !IsPrefixComplete(r)
    requires next.provenance == r.provenance && next.digest == r.digest && next.progress == r.progress
    ensures RowOk(codec, log, id, next, blob)
  {
    hide Covered, Delivered, Archived;
  }

  /** What planning does to the planned row, and that it is all it does. */
  lemma RecordedRow(db: Db, m: Match, existing: seq<Text>, paths: map<Text, (nat, nat)>, now: nat)
    requires MatchOk(db, m, existing, paths) && TiesOk(db)
    ensures Sound(db, m)
    ensures m.same ==> PlannedId(m, existing) == m.record.value && m.blob == db.sources[m.record.value].blob
    ensures !m.same ==> (PlannedId(m, existing) in db.sources <==> Taken(db, m))
    ensures Taken(db, m) ==> PlannedId(m, existing) == m.baseId
    ensures var id := PlannedId(m, existing);
      var next := Recorded(db, m, existing, now);
      var r := next.sources[id];
      && next == db.(sources := db.sources[id := r])
      && TiedRow(db.capture, id, r)
      && (m.wire.Some? ==> r.identity == m.wire.value)
      && (if m.same then
            id in db.sources
            && var before := db.sources[id];
               && r.provenance == before.provenance && r.digest == before.digest && r.blob == before.blob
               && r.progress == before.progress && r.acknowledged == before.acknowledged
               && r.identity.compression == before.identity.compression
               && (r.identity.size >= before.identity.size || !IsPrefixComplete(before))
          else
            && r.progress == F.Cursor(0, 0, 0) && !r.acknowledged
            && (exists generation: nat :: r.provenance == FreshProvenance(m.Reference(), generation))
            && r.blob == (if m.record.None? then m.blob else None)
            && r.digest == (if Taken(db, m) then db.sources[id].digest else None)
            && (Taken(db, m) && r.blob.Some? ==> r.identity.compression == db.sources[id].identity.compression))
  {
    hide NextGeneration, IdentityCompatible, CompressionFor;
    var id := PlannedId(m, existing);
    if id in db.sources {
      assert TiedRow(db.capture, id, db.sources[id]);
    }
  }

  lemma RecordedKeeps(codec: Codec, log: seq<Body>, db: Db, m: Match, existing: seq<Text>, paths: map<Text, (nat, nat)>,
                      now: nat)
    requires Inv(codec, log, db) && db.pending.None? && MatchOk(db, m, existing, paths)
    requires db.capture.Some? && db.capture.value.state == CaptureComplete
    ensures Sound(db, m) && Inv(codec, log, Recorded(db, m, existing, now))
  {
    hide RowOk, MatchOk, NextGeneration, Recorded, TiedRow;
    RecordedRow(db, m, existing, paths, now);
    var id := PlannedId(m, existing);
    var r := Recorded(db, m, existing, now).sources[id];
    if m.same {
      RefreshedRowOk(codec, log, id, db.sources[id], r, BlobContent(db, db.sources[id]));
    } else if Taken(db, m) {
      TakenRowOk(codec, log, db, m, id, r);
    } else {
      FreshRowOk(codec, log, id, r, BlobContent(db, r));
    }
    PutRow(codec, log, db, id, r);
  }

  lemma TakenRowOk(codec: Codec, log: seq<Body>, db: Db, m: Match, id: Text, r: SourceRecord)
    requires Inv(codec, log, db) && Taken(db, m) && id in db.sources && TiedRow(db.capture, id, r)
    requires r.progress == F.Cursor(0, 0, 0) && r.digest == db.sources[id].digest && m.HasReference()
    requires exists generation: nat :: r.provenance == FreshProvenance(m.Reference(), generation)
    requires r.blob.Some? ==> r.identity.compression == db.sources[id].identity.compression
    ensures RowOk(codec, log, id, r, BlobContent(db, r))
  {
    hide RowOk;
    var before := db.sources[id];
    assert RowOk(codec, log, id, before, BlobContent(db, before));
    assert TiedRow(db.capture, id, before);
    RestartedRow(codec, log, id, before, BlobContent(db, before), r);
  }

  /** A file is compatible with the row that was just refreshed from it. */
  lemma StillCompatible(r: SourceRecord, next: SourceRecord, wire: Wire)
    requires IdentityCompatible(r, wire) && SameInode(r.identity, wire)
    requires next.identity == wire && next.provenance == r.provenance
    ensures IdentityCompatible(next, wire) && SameInode(next.identity, wire)
  {
  }

  /** The planner's choice is safe: live input is verified against the saved digest, frozen input is the row's own. */
  lemma PlanForOk(codec: Codec, log: seq<Body>, db: Db, m: Match, existing: seq<Text>, paths: map<Text, (nat, nat)>,
                  now: nat)
    requires Inv(codec, log, db) && MatchOk(db, m, existing, paths)
    ensures Sound(db, m) && PlanOk(Recorded(db, m, existing, now), PlanFor(db, m, existing, now))
  {
    hide NextGeneration, Recorded, RowOk;
    var id := PlannedId(m, existing);
    RecordedRow(db, m, existing, paths, now);
    if m.same {
      RowShape(codec, log, db, id);
      SameCase(db, m, existing, paths, now);
    } else {
      FreshCase(db, m, existing, paths, now);
    }
  }

  lemma RowShape(codec: Codec, log: seq<Body>, db: Db, id: Text)
    requires Inv(codec, log, db) && id in db.sources
    ensures ShapeOk(db.sources[id], BlobContent(db, db.sources[id]))
  {
    assert RowOk(codec, log, id, db.sources[id], BlobContent(db, db.sources[id]));
  }

  lemma FreshCase(db: Db, m: Match, existing: seq<Text>, paths: map<Text, (nat, nat)>, now: nat)
    requires MatchOk(db, m, existing, paths) && TiesOk(db) && !m.same
    ensures PlanOk(Recorded(db, m, existing, now), PlanFor(db, m, existing, now))
  {
    hide NextGeneration, Recorded, SameGeneration, MustVerify, IdentityCompatible, VerifySize;
    RecordedRow(db, m, existing, paths, now);
  }

  lemma SameCase(db: Db, m: Match, existing: seq<Text>, paths: map<Text, (nat, nat)>, now: nat)
    requires MatchOk(db, m, existing, paths) && TiesOk(db) && m.same
    requires var r := db.sources[m.record.value]; ShapeOk(r, BlobContent(db, r))
    ensures PlanOk(Recorded(db, m, existing, now), PlanFor(db, m, existing, now))
  {
    hide NextGeneration, Recorded, IdentityCompatible;
    RecordedRow(db, m, existing, paths, now);
    if m.wire.Some? {
      var id := m.record.value;
      StillCompatible(db.sources[id], Recorded(db, m, existing, now).sources[id], m.wire.value);
    }
  }
}
