/** The durable checkpoint of one guest: its rows, and what each transaction does to them, as functions. */
module Tables {
  import opened Utf8
  import opened LogEntry
  import opened Sources
  import Json
  import F = Fragments

  // ---- Push bodies ---------------------------------------------------------------------------------

  datatype Value = Value(timestamp: nat, entry: Entry)

  /** One push body: the labels of its stream and its values. */
  datatype Body = Body(labels: Bytes, values: seq<Value>)

  function EncodeEach(values: seq<Value>): (r: seq<Bytes>)
    ensures |r| == |values|
  {
    if values == [] then []
    else EncodeEach(values[..|values| - 1])
         + [Json.EncodeValue(values[|values| - 1].timestamp, EncodeEntry(values[|values| - 1].entry))]
  }

  function EncodeBody(body: Body): Bytes {
    Json.BuildBody(body.labels, EncodeEach(body.values))
  }

  // ---- Stored rows ---------------------------------------------------------------------------------

  /** Progress to commit for one source once its batch is acknowledged. */
  datatype Delta = Delta(
    sourceId: Text,
    progress: F.Cursor,
    streamTsNs: nat,
    acknowledged: bool,
    digest: Option<Digest>)

  datatype PendingBatch = PendingBatch(batchId: Text, body: Body, createdNs: nat, progress: seq<Delta>)

  datatype BlobState = BlobState(
    sourceId: Text,
    sourcePath: Text,
    device: nat,
    inode: nat,
    compression: Compression,
    highWaterSize: nat,
    sha256: Option<Digest>,
    released: bool)

  datatype CaptureState = CapturePending | CaptureComplete | CaptureFailed

  /** The frozen initial manifest: its files, the blobs expected of them, and how far the capture got. */
  datatype Capture = Capture(captureId: Text, state: CaptureState, manifest: map<BlobKey, Wire>,
                             expected: map<BlobKey, BlobState>)

  datatype IntentState = Pending | Done | Restored | Conflict | Absent

  /** The id of an intent is a hash of the file's path, device and inode, and of nothing else. */
  datatype IntentKey = IntentKey(path: Text, device: nat, inode: nat)

  datatype PruneIntent = PruneIntent(
    path: Text,
    quarantinePath: Text,
    device: nat,
    inode: nat,
    size: nat,
    mtimeNs: nat,
    sourceId: Option<Text>,
    digest: Option<Digest>,
    state: IntentState,
    detail: Text,
    reclaimedBytes: nat)

  datatype Db = Db(
    sources: map<Text, SourceRecord>,
    pending: Option<PendingBatch>,
    blobs: map<BlobKey, BlobState>,
    capture: Option<Capture>,
    intents: map<IntentKey, PruneIntent>)

  // ---- Transactions --------------------------------------------------------------------------------

  /** Insert or refresh one source row; progress survives unless `reset`. */
  function RecordSource(db: Db, id: Text, identity: Wire, provenance: Option<Provenance>, aliases: Option<seq<Alias>>,
                        inInitialManifest: bool, blob: Option<BlobKey>, digest: Option<Digest>, reset: bool,
                        now: nat): Db {
    if id !in db.sources then
      db.(sources := db.sources[id := SourceRecord(
        identity,
        if provenance.Some? then provenance.value else EmptyProvenance(),
        if aliases.Some? then aliases.value else [],
        inInitialManifest, blob, digest, F.Cursor(0, 0, 0), None, false, false, now)])
    else
      var row := db.sources[id];
      db.(sources := db.sources[id := SourceRecord(
        identity,
        if provenance.Some? then provenance.value else row.provenance,
        if aliases.Some? then aliases.value else row.aliases,
        row.inInitialManifest || inInitialManifest,
        if blob.Some? then blob else row.blob,
        if digest.Some? then digest else row.digest,
        if reset then F.Cursor(0, 0, 0) else row.progress,
        if reset then None else row.streamTsNs,
        !reset && row.acknowledged,
        false, now)])
  }

  /** What parsing an absent provenance column yields. */
  function EmptyProvenance(): Provenance {
    Provenance([], false, 1, false, 0, None, None, 0, None, None, None, 0, false)
  }

  function SetDigest(db: Db, id: Text, digest: Digest, now: nat): Db
    requires id in db.sources
  {
    db.(sources := db.sources[id := db.sources[id].(digest := Some(digest), updatedNs := now)])
  }

  function MarkAcknowledged(db: Db, id: Text, now: nat): Db
    requires id in db.sources
  {
    db.(sources := db.sources[id := db.sources[id].(acknowledged := true, updatedNs := now)])
  }

  function ApplyDelta(r: SourceRecord, d: Delta, now: nat): SourceRecord {
    r.(progress := d.progress,
       streamTsNs := Some(d.streamTsNs),
       acknowledged := d.acknowledged,
       digest := if d.digest.Some? then d.digest else r.digest,
       updatedNs := now)
  }

  predicate AllKnown(sources: map<Text, SourceRecord>, deltas: seq<Delta>) {
    forall d <- deltas :: d.sourceId in sources
  }

  function ApplyDeltas(sources: map<Text, SourceRecord>, deltas: seq<Delta>, now: nat): (r: map<Text, SourceRecord>)
    requires AllKnown(sources, deltas)
    ensures r.Keys == sources.Keys
  {
    if deltas == [] then sources
    else
      var d := deltas[0];
      ApplyDeltas(sources[d.sourceId := ApplyDelta(sources[d.sourceId], d, now)], deltas[1..], now)
  }

  /** Whether the stored batch is the named one and all its sources still exist; otherwise nothing happens. */
  predicate CanAcknowledge(db: Db, batchId: Text) {
    db.pending.Some? && db.pending.value.batchId == batchId && AllKnown(db.sources, db.pending.value.progress)
  }

  function Acknowledge(db: Db, batchId: Text, now: nat): Db
    requires CanAcknowledge(db, batchId)
  {
    db.(sources := ApplyDeltas(db.sources, db.pending.value.progress, now), pending := None)
  }

  predicate CanBeginCapture(db: Db, captureId: Text, manifest: map<BlobKey, Wire>, expected: map<BlobKey, BlobState>) {
    && (forall key <- expected :: key.captureId == captureId && expected[key].sha256.None?)
    && (db.capture.Some? ==>
          if db.capture.value.captureId == captureId then
            db.capture.value.manifest == manifest && db.capture.value.expected == expected
          else db.capture.value.state != CapturePending)
  }

  function BeginCapture(db: Db, captureId: Text, manifest: map<BlobKey, Wire>, expected: map<BlobKey, BlobState>): Db {
    if db.capture.Some? && db.capture.value.captureId == captureId then db.(blobs := expected + db.blobs)
    else
      db.(capture := Some(Capture(captureId, CapturePending, manifest, expected)),
          blobs := db.blobs + map key <- expected ::
            if key in db.blobs then expected[key].(sha256 := db.blobs[key].sha256, released := db.blobs[key].released)
            else expected[key])
  }

  predicate CanMarkCaptured(db: Db, key: BlobKey) {
    && db.capture.Some? && db.capture.value.captureId == key.captureId && db.capture.value.state == CapturePending
    && key in db.blobs
  }

  function KeyOf(intent: PruneIntent): IntentKey {
    IntentKey(intent.path, intent.device, intent.inode)
  }

  /** A new intent starts pending; one whose id is known keeps the stored row, whatever its state. */
  predicate CanRecordIntent(intents: map<IntentKey, PruneIntent>, intent: PruneIntent) {
    && intent.state == Pending
    && (KeyOf(intent) in intents ==> intents[KeyOf(intent)].quarantinePath == intent.quarantinePath)
  }

  function RecordIntent(intents: map<IntentKey, PruneIntent>, intent: PruneIntent): map<IntentKey, PruneIntent> {
    if KeyOf(intent) in intents then intents else intents[KeyOf(intent) := intent.(detail := [], reclaimedBytes := 0)]
  }

  function ResolveIntent(intents: map<IntentKey, PruneIntent>, key: IntentKey, state: IntentState, reclaimed: nat,
                         detail: Text)
    : map<IntentKey, PruneIntent>
    requires key in intents
  {
    intents[key := intents[key].(state := state, reclaimedBytes := reclaimed, detail := detail)]
  }

  predicate DistinctSources(deltas: seq<Delta>) {
    forall i, j :: 0 <= i < j < |deltas| ==> deltas[i].sourceId != deltas[j].sourceId
  }

  /** Tombstones old enough to forget: acknowledged, with no pending batch, unreleased blob or open intent. */
  predicate Purgeable(db: Db, id: Text, expired: set<Text>)
    requires id in db.sources
  {
    var r := db.sources[id];
    && r.absent && id in expired && r.acknowledged && db.pending.None?
    && (forall key <- db.blobs :: db.blobs[key].sourceId == id ==> db.blobs[key].released)
    && (forall i <- db.intents ::
          db.intents[i].state in {Pending, Conflict} ==>
            db.intents[i].sourceId != Some(id)
            && !(db.intents[i].sourceId.None? && db.intents[i].path == r.identity.path))
  }

  function Purge(db: Db, expired: set<Text>): Db {
    db.(sources := map id | id in db.sources && !Purgeable(db, id, expired) :: db.sources[id])
  }
}
