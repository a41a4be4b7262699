/**
 Finite completion: calm runs over known files get nearer to the end of all of them, and the one that is not stopped has
 delivered and acknowledged everything.
 */
module Completion {
  import opened Utf8
  import opened LogEntry
  import opened Sources
  import opened Tables
  import opened Delivery
  import opened Coverage
  import opened Batching
  import opened Planner
  import opened Probing
  import opened Planning
  import opened Checkpoint
  import opened Import
  import opened Importer
  import opened LiveInput
  import opened Tidy
  import opened CaptureRun
  import opened Run
  import opened KnownFiles
  import F = Fragments
  import Json

  // ---- What is left to deliver ---------------------------------------------------------------------

  /** How far the row can get: to the end of its file, or of its blob. */
  function Reach(codec: Codec, db: Db, live: Wire -> Bytes, r: SourceRecord): nat {
    var blob := BlobContent(db, r);
    F.Max(|codec.decoded(r.identity.compression, live(r.identity))|,
          if blob.Some? then |codec.decoded(r.identity.compression, blob.value)| else 0)
  }

  function Owed(codec: Codec, db: Db, live: Wire -> Bytes, id: Text): nat {
    if id in db.sources then
      F.Max(Reach(codec, db, live, db.sources[id]) - db.sources[id].progress.offset, 0)
    else 0
  }

  /** The decoded bytes not yet delivered. */
  function Undelivered(codec: Codec, db: Db, live: Wire -> Bytes, ids: seq<Text>): nat {
    if ids == [] then 0 else Owed(codec, db, live, ids[0]) + Undelivered(codec, db, live, ids[1..])
  }

  lemma WindowWithinReach(codec: Codec, day: Day, t: Turn, p: FilePlan)
    requires KnownPlan(codec, day, t, p) && !p.input.NoInput?
    ensures var r := t.planned.sources[p.sourceId];
      |codec.decoded(r.identity.compression, WindowOf(t.planned.blobs, day.live, p))|
          <= Reach(codec, t.planned, day.live, r)
  {
    hide Kept, Known, OwnRow, AtRest, SelectInput, VerifySize;
  }

  lemma OwedStep(codec: Codec, log: seq<Body>, day: Day, t: Turn, id: Text)
    requires Begun(codec, log, day, t) && Ended(codec, day, t) && Carried(t)
    ensures Owed(codec, t.now, day.live, id) <= Owed(codec, t.start, day.live, id)
    ensures OffsetOf(t.now.sources, id) > OffsetOf(t.planned.sources, id) ==>
      Owed(codec, t.now, day.live, id) < Owed(codec, t.start, day.live, id)
  {
    hide Begun, KnownPlan, WindowOf, RowsLeft, BlobContent;
    assert OffsetOf(t.now.sources, id) >= OffsetOf(t.planned.sources, id);
    if OffsetOf(t.now.sources, id) > OffsetOf(t.planned.sources, id) {
      EveryPlan(codec, log, day, t);
      var p :| p in t.plans && p.sourceId == id && !p.input.NoInput?
               && t.now.sources[id].progress.offset
                  <= |codec.decoded(t.now.sources[id].identity.compression, WindowOf(t.planned.blobs, day.live, p))|;
      WindowWithinReach(codec, day, t, p);
      SameReach(codec, day, t, id);
    } else if id in t.start.sources {
      SameReach(codec, day, t, id);
    }
  }

  lemma SameReach(codec: Codec, day: Day, t: Turn, id: Text)
    requires Carried(t) && id in t.start.sources
    ensures Reach(codec, t.now, day.live, t.now.sources[id]) == Reach(codec, t.start, day.live, t.start.sources[id])
    ensures Reach(codec, t.planned, day.live, t.planned.sources[id])
        == Reach(codec, t.start, day.live, t.start.sources[id])
    ensures t.now.sources[id].identity == t.planned.sources[id].identity
    ensures t.planned.sources[id].progress == t.start.sources[id].progress
  {
  }

  /** No run adds to what is left, and one that moved a source on lessens it. */
  lemma {:induction false} LessLeft(codec: Codec, log: seq<Body>, day: Day, t: Turn, ids: seq<Text>)
    requires Begun(codec, log, day, t) && Ended(codec, day, t) && Carried(t)
    ensures Undelivered(codec, t.now, day.live, ids) <= Undelivered(codec, t.start, day.live, ids)
    ensures (exists id <- ids :: OffsetOf(t.now.sources, id) > OffsetOf(t.planned.sources, id)) ==>
      Undelivered(codec, t.now, day.live, ids) < Undelivered(codec, t.start, day.live, ids)
  {
    hide Begun, Ended, Carried, Owed, OffsetOf;
    if ids != [] {
      OwedStep(codec, log, day, t, ids[0]);
      LessLeft(codec, log, day, t, ids[1..]);
      if exists id <- ids :: OffsetOf(t.now.sources, id) > OffsetOf(t.planned.sources, id) {
        var id :| id in ids && OffsetOf(t.now.sources, id) > OffsetOf(t.planned.sources, id);
        assert id == ids[0] || id in ids[1..];
      }
    }
  }

  lemma ProgressLessens(codec: Codec, log: seq<Body>, day: Day, t: Turn, ids: seq<Text>)
    requires Begun(codec, log, day, t) && Ended(codec, day, t) && Carried(t)
    requires Progressed(t.planned.sources, t.now.sources) && forall id <- t.start.sources :: id in ids
    ensures Undelivered(codec, t.now, day.live, ids) < Undelivered(codec, t.start, day.live, ids)
  {
    hide Begun, Ended, Undelivered;
    var id: Text :| OffsetOf(t.now.sources, id) > OffsetOf(t.planned.sources, id);
    assert id in t.now.sources;
    LessLeft(codec, log, day, t, ids);
  }

  // ---- What a settled run has done -----------------------------------------------------------------

  /** The blob of a complete row is in the log. */
  lemma CompleteHasBlob(codec: Codec, log: seq<Body>, id: Text, r: SourceRecord, blob: Bytes)
    requires codec.Lawful() && RowOk(codec, log, id, r, Some(blob)) && IsPrefixComplete(r)
    ensures Archived(codec, log, r.identity.compression, blob)
  {
    var digest := r.digest.value.content;
    if Outgrown(r, Some(blob)) && r.provenance.verifiedRawSize > |blob| {
      hide LogHas;
      assert Covered(log, id, digest, r.progress.offset);
      assert Covered(log, id, blob, |blob|);
    } else {
      hide Delivered, Covered, Codec.Lawful;
      assert digest[..|blob|] == blob;
    }
  }

  /** So is a file that is as long as what was completed of it. */
  lemma CompleteHasFile(codec: Codec, log: seq<Body>, id: Text, r: SourceRecord, blob: Option<Bytes>, live: Bytes)
    requires RowOk(codec, log, id, r, blob) && IsPrefixComplete(r)
    requires r.digest.value.content <= live && r.provenance.completeSize == |live|
    ensures Archived(codec, log, r.identity.compression, live)
  {
    hide Archived, Delivered, ProgressOk, ShapeOk;
    var digest := r.digest.value.content;
    assert digest == live[..|digest|] && |digest| == |live|;
    assert live[..|live|] == live;
  }

  /** A frozen file that was not probed has something to read. */
  lemma LeftoverReads(codec: Codec, log: seq<Body>, day: Day, t: Turn, p: FilePlan)
    requires Inv(codec, log, t.start) && SpoolOk(t.start) && CaptureDone(t.start) && t.planned.blobs == t.start.blobs
    requires KnownPlan(codec, day, t, p) && p.wire.None?
    ensures !p.input.NoInput?
  {
    hide RowsOk, PendingOk, Known, OwnRow, ManifestOk, PlanOk, VerifySize;
    ReadsNothingExactly(t.planned, p);
    var id := p.sourceId;
    assert TiedRow(t.start.capture, id, t.start.sources[id]);
  }

  /** How a plan that reads nothing leaves its row. */
  lemma SkippedRow(codec: Codec, log: seq<Body>, day: Day, t: Turn, p: FilePlan)
    requires Begun(codec, log, day, t) && Ended(codec, day, t) && Carried(t) && p in t.plans && p.input.NoInput?
    ensures p.sourceId in t.start.sources
    ensures var r, now := t.start.sources[p.sourceId], t.now.sources[p.sourceId];
      && now.provenance.complete == r.provenance.complete && now.provenance.completeSize == r.provenance.completeSize
      && now.acknowledged == r.acknowledged
  {
    hide Begun, WindowOf, WithinPlans, NoRegress, BlobContent, KnownPlan, ClosedFor, Advanced;
    EveryPlan(codec, log, day, t);
    assert KnownPlan(codec, day, t, p);
    assert p.sourceId in t.start.sources by {
      PlanInStart(codec, day, t, p);
    }
    var id := p.sourceId;
    if t.now.sources[id] != t.planned.sources[id] {
      assert LeftBy(codec, t.planned.sources, t.now.sources, t.planned.blobs, day.live, p);
    }
  }

  lemma PlanInStart(codec: Codec, day: Day, t: Turn, p: FilePlan)
    requires KnownPlan(codec, day, t, p)
    ensures p.sourceId in t.start.sources && PlanOk(t.planned, p)
    ensures p.wire.Some? ==> p.wire.value in day.wires && OwnRow(t.start, p.sourceId, p.wire.value)
  {
    hide PlanOk, OwnRow;
  }

  ghost predicate SettledTurn(codec: Codec, log: seq<Body>, longer: seq<Body>, day: Day, t: Turn) {
    && Begun(codec, log, day, t) && Ended(codec, day, t) && Carried(t)
    && AllSettled(codec, t.planned, t.now, day.live, t.plans) && Inv(codec, longer, t.now)
  }

  /** Every plan leaves its row complete. */
  lemma PlanEndsComplete(codec: Codec, log: seq<Body>, longer: seq<Body>, day: Day, t: Turn, p: FilePlan)
    requires SettledTurn(codec, log, longer, day, t) && p in t.plans
    ensures p.sourceId in t.start.sources && IsPrefixComplete(t.now.sources[p.sourceId])
  {
    hide Begun, Ended, Inv, WindowOf, KnownPlan, Kept, PlanOk, BlobContent, IdentityCompatible;
    EveryPlan(codec, log, day, t);
    assert KnownPlan(codec, day, t, p);
    PlanInStart(codec, day, t, p);
    if p.input.NoInput? {
      InvOfTurn(codec, log, day, t);
      if p.wire.None? {
        CaptureOfTurn(codec, log, day, t);
        LeftoverReads(codec, log, day, t, p);
      } else {
        ReadsNothingExactly(t.planned, p);
        KeptRow(codec, log, t.start, t.planned, p.sourceId);
        CompleteStays(codec, log, day, t, p.sourceId);
      }
    }
  }

  lemma CaptureOfTurn(codec: Codec, log: seq<Body>, day: Day, t: Turn)
    requires Begun(codec, log, day, t)
    ensures CaptureDone(t.start)
  {
    hide Inv, SpoolOk, FrozenDay, CarriedByPlanning, KnownPlan, HasPlan, Handled;
  }

  /** The file of a row is in the log: its blob if it was frozen, else all of it. */
  ghost predicate InLog(codec: Codec, log: seq<Body>, db: Db, id: Text, live: Bytes) {
    && id in db.sources
    && var r := db.sources[id];
       var blob := BlobContent(db, r);
       Archived(codec, log, r.identity.compression, if blob.Some? then blob.value else live)
  }

  lemma SettledIsInLog(codec: Codec, log: seq<Body>, longer: seq<Body>, day: Day, t: Turn, id: Text, w: Wire)
    requires SettledTurn(codec, log, longer, day, t) && FrozenDay(codec, t.now, day)
    requires w in day.wires && OwnRow(t.start, id, w)
    ensures InLog(codec, longer, t.now, id, day.live(w))
  {
    hide Begun, Ended, Inv, OwnRow, KnownPlan, WindowOf, Archived, RowOk, Honest, Base, BlobContent, IdentityCompatible,
         FrozenDay, Kept, DayOk;
    var p := ItsPlan(codec, log, day, t, id, w);
    OwnIdentity(t.start, id, w);
    PlanEndsComplete(codec, log, longer, day, t, p);
    RowOfInv(codec, longer, t.now, id);
    var r, live := t.now.sources[id], day.live(w);
    var blob := BlobContent(t.now, r);
    if blob.Some? {
      CompleteHasBlob(codec, longer, id, r, blob.value);
    } else if p.input.NoInput? {
      SkippedFits(codec, log, day, t, p, w);
      CompleteHasFile(codec, longer, id, r, blob, live);
    } else {
      LiveInputIs(codec, day, t, p, w);
      DigestOfCompletedSizeIsDelivered(codec, longer, t.now, id, live);
    }
  }

  /** What a plan that reads nothing found of a file without a blob. */
  lemma SkippedFits(codec: Codec, log: seq<Body>, day: Day, t: Turn, p: FilePlan, w: Wire)
    requires Begun(codec, log, day, t) && Ended(codec, day, t) && Carried(t) && p in t.plans
    requires FrozenDay(codec, t.now, day) && KnownPlan(codec, day, t, p) && p.input.NoInput? && p.wire == Some(w)
    requires BlobContent(t.start, t.start.sources[p.sourceId]).None?
    ensures var r := t.now.sources[p.sourceId];
      r.provenance.completeSize == |day.live(w)| && (r.digest.Some? ==> r.digest.value.content <= day.live(w))
  {
    hide Begun, Ended, OwnRow, Ignored, FrozenKnown, BlobsFit, IdentityCompatible, Kept, InSync, CanBeRead, PathsOf,
         VerifySize;
    SkippedRow(codec, log, day, t, p);
    ReadsNothingExactly(t.planned, p);
    InvOfTurn(codec, log, day, t);
    KeptRow(codec, log, t.start, t.planned, p.sourceId);
    HonestNow(codec, log, day, t, p.sourceId, w);
  }

  lemma HonestNow(codec: Codec, log: seq<Body>, day: Day, t: Turn, id: Text, w: Wire)
    requires Begun(codec, log, day, t) && Ended(codec, day, t) && Carried(t) && w in day.wires
    requires Known(codec, t.start, id, w, day.live(w))
    ensures id in t.now.sources
    ensures t.now.sources[id].digest.Some? ==> t.now.sources[id].digest.value.content <= day.live(w)
  {
    hide Begun, Ended, OwnRow, InSync, CanBeRead;
    KnownStays(codec, log, day, t, id, w);
    OwnOfKnown(codec, t.now, id, w, day.live(w));
    OwnIdentity(t.now, id, w);
  }

  /** A file without a blob is read as it is. */
  lemma LiveInputIs(codec: Codec, day: Day, t: Turn, p: FilePlan, w: Wire)
    requires KnownPlan(codec, day, t, p) && Carried(t) && p.wire == Some(w) && !p.input.NoInput?
    requires BlobContent(t.start, t.start.sources[p.sourceId]).None?
    ensures WindowOf(t.now.blobs, day.live, p) == day.live(w)
  {
    hide Known, VerifySize;
  }

  /** The frozen history is in the log, every blob of it. */
  lemma BlobIsInLog(codec: Codec, log: seq<Body>, longer: seq<Body>, day: Day, t: Turn, key: BlobKey)
    requires SettledTurn(codec, log, longer, day, t) && t.start.capture.Some? && key in t.start.capture.value.expected
    requires SpoolOk(t.now) && t.now.capture == t.start.capture
    ensures FrozenInLog(codec, longer, t.now, key)
  {
    hide Begun, Ended, Inv, Carried, Archived, RowOk, BaseIdOf, WireOk, WindowOf, KnownPlan, PlanOk, ClosedFor,
         AllSettled;
    var id := t.start.capture.value.expected[key].sourceId;
    CaptureOfTurn(codec, log, day, t);
    IsHandled(codec, log, day, t, key);
    if exists p <- t.plans :: p.sourceId == id {
      var p :| p in t.plans && p.sourceId == id;
      PlanEndsComplete(codec, log, longer, day, t, p);
    } else {
      CompleteStays(codec, log, day, t, id);
    }
    SameIds(t, id);
    RowOfInv(codec, longer, t.now, id);
    BlobIsTheRowsOwn(codec, longer, t.now, key);
    CompleteHasBlob(codec, longer, id, t.now.sources[id], t.now.blobs[key].sha256.value.content);
  }

  ghost predicate FrozenInLog(codec: Codec, log: seq<Body>, db: Db, key: BlobKey) {
    && key in db.blobs && db.blobs[key].sha256.Some? && db.blobs[key].sourceId in db.sources
    && Archived(codec, log, db.sources[db.blobs[key].sourceId].identity.compression, db.blobs[key].sha256.value.content)
  }

  lemma SameIds(t: Turn, id: Text)
    requires Carried(t) && id in t.start.sources
    ensures id in t.now.sources
  {
  }

  lemma IsHandled(codec: Codec, log: seq<Body>, day: Day, t: Turn, key: BlobKey)
    requires Begun(codec, log, day, t) && key in t.start.capture.value.expected
    ensures var id := t.start.capture.value.expected[key].sourceId;
      id in t.start.sources && (IsPrefixComplete(t.start.sources[id]) || exists p <- t.plans :: p.sourceId == id)
  {
    hide Inv, SpoolOk, CarriedByPlanning, KnownPlan, HasPlan, Known, Ignored, OwnRow, IsPrefixComplete;
    assert Handled(t.start, t.plans, key);
    assert FrozenKnown(t.start, day.wires, key);
  }

  // ---- Acknowledgement -----------------------------------------------------------------------------

  /** The row is not acknowledged, and there is nothing left to read that would acknowledge it. */
  predicate Awaiting(db: Db, id: Text, w: Wire) {
    id in db.sources && !db.sources[id].acknowledged && NothingToRead(db, db.sources[id], Some(w))
  }

  /** A run leaves no row in that state that was not in it before. */
  lemma LeftIsNotAwaiting(codec: Codec, planned: Db, now: Db, id: Text, middle: SourceRecord, p: FilePlan,
                          live: Wire -> Bytes, window: Bytes, ending: Ending, w: Wire)
    requires PlanOk(planned, p) && p.sourceId == id && p.wire == Some(w) && id in now.sources
    requires Left(codec, planned.sources[id], middle, now.sources[id], p, live, window, ending)
    requires ending in {Skipped, BudgetStopped, Finished} && SameSource(planned.sources[id], now.sources[id])
    requires ShapeOk(planned.sources[id], BlobContent(planned, planned.sources[id]))
    requires BlobContent(now, now.sources[id]) == BlobContent(planned, planned.sources[id])
    ensures Awaiting(now, id, w) ==> Awaiting(planned, id, w)
  {
    hide IdentityCompatible, VerifySize, Base;
    SameCompatible(planned.sources[id], now.sources[id], w);
    if ending == Skipped {
      ReadsNothingExactly(planned, p);
    }
  }

  lemma KeptAwaits(t: Turn, id: Text, w: Wire)
    requires Carried(t) && id in t.start.sources
    ensures id in t.planned.sources && (Awaiting(t.planned, id, w) <==> Awaiting(t.start, id, w))
  {
    hide IdentityCompatible, BlobContent;
    SameCompatible(t.start.sources[id], t.planned.sources[id], w);
  }

  /** How a plan left its row, if it touched it. */
  lemma HowLeft(codec: Codec, day: Day, t: Turn, p: FilePlan) returns (middle: SourceRecord, ending: Ending)
    requires Ended(codec, day, t) && p in t.plans
    ensures p.sourceId in t.planned.sources && p.sourceId in t.now.sources
    ensures
      || t.now.sources[p.sourceId] == t.planned.sources[p.sourceId]
      || (ending in {Skipped, BudgetStopped, Finished}
          && Left(codec, t.planned.sources[p.sourceId], middle, t.now.sources[p.sourceId], p, day.live,
                  WindowOf(t.planned.blobs, day.live, p), ending))
  {
    hide Left, WindowOf, WithinPlans, NoRegress;
    if t.now.sources[p.sourceId] == t.planned.sources[p.sourceId] {
      middle, ending := t.now.sources[p.sourceId], Skipped;
    } else {
      assert LeftBy(codec, t.planned.sources, t.now.sources, t.planned.blobs, day.live, p);
      middle, ending :| ending in {Skipped, BudgetStopped, Finished}
        && Left(codec, t.planned.sources[p.sourceId], middle, t.now.sources[p.sourceId], p, day.live,
                WindowOf(t.planned.blobs, day.live, p), ending);
    }
  }

  lemma NoneNewAwaiting(codec: Codec, log: seq<Body>, day: Day, t: Turn, id: Text, w: Wire)
    requires Begun(codec, log, day, t) && Ended(codec, day, t) && Carried(t) && w in day.wires && OwnRow(t.start, id, w)
    ensures Awaiting(t.planned, id, w) ==> Awaiting(t.start, id, w)
    ensures Awaiting(t.now, id, w) ==> Awaiting(t.start, id, w)
  {
    hide Begun, Ended, OwnRow, Left, WindowOf, PlanOk, KnownPlan, RowOk, Kept, ShapeOk, BlobContent, NothingToRead;
    var p := ItsPlan(codec, log, day, t, id, w);
    PlanInStart(codec, day, t, p);
    InvOfTurn(codec, log, day, t);
    KeptRow(codec, log, t.start, t.planned, id);
    KeptAwaits(t, id, w);
    var middle, ending := HowLeft(codec, day, t, p);
    if t.now.sources[id] == t.planned.sources[id] {
      SameAwaits(t, id, w);
    } else {
      RowShape(codec, log, t.start, id);
      SameShape(t.start.sources[id], t.planned.sources[id], BlobContent(t.start, t.start.sources[id]));
      LeftIsNotAwaiting(codec, t.planned, t.now, id, middle, p, day.live, WindowOf(t.planned.blobs, day.live, p),
                        ending, w);
    }
  }

  lemma SameAwaits(t: Turn, id: Text, w: Wire)
    requires Carried(t) && id in t.now.sources && t.now.sources[id] == t.planned.sources[id]
    ensures Awaiting(t.now, id, w) ==> Awaiting(t.planned, id, w)
  {
    hide IdentityCompatible, Kept;
  }

  lemma SameShape(r: SourceRecord, next: SourceRecord, blob: Option<Bytes>)
    requires ShapeOk(r, blob)
    requires next.identity == r.identity && next.provenance == r.provenance && next.digest == r.digest
    ensures ShapeOk(next, blob)
  {
  }

  /** After a settled run a known file is acknowledged, unless it was awaiting it for ever. */
  lemma SettledIsAcknowledged(codec: Codec, log: seq<Body>, longer: seq<Body>, day: Day, t: Turn, id: Text, w: Wire)
    requires SettledTurn(codec, log, longer, day, t) && w in day.wires && OwnRow(t.start, id, w)
    ensures id in t.now.sources && (t.now.sources[id].acknowledged || Awaiting(t.start, id, w))
  {
    hide Begun, Ended, Inv, OwnRow, KnownPlan, WindowOf, IdentityCompatible, PlanOk, Kept, ClosedFor, NothingToRead;
    var p := ItsPlan(codec, log, day, t, id, w);
    PlanInStart(codec, day, t, p);
    assert id in t.start.sources;
    if Stranded(t.planned, p) {
      ReadsNothingExactly(t.planned, p);
      NoneNewAwaiting(codec, log, day, t, id, w);
    }
  }

  // ---- The runs ------------------------------------------------------------------------------------

  /** Everything a calm run starts from and leaves. */
  ghost predicate Ready(codec: Codec, log: seq<Body>, born: map<Text, nat>, db: Db, day: Day) {
    && Inv(codec, log, db) && SpoolOk(db) && TidyLog(born, log, db.sources, db.pending)
    && db.pending.None? && CaptureDone(db) && FrozenDay(codec, db, day)
  }

  /** A usable budget and labels of sensible size. */
  ghost predicate Usable(budget: nat, labelsFor: (Profile, LogKind) -> Bytes) {
    budget >= 1024 * 1024 && forall profile: Profile, kind: LogKind :: |labelsFor(profile, kind)| <= MAX_LABELS
  }

  /** One calm run: it settles every plan, or the budget stops it and some source has moved on. */
  method CalmRun(store: CheckpointStore, loki: LogStore, codec: Codec, labelsFor: (Profile, LogKind) -> Bytes,
                 budget: nat, day: Day)
    returns (settled: bool, timestamp: nat, ghost t: Turn)
    requires Ready(codec, loki.log, loki.born, store.State(), day) && Usable(budget, labelsFor)
    modifies store`sources, store`pending, store`blobs, store`capture, loki
    ensures Ready(codec, loki.log, loki.born, store.State(), day)
    ensures t.start == old(store.State()) && t.now == store.State()
    ensures Begun(codec, old(loki.log), day, t) && Ended(codec, day, t) && Carried(t)
    ensures loki.born == old(loki.born)
    ensures settled ==> SettledTurn(codec, old(loki.log), loki.log, day, t)
    ensures !settled && timestamp < Json.PowerOfTen(20) ==> Progressed(t.planned.sources, t.now.sources)
  {
    hide RunPlanned, Inv, SpoolOk, TidyLog, FrozenDay, Smooth, AllPlanned, AllSettled, CoveredRows, Progressed,
         PlanGood, ListingOk, DistinctIds, Matches, PathsOf, Json.PowerOfTen, SameContents, Carried, DayOk;
    DayIsOk(codec, store.State(), day);
    var state := new ImportState(store, loki, codec, budget, labelsFor, true);
    var alive, smooth, clash;
    ghost var start, planned, probe, l, plans, done;
    alive, smooth, clash, start, planned, probe, l, plans, done := ImportGuestLogs(state, day);
    NoClash(codec, start, day, l);
    NobodyStarts(codec, start, l, day, done, state.floor, old(loki.born), loki.born, old(store.sources), store.sources);
    t := Turn(start, planned, store.State(), l, probe, plans);
    ScheduledIsBegun(codec, old(loki.log), day, t);
    EveryPlanIsGood(codec, old(loki.log), day, t);
    DayGoesOn(codec, old(loki.log), day, t);
    SmoothLeavesNothing(codec, planned, store.State(), day, plans);
    settled, timestamp := !state.stopped, state.timestamp;
  }

  /** Over known files no row is started. */
  lemma NobodyStarts(codec: Codec, start: Db, l: Listing, day: Day, done: seq<Match>, log: seq<Body>,
                     born: map<Text, nat>, bornAfter: map<Text, nat>, before: map<Text, SourceRecord>,
                     after: map<Text, SourceRecord>)
    requires FrozenDay(codec, start, day) && ListingOk(start, l)
    requires RunPlanned(codec, before, start, l, day.wires, done, log, born, bornAfter, after)
    ensures bornAfter == born
  {
    hide FrozenDay, ListingOk, Inv, TidyLog, Matches, PathsOf, BornAfter, IdsPlanned, SameRows, Taken, PlannedId, Known;
    forall m <- done
      ensures m.same
    {
      assert PlannedFrom(start, l, day.wires, m);
      if m in Matches(start.capture.value, l, PathsOf(day.wires), day.wires) {
        KnownMatch(codec, start, day, l, m);
      } else {
        LeftoverHasRow(codec, start, day, m);
      }
    }
    AllSameBorn(born, |log|, done, l.Existing());
  }

  lemma LeftoverHasRow(codec: Codec, start: Db, day: Day, m: Match)
    requires FrozenDay(codec, start, day) && LeftoverOf(start, m)
    ensures m.same
  {
    hide Known, Ignored, OwnRow, BlobsFit, DayOk, IsPrefixComplete;
    var key :| key in start.capture.value.expected && key in start.capture.value.manifest && m == Leftover(start, key);
    assert FrozenKnown(start, day.wires, key);
  }

  lemma {:induction false} AllSameBorn(born: map<Text, nat>, n: nat, ms: seq<Match>, existing: seq<Text>)
    requires forall m <- ms :: m.same
    ensures BornAfter(born, n, ms, existing) == born
  {
    if ms != [] {
      AllSameBorn(born, n, ms[..|ms| - 1], existing);
    }
  }

  lemma DayIsOk(codec: Codec, db: Db, day: Day)
    requires FrozenDay(codec, db, day)
    ensures DayOk(day)
  {
  }

  lemma SmoothLeavesNothing(codec: Codec, planned: Db, now: Db, day: Day, plans: seq<FilePlan>)
    requires Smooth(codec, planned, now, day.live, plans)
    ensures now.pending.None?
  {
    hide NoRegress, WithinPlans, RowsLeft;
  }

  /** The known files at first are the known files still, and none is newly waiting for an acknowledgement. */
  ghost predicate Since(first: Db, now: Db, wires: seq<Wire>) {
    && now.capture == first.capture && now.sources.Keys == first.sources.Keys && SameContents(first.blobs, now.blobs)
    && forall id: Text, w: Wire {:trigger OwnRow(first, id, w)} | w in wires && OwnRow(first, id, w) ::
         OwnRow(now, id, w) && (Awaiting(now, id, w) ==> Awaiting(first, id, w))
  }

  lemma SinceStart(db: Db, wires: seq<Wire>)
    ensures Since(db, db, wires)
  {
  }

  lemma SameContentsSteps(a: map<BlobKey, BlobState>, b: map<BlobKey, BlobState>, c: map<BlobKey, BlobState>)
    requires SameContents(a, b) && SameContents(b, c)
    ensures SameContents(a, c)
  {
  }

  lemma SinceStep(codec: Codec, log: seq<Body>, day: Day, t: Turn, first: Db)
    requires Begun(codec, log, day, t) && Ended(codec, day, t) && Carried(t) && Since(first, t.start, day.wires)
    ensures Since(first, t.now, day.wires)
  {
    hide Begun, OwnRow, Awaiting, Kept, SameSource, BlobContent, Smooth, SameContents;
    SameContentsSteps(first.blobs, t.start.blobs, t.now.blobs);
    forall id: Text, w: Wire | w in day.wires && OwnRow(first, id, w)
      ensures OwnRow(t.now, id, w) && (Awaiting(t.now, id, w) ==> Awaiting(first, id, w))
    {
      OwnStays(codec, log, day, t, id, w);
      NoneNewAwaiting(codec, log, day, t, id, w);
    }
  }

  /**
   All there was to do: every known file is in the log and acknowledged, unless it was awaiting its acknowledgement for
   ever already, and so is every blob of the frozen history.
   */
  ghost predicate Drained(codec: Codec, log: seq<Body>, first: Db, now: Db, day: Day) {
    && (forall id: Text, w: Wire {:trigger OwnRow(first, id, w)} | w in day.wires && OwnRow(first, id, w) ::
          && InLog(codec, log, now, id, day.live(w))
          && (now.sources[id].acknowledged || Awaiting(first, id, w)))
    && first.capture.Some? && forall key <- first.capture.value.expected :: FrozenInLog(codec, log, now, key)
  }

  lemma SettledIsDone(codec: Codec, log: seq<Body>, longer: seq<Body>, day: Day, t: Turn, first: Db)
    requires SettledTurn(codec, log, longer, day, t) && Since(first, t.start, day.wires)
    requires FrozenDay(codec, t.now, day) && SpoolOk(t.now)
    ensures Drained(codec, longer, first, t.now, day)
  {
    hide Begun, Ended, Inv, OwnRow, Awaiting, Carried, AllSettled, FrozenDay, SpoolOk, Archived, BlobContent,
         FrozenInLog;
    SameCaptureAfter(codec, day, t);
    CaptureOfTurn(codec, log, day, t);
    forall id: Text, w: Wire | w in day.wires && OwnRow(first, id, w)
      ensures InLog(codec, longer, t.now, id, day.live(w)) && (t.now.sources[id].acknowledged || Awaiting(first, id, w))
    {
      SettledIsInLog(codec, log, longer, day, t, id, w);
      SettledIsAcknowledged(codec, log, longer, day, t, id, w);
    }
    forall key <- first.capture.value.expected
      ensures FrozenInLog(codec, longer, t.now, key)
    {
      BlobIsInLog(codec, log, longer, day, t, key);
    }
  }

  lemma ReadyParts(codec: Codec, log: seq<Body>, born: map<Text, nat>, db: Db, day: Day)
    requires Ready(codec, log, born, db, day)
    ensures Inv(codec, log, db) && SpoolOk(db) && FrozenDay(codec, db, day)
  {
    hide Inv, SpoolOk, FrozenDay, TidyLog;
  }

  lemma SameRowIds(t: Turn)
    requires Carried(t)
    ensures t.now.sources.Keys == t.start.sources.Keys
  {
  }

  /**
   Finite completion: repeat calm runs over files that no longer change. However little a run may push, the undelivered
   bytes get fewer with each run that the budget stops, so there are no more such runs than undelivered bytes, and the
   run after them settles everything. Only a timestamp of more than twenty digits ends the repetition early.
   */
  method Drain(store: CheckpointStore, loki: LogStore, codec: Codec, labelsFor: (Profile, LogKind) -> Bytes,
               budget: nat, day: Day, ghost ids: seq<Text>)
    returns (done: bool, timestamp: nat, runs: nat)
    requires Ready(codec, loki.log, loki.born, store.State(), day) && Usable(budget, labelsFor)
    requires forall id <- store.sources :: id in ids
    modifies store`sources, store`pending, store`blobs, store`capture, loki
    ensures Ready(codec, loki.log, loki.born, store.State(), day)
    ensures done || timestamp >= Json.PowerOfTen(20)
    ensures runs <= old(Undelivered(codec, store.State(), day.live, ids)) + 1
    ensures Since(old(store.State()), store.State(), day.wires) && loki.born == old(loki.born)
    ensures done ==> Drained(codec, loki.log, old(store.State()), store.State(), day)
  {
    hide Ready, Usable, Begun, Ended, Carried, SettledTurn, Since, Drained, Progressed, Json.PowerOfTen, Undelivered;
    ghost var first := store.State();
    SinceStart(first, day.wires);
    runs := 0;
    while true
      invariant Ready(codec, loki.log, loki.born, store.State(), day) && Since(first, store.State(), day.wires)
      invariant forall id <- store.sources :: id in ids
      invariant loki.born == old(loki.born)
      invariant runs + Undelivered(codec, store.State(), day.live, ids) <= Undelivered(codec, first, day.live, ids)
      decreases Undelivered(codec, store.State(), day.live, ids)
    {
      ghost var log := loki.log;
      var settled;
      ghost var t;
      settled, timestamp, t := CalmRun(store, loki, codec, labelsFor, budget, day);
      runs := runs + 1;
      SinceStep(codec, log, day, t, first);
      SameRowIds(t);
      if settled {
        ReadyParts(codec, loki.log, loki.born, store.State(), day);
        SettledIsDone(codec, log, loki.log, day, t, first);
        return true, timestamp, runs;
      }
      if timestamp >= Json.PowerOfTen(20) {
        return false, timestamp, runs;
      }
      ProgressLessens(codec, log, day, t, ids);
    }
  }
}
