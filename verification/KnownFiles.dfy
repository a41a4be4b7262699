/**
 Files that no longer change and whose rows say only what is so of them: a calm run plans each of them well, whichever
 way its plan ends, and knows them as well afterwards as before.
 */
module KnownFiles {
  import opened Utf8
  import opened LogEntry
  import opened Sources
  import opened Tables
  import opened Delivery
  import opened Coverage
  import opened Planner
  import opened Matching
  import opened Probing
  import opened Planning
  import opened Import
  import opened Importer
  import opened LiveInput
  import opened CaptureRun
  import opened Run
  import F = Fragments
  import Json

  // ---- Files the rows already know -----------------------------------------------------------------

  /** No run touches the row unless its own file is probed. */
  predicate AtRest(c: Capture, id: Text, r: SourceRecord) {
    ManifestBlob(c, id).None? || IsPrefixComplete(r)
  }

  /** Another row at the same path comes after this one, and will go on to. */
  predicate Beaten(c: Capture, id: Text, other: SourceRecord, r: SourceRecord) {
    || other.provenance.generation < r.provenance.generation
    || (Outranks(r, other) && AtRest(c, id, other))
  }

  /** The row that was last recorded from exactly this file, and that the file will be matched to. */
  predicate OwnRow(db: Db, id: Text, w: Wire) {
    && db.capture.Some? && id in db.sources
    && db.sources[id].identity == w && IdentityCompatible(db.sources[id], w)
    && forall k <- db.sources :: k != id && db.sources[k].identity.path == w.path ==>
         Beaten(db.capture.value, k, db.sources[k], db.sources[id])
  }

  /** A current file that is left to the live reader: no row continues in it and it was not frozen. */
  predicate Ignored(db: Db, paths: map<Text, Inode>, w: Wire) {
    && db.capture.Some?
    && (w.isActive || CurrentLogName(w.profile, w.logKind, w.path))
    && (forall k <- db.sources :: !SameGeneration(db.sources[k], w, paths))
    && forall key <- db.capture.value.expected ::
         (db.capture.value.expected[key].device, db.capture.value.expected[key].inode) != (w.device, w.inode)
  }

  predicate DistinctPaths(wires: seq<Wire>) {
    forall i, j :: 0 <= i < j < |wires| ==> wires[i].path != wires[j].path
  }

  /** The file is matched to its own row. */
  lemma OwnMatch(db: Db, l: Listing, paths: map<Text, Inode>, id: Text, w: Wire)
    requires ListingOk(db, l) && OwnRow(db, id, w)
    ensures var m := MatchOf(db.capture.value, l, paths, w);
      m.wire == Some(w) && m.record == Some(id) && m.same && ToPlan(db.capture.value, m)
  {
    hide MatchRecord, IdentityCompatible, Indexed, ManifestBlob, UnmatchedId, BaseIdOf;
    var k := l.byId[id];
    forall j | 0 <= j < |l.rows| && j != k && l.rows[j].record.identity.path == w.path
      ensures Outranks(l.rows[k].record, l.rows[j].record)
    {
      assert l.rows[j].id != id;
      assert Beaten(db.capture.value, l.rows[j].id, db.sources[l.rows[j].id], db.sources[id]);
    }
    ExactMatchWins(l.rows, l.byInode, l.byPath, l.byId, w, BaseIdOf(w), k);
    RowForIs(l, w);
  }

  lemma IgnoredMatch(db: Db, l: Listing, paths: map<Text, Inode>, w: Wire)
    requires ListingOk(db, l) && Ignored(db, paths, w)
    ensures !ToPlan(db.capture.value, MatchOf(db.capture.value, l, paths, w))
  {
    hide RowFor, SameGeneration, Indexed, UnmatchedId, CurrentLogName;
    var k := RowFor(l, w);
    if k.Some? {
      assert l.rows[k.value].id in db.sources;
    }
  }

  lemma {:induction false} InMatches(c: Capture, l: Listing, paths: map<Text, Inode>, wires: seq<Wire>, w: Wire)
    requires w in wires && ToPlan(c, MatchOf(c, l, paths, w))
    ensures MatchOf(c, l, paths, w) in Matches(c, l, paths, wires)
  {
    hide ToPlan, MatchOf;
    if w != wires[|wires| - 1] {
      assert wires == wires[..|wires| - 1] + [wires[|wires| - 1]];
      InMatches(c, l, paths, wires[..|wires| - 1], w);
    }
  }

  lemma MatchWire(c: Capture, l: Listing, paths: map<Text, Inode>, w: Wire)
    ensures MatchOf(c, l, paths, w).wire == Some(w)
  {
    hide RowFor, UnmatchedId, SameGeneration;
  }

  predicate WiresDiffer(ms: seq<Match>) {
    forall i, j :: 0 <= i < j < |ms| ==> ms[i].wire != ms[j].wire
  }

  lemma {:induction false} DistinctWires(c: Capture, l: Listing, paths: map<Text, Inode>, wires: seq<Wire>)
    requires DistinctPaths(wires)
    ensures WiresDiffer(Matches(c, l, paths, wires))
  {
    hide ToPlan, MatchOf;
    if wires != [] {
      var n := |wires| - 1;
      DistinctWires(c, l, paths, wires[..n]);
      MatchWire(c, l, paths, wires[n]);
      var shorter := Matches(c, l, paths, wires[..n]);
      forall m <- shorter
        ensures m.wire != Some(wires[n])
      {
        var k :| 0 <= k < n && wires[..n][k] == m.wire.value;
        assert wires[k].path != wires[n].path;
      }
      var m := MatchOf(c, l, paths, wires[n]);
      OneMoreWire(shorter, if ToPlan(c, m) then [m] else [], Some(wires[n]));
    }
  }

  lemma OneMoreWire(ms: seq<Match>, more: seq<Match>, w: Option<Wire>)
    requires WiresDiffer(ms) && |more| <= 1
    requires forall m <- ms :: m.wire != w
    requires forall m <- more :: m.wire == w
    ensures WiresDiffer(ms + more)
  {
    assert forall m <- ms :: m in ms + more;
  }

  // ---- What such a row may say ---------------------------------------------------------------------

  /** The names are short and the content decodes to its end, and is not beyond what counters of twenty digits count. */
  ghost predicate CanBeRead(codec: Codec, id: Text, r: SourceRecord, raw: Bytes) {
    && |CanonicalPath(r)| + |id| <= 1600
    && codec.wellFormed(r.identity.compression, raw)
    && |codec.decoded(r.identity.compression, raw)| + 1 < Json.PowerOfTen(20)
  }

  /**
   What the row holds of its file is the front of the file as it is, and its two records of how far it was verified
   agree; a frozen file was not verified before its blob was read.
   */
  ghost predicate Honest(codec: Codec, id: Text, r: SourceRecord, blob: Option<Bytes>, live: Bytes) {
    && (blob.Some? ==> blob.value <= live)
    && (r.digest.Some? ==> r.digest.value.content <= live)
    && (if blob.Some? && !IsPrefixComplete(r) then r.provenance.verifiedRawSize == 0 else InSync(r))
    && (blob.None? || r.identity.compression == Plain ==> CanBeRead(codec, id, r, live))
  }

  ghost predicate Known(codec: Codec, db: Db, id: Text, w: Wire, live: Bytes) {
    OwnRow(db, id, w) && Honest(codec, id, db.sources[id], BlobContent(db, db.sources[id]), live)
  }

  /** A frozen file is known too: its row is that of a probed file, or as the manifest has it, or complete. */
  predicate FrozenKnown(db: Db, wires: seq<Wire>, key: BlobKey) {
    && db.capture.Some? && key in db.capture.value.expected && key in db.capture.value.manifest
    && var id := db.capture.value.expected[key].sourceId;
       && id in db.sources
       && (|| db.sources[id].identity == db.capture.value.manifest[key]
           || IsPrefixComplete(db.sources[id])
           || exists w <- wires :: OwnRow(db, id, w))
  }

  ghost predicate BlobsFit(codec: Codec, db: Db) {
    forall id <- db.sources :: var blob := BlobContent(db, db.sources[id]);
      blob.Some? ==> CanBeRead(codec, id, db.sources[id], blob.value)
  }

  /** The files no longer change, and everything the rows say of them is so. */
  ghost predicate FrozenDay(codec: Codec, db: Db, day: Day) {
    && DayOk(day) && db.capture.Some? && DistinctPaths(day.wires)
    && (forall w <- day.wires ::
          Ignored(db, PathsOf(day.wires), w) || exists id: Text :: Known(codec, db, id, w, day.live(w)))
    && (forall key <- db.capture.value.expected :: FrozenKnown(db, day.wires, key))
    && BlobsFit(codec, db)
  }

  /** One run: the rows before planning, after it and at its end, and what was planned. */
  datatype Turn = Turn(start: Db, planned: Db, now: Db, l: Listing, probe: Probe, plans: seq<FilePlan>)

  /** A run over known files, once it has planned them. */
  ghost predicate Scheduled(codec: Codec, log: seq<Body>, day: Day, t: Turn) {
    && Inv(codec, log, t.start) && SpoolOk(t.start) && CaptureDone(t.start) && FrozenDay(codec, t.start, day)
    && AllPlanned(t.start, t.planned, day.wires, t.l, t.probe, t.plans)
  }

  ghost predicate Ended(codec: Codec, day: Day, t: Turn) {
    && Smooth(codec, t.planned, t.now, day.live, t.plans)
    && SameContents(t.start.blobs, t.now.blobs) && t.now.capture == t.start.capture
  }

  // ---- Planning over such files --------------------------------------------------------------------

  /** A planned match of a known file. */
  lemma KnownMatch(codec: Codec, db: Db, day: Day, l: Listing, m: Match)
    requires FrozenDay(codec, db, day) && ListingOk(db, l)
    requires m in Matches(db.capture.value, l, PathsOf(day.wires), day.wires)
    ensures m.same && m.record.Some? && m.wire.Some? && m.wire.value in day.wires
    ensures Known(codec, db, m.record.value, m.wire.value, day.live(m.wire.value))
  {
    hide MatchOf, ToPlan, Ignored, Known, PathsOf, FrozenKnown, BlobsFit, DistinctPaths, ListingOk;
    var w := m.wire.value;
    if Ignored(db, PathsOf(day.wires), w) {
      IgnoredMatch(db, l, PathsOf(day.wires), w);
    } else {
      var id: Text :| Known(codec, db, id, w, day.live(w));
      assert OwnRow(db, id, w) by {
        OwnOfKnown(codec, db, id, w, day.live(w));
      }
      OwnMatch(db, l, PathsOf(day.wires), id, w);
    }
  }

  lemma OwnOfKnown(codec: Codec, db: Db, id: Text, w: Wire, live: Bytes)
    requires Known(codec, db, id, w, live)
    ensures OwnRow(db, id, w)
  {
  }

  /** No two files are given the same id. */
  lemma NoClash(codec: Codec, db: Db, day: Day, l: Listing)
    requires FrozenDay(codec, db, day) && ListingOk(db, l)
    ensures DistinctIds(Matches(db.capture.value, l, PathsOf(day.wires), day.wires), l.Existing())
  {
    hide FrozenKnown, BlobsFit, PathsOf, ListingOk, Ignored, Honest;
    var paths := PathsOf(day.wires);
    var ms := Matches(db.capture.value, l, paths, day.wires);
    DistinctWires(db.capture.value, l, paths, day.wires);
    forall i, j | 0 <= i < j < |ms|
      ensures PlannedId(ms[i], l.Existing()) != PlannedId(ms[j], l.Existing())
    {
      KnownMatch(codec, db, day, l, ms[i]);
      KnownMatch(codec, db, day, l, ms[j]);
    }
  }

  /** Planning has left the row as it was, but for noting that its file is there. */
  predicate Kept(before: SourceRecord, after: SourceRecord) {
    && SameSource(before, after)
    && after == before.(absent := after.absent, updatedNs := after.updatedNs,
                        inInitialManifest := after.inInitialManifest)
  }

  /** A plan of such a run: it works on a known row, kept as it was, and verifies what that row says. */
  ghost predicate KnownPlan(codec: Codec, day: Day, t: Turn, p: FilePlan) {
    && PlanOk(t.planned, p)
    && p.sourceId in t.start.sources && p.sourceId in t.planned.sources
    && var r := t.start.sources[p.sourceId];
       && Kept(r, t.planned.sources[p.sourceId])
       && (p.verifyDigest.Some? ==> p.verifyDigest == r.digest && p.verifySize == VerifySize(r))
       && (if p.wire.Some? then
             p.wire.value in day.wires && Known(codec, t.start, p.sourceId, p.wire.value, day.live(p.wire.value))
           else
             t.start.capture.Some? && !AtRest(t.start.capture.value, p.sourceId, r)
             && forall w <- day.wires :: !OwnRow(t.start, p.sourceId, w))
  }

  lemma ProbedPlan(codec: Codec, log: seq<Body>, day: Day, t: Turn, i: nat)
    requires Scheduled(codec, log, day, t)
    requires i < |Matches(t.start.capture.value, t.l, PathsOf(day.wires), day.wires)|
    ensures i < |t.plans| && KnownPlan(codec, day, t, t.plans[i])
  {
    hide Inv, SpoolOk, FrozenDay, ListingOk, Matches, PathsOf, OnlyTakenFall, OnlyPlanned, DistinctIds, LeftoverOf,
         Handled, PlanOk, TakenIds, MustVerify, VerifySize, Honest;
    var ms := Matches(t.start.capture.value, t.l, PathsOf(day.wires), day.wires);
    assert ms[i] in ms && t.probe.matches[i] == ms[i];
    KnownMatch(codec, t.start, day, t.l, ms[i]);
    assert PlannedRow(t.start, ms[i], t.planned.sources[t.plans[i].sourceId], t.plans[i]);
  }

  lemma LeftoverPlan(codec: Codec, log: seq<Body>, day: Day, t: Turn, i: nat)
    requires Scheduled(codec, log, day, t)
    requires |Matches(t.start.capture.value, t.l, PathsOf(day.wires), day.wires)| <= i < |t.plans|
    ensures KnownPlan(codec, day, t, t.plans[i])
  {
    hide Inv, SpoolOk, ListingOk, Matches, PathsOf, OnlyTakenFall, OnlyPlanned, DistinctIds, Handled, PlanOk,
         DistinctPlans, TakenIds, MustVerify, VerifySize, Known, OwnRow, Ignored, BlobsFit, DayOk;
    var c := t.start.capture.value;
    assert LeftoverOf(t.start, t.probe.matches[i]);
    var key :| key in c.expected && key in c.manifest && LeftoverToPlan(t.start, key)
               && t.probe.matches[i] == Leftover(t.start, key);
    assert FrozenKnown(t.start, day.wires, key);
    var id := c.expected[key].sourceId;
    forall w <- day.wires
      ensures !OwnRow(t.start, id, w)
    {
      if OwnRow(t.start, id, w) {
        OwnIsProbed(codec, log, day, t, id, w);
        TwoPlans(t, id, i);
      }
    }
    ManifestKey(t.start, key);
    assert PlannedRow(t.start, t.probe.matches[i], t.planned.sources[t.plans[i].sourceId], t.plans[i]);
  }

  lemma ManifestKey(db: Db, key: BlobKey)
    requires SpoolOk(db) && CaptureDone(db) && key in db.capture.value.expected
    ensures ManifestBlob(db.capture.value, db.capture.value.expected[key].sourceId) == Some(key)
  {
    hide BaseIdOf, WireOk;
  }

  /** A known probed file has a plan of its own, before all leftovers. */
  lemma OwnIsProbed(codec: Codec, log: seq<Body>, day: Day, t: Turn, id: Text, w: Wire)
    requires Scheduled(codec, log, day, t) && w in day.wires && OwnRow(t.start, id, w)
    ensures exists j: nat ::
      && j < |Matches(t.start.capture.value, t.l, PathsOf(day.wires), day.wires)| && j < |t.plans|
      && t.plans[j].sourceId == id && t.plans[j].wire == Some(w)
  {
    hide Inv, SpoolOk, FrozenDay, ListingOk, Matches, PathsOf, OnlyTakenFall, OnlyPlanned, DistinctIds, LeftoverOf,
         Handled, PlanOk, TakenIds, OwnRow, PlannedRows, DistinctPlans;
    var c := t.start.capture.value;
    OwnMatch(t.start, t.l, PathsOf(day.wires), id, w);
    InMatches(c, t.l, PathsOf(day.wires), day.wires, w);
    var ms := Matches(c, t.l, PathsOf(day.wires), day.wires);
    var m := MatchOf(c, t.l, PathsOf(day.wires), w);
    assert m.same && m.record == Some(id) && m.wire == Some(w);
    hide MatchOf;
    var j :| 0 <= j < |ms| && ms[j] == m;
    assert t.probe.matches[j] == m;
  }

  lemma TwoPlans(t: Turn, id: Text, i: nat)
    requires i < |t.plans| && DistinctPlans(t.plans) && t.plans[i].sourceId == id
    ensures forall j: nat :: j < i ==> t.plans[j].sourceId != id
  {
  }

  lemma EachIsKnown(codec: Codec, log: seq<Body>, day: Day, t: Turn)
    requires Scheduled(codec, log, day, t)
    ensures forall p <- t.plans :: KnownPlan(codec, day, t, p)
  {
    hide Inv, SpoolOk, FrozenDay, AllPlanned, KnownPlan, Matches;
    forall p <- t.plans
      ensures KnownPlan(codec, day, t, p)
    {
      var i :| 0 <= i < |t.plans| && t.plans[i] == p;
      if i < |Matches(t.start.capture.value, t.l, PathsOf(day.wires), day.wires)| {
        ProbedPlan(codec, log, day, t, i);
      } else {
        LeftoverPlan(codec, log, day, t, i);
      }
    }
  }

  ghost predicate CarriedByPlanning(t: Turn) {
    && t.planned.blobs == t.start.blobs && t.planned.capture == t.start.capture
    && t.start.sources.Keys == t.planned.sources.Keys
    && forall id <- t.start.sources ::
         && Kept(t.start.sources[id], t.planned.sources[id])
         && ((forall p <- t.plans :: p.sourceId != id) ==> t.planned.sources[id] == t.start.sources[id])
  }

  lemma PlanningCarries(codec: Codec, log: seq<Body>, day: Day, t: Turn)
    requires Scheduled(codec, log, day, t)
    ensures CarriedByPlanning(t)
  {
    hide Inv, SpoolOk, FrozenDay, Planned, PlannedRows, OnlyTakenFall, DistinctIds, LeftoverOf, Handled, Matches,
         ListingOk, PlanOk, Known, OwnRow, AtRest, VerifySize;
    EachIsKnown(codec, log, day, t);
    forall id <- t.planned.sources
      ensures id in t.start.sources && Kept(t.start.sources[id], t.planned.sources[id])
    {
      if !(id in t.start.sources && t.planned.sources[id] == t.start.sources[id]) {
        var p :| p in t.plans && p.sourceId == id;
        assert KnownPlan(codec, day, t, p);
      }
    }
  }

  predicate HasPlan(t: Turn, id: Text, w: Wire) {
    exists p <- t.plans :: p.sourceId == id && p.wire == Some(w)
  }

  /**
   What such a run may rely on from there: its rows as planned, a known row behind every plan, a plan for every known
   file, and none of the frozen files forgotten.
   */
  ghost predicate Begun(codec: Codec, log: seq<Body>, day: Day, t: Turn) {
    && Inv(codec, log, t.start) && SpoolOk(t.start) && CaptureDone(t.start) && FrozenDay(codec, t.start, day)
    && CarriedByPlanning(t)
    && (forall p <- t.plans :: KnownPlan(codec, day, t, p))
    && (forall id: Text, w: Wire {:trigger OwnRow(t.start, id, w)} | w in day.wires && OwnRow(t.start, id, w) ::
          HasPlan(t, id, w))
    && forall key <- t.start.capture.value.expected :: Handled(t.start, t.plans, key)
  }

  lemma ScheduledIsBegun(codec: Codec, log: seq<Body>, day: Day, t: Turn)
    requires Scheduled(codec, log, day, t)
    ensures Begun(codec, log, day, t)
  {
    hide Scheduled, CarriedByPlanning, KnownPlan, Handled, OwnRow, Inv, SpoolOk, FrozenDay;
    PlanningCarries(codec, log, day, t);
    EachIsKnown(codec, log, day, t);
    ScheduledParts(codec, log, day, t);
    forall id: Text, w: Wire | w in day.wires && OwnRow(t.start, id, w)
      ensures HasPlan(t, id, w)
    {
      OwnIsProbed(codec, log, day, t, id, w);
    }
  }

  lemma ScheduledParts(codec: Codec, log: seq<Body>, day: Day, t: Turn)
    requires Scheduled(codec, log, day, t)
    ensures Inv(codec, log, t.start) && SpoolOk(t.start) && CaptureDone(t.start) && FrozenDay(codec, t.start, day)
    ensures forall key <- t.start.capture.value.expected :: Handled(t.start, t.plans, key)
  {
    hide Inv, SpoolOk, FrozenDay, Sofar, ListingOk, Matches, DistinctIds, LeftoverOf, Handled;
  }

  lemma EveryPlan(codec: Codec, log: seq<Body>, day: Day, t: Turn)
    requires Begun(codec, log, day, t)
    ensures forall p <- t.plans :: KnownPlan(codec, day, t, p)
  {
    hide Inv, SpoolOk, FrozenDay, KnownPlan, OwnRow, HasPlan, Handled, CarriedByPlanning;
  }

  // ---- Reading is possible -------------------------------------------------------------------------

  /** What a row can be read from, and stands within, can be read to its end. */
  lemma RowIsReadable(codec: Codec, log: seq<Body>, id: Text, r: SourceRecord, blob: Option<Bytes>, frozen: bool,
                      window: Bytes)
    requires codec.Lawful() && RowOk(codec, log, id, r, blob) && CanBeRead(codec, id, r, window)
    requires Base(r, blob).Some? ==> Base(r, blob).value <= window
    ensures Readable(codec, id, r, frozen, window)
  {
    hide Covered, CompletionOk, ShapeOk, FrozenRead, Base, Json.PowerOfTen, F.Fragments, CanonicalPath;
    var x := codec.decoded(r.identity.compression, window);
    if Base(r, blob).Some? {
      assert codec.decoded(r.identity.compression, Base(r, blob).value) <= x;
    }
    F.NeverStuck(x[r.progress.offset..], ResumeAt(r), SettingsFor(codec, id, r, frozen));
  }

  /** The plan of a known probed file is good. */
  lemma ProbedIsGood(codec: Codec, log: seq<Body>, day: Day, t: Turn, p: FilePlan)
    requires Inv(codec, log, t.start) && DayOk(day) && BlobsFit(codec, t.start) && t.planned.blobs == t.start.blobs
    requires KnownPlan(codec, day, t, p) && p.wire.Some?
    ensures PlanGood(codec, t.planned, day.live, p)
  {
    hide Inv, Kept, RowOk, DayOk, IdentityCompatible, CanBeRead, Base, InSync, VerifySize, Codec.Lawful, SelectInput,
         OwnRow, Readable, Covered;
    var id, w := p.sourceId, p.wire.value;
    var r, blob, live := t.start.sources[id], BlobContent(t.start, t.start.sources[id]), day.live(w);
    KeptRow(codec, log, t.start, t.planned, id);
    if p.ReadsLive() && p.verifyDigest.Some? {
      UnchangedFilePasses(r, p, live);
    }
    if p.input.Live? {
      BaseWithin(r, blob, live);
      PlainCanBeRead(codec, id, r, live);
      RowIsReadable(codec, log, id, r, blob, false, live);
      ReadableKept(codec, id, r, t.planned.sources[id], false, live);
    } else if p.input.Frozen? {
      FrozenIsGood(codec, log, day, t, p);
    }
  }

  lemma FrozenIsGood(codec: Codec, log: seq<Body>, day: Day, t: Turn, p: FilePlan)
    requires Inv(codec, log, t.start) && BlobsFit(codec, t.start) && t.planned.blobs == t.start.blobs
    requires KnownPlan(codec, day, t, p) && p.input.Frozen?
    ensures PlanGood(codec, t.planned, day.live, p)
  {
    hide Inv, RowOk, IdentityCompatible, CanBeRead, InSync, VerifySize, Codec.Lawful, Known, OwnRow, Readable;
    var id := p.sourceId;
    var r, blob := t.start.sources[id], BlobContent(t.start, t.start.sources[id]);
    KeptRow(codec, log, t.start, t.planned, id);
    RowIsReadable(codec, log, id, r, blob, true, blob.value);
    ReadableKept(codec, id, r, t.planned.sources[id], true, blob.value);
  }

  lemma KeptRow(codec: Codec, log: seq<Body>, start: Db, planned: Db, id: Text)
    requires Inv(codec, log, start) && id in start.sources && id in planned.sources && planned.blobs == start.blobs
    requires Kept(start.sources[id], planned.sources[id])
    ensures codec.Lawful() && RowOk(codec, log, id, start.sources[id], BlobContent(start, start.sources[id]))
    ensures BlobContent(planned, planned.sources[id]) == BlobContent(start, start.sources[id])
    ensures planned.sources[id].identity == start.sources[id].identity
    ensures planned.sources[id].digest == start.sources[id].digest
    ensures planned.sources[id].provenance == start.sources[id].provenance
    ensures planned.sources[id].progress == start.sources[id].progress
    ensures planned.sources[id].acknowledged == start.sources[id].acknowledged
    ensures IsPrefixComplete(planned.sources[id]) <==> IsPrefixComplete(start.sources[id])
  {
    hide RowOk, Codec.Lawful;
    RowOfInv(codec, log, start, id);
  }

  lemma BaseWithin(r: SourceRecord, blob: Option<Bytes>, live: Bytes)
    requires blob.Some? ==> blob.value <= live
    requires r.digest.Some? ==> r.digest.value.content <= live
    ensures Base(r, blob).Some? ==> Base(r, blob).value <= live
  {
  }

  lemma PlainCanBeRead(codec: Codec, id: Text, r: SourceRecord, live: Bytes)
    requires codec.Lawful()
    ensures CanBeRead(codec, id, r, live) ==> codec.wellFormed(r.identity.compression, live)
  {
  }

  lemma ReadableKept(codec: Codec, id: Text, r: SourceRecord, next: SourceRecord, frozen: bool, window: Bytes)
    requires Readable(codec, id, r, frozen, window)
    requires next.identity == r.identity && next.provenance == r.provenance && next.progress == r.progress
    ensures Readable(codec, id, next, frozen, window)
  {
    hide F.Fragments;
  }

  /** A frozen file that was not probed is read from its blob, which needs no proof. */
  lemma LeftoverIsGood(codec: Codec, log: seq<Body>, day: Day, t: Turn, p: FilePlan)
    requires Inv(codec, log, t.start) && BlobsFit(codec, t.start) && t.planned.blobs == t.start.blobs
    requires KnownPlan(codec, day, t, p) && p.wire.None?
    ensures PlanGood(codec, t.planned, day.live, p)
  {
    hide Inv, Kept, Known, OwnRow, AtRest, IdentityCompatible, CanRead;
    if p.input.Frozen? {
      FrozenIsGood(codec, log, day, t, p);
    }
  }

  /** Every plan of such a run is good. */
  lemma EveryPlanIsGood(codec: Codec, log: seq<Body>, day: Day, t: Turn)
    requires Begun(codec, log, day, t)
    ensures forall p <- t.plans :: PlanGood(codec, t.planned, day.live, p)
  {
    hide Inv, KnownPlan, PlanGood, BlobsFit, DayOk, SpoolOk, Known, FrozenKnown, Ignored, OwnRow, HasPlan, Handled,
         Kept;
    forall p <- t.plans
      ensures PlanGood(codec, t.planned, day.live, p)
    {
      if p.wire.Some? {
        ProbedIsGood(codec, log, day, t, p);
      } else {
        LeftoverIsGood(codec, log, day, t, p);
      }
    }
  }

  // ---- The rows stay honest ------------------------------------------------------------------------

  lemma ProofIsHonest(codec: Codec, log: seq<Body>, id: Text, r: SourceRecord, blob: Option<Bytes>, live: Bytes,
                      now: nat)
    requires RowOk(codec, log, id, r, blob) && Honest(codec, id, r, blob, live) && |live| == r.identity.size
    requires blob.Some? ==> IsPrefixComplete(r)
    ensures Honest(codec, id, Proved(r, live, now), blob, live)
  {
    hide ProgressOk, Archived, Delivered, Codec.Lawful, Json.PowerOfTen;
  }

  lemma AdvanceIsHonest(codec: Codec, id: Text, r: SourceRecord, after: SourceRecord, blob: Option<Bytes>, live: Bytes)
    requires Honest(codec, id, r, blob, live) && Advanced(r, after)
    ensures Honest(codec, id, after, blob, live)
  {
    hide Json.PowerOfTen;
  }

  /** Reading the live file to its end. */
  lemma LiveEndIsHonest(codec: Codec, id: Text, middle: SourceRecord, after: SourceRecord, blob: Option<Bytes>,
                        live: Bytes)
    requires Honest(codec, id, middle, blob, live) && middle.provenance.verifiedRawSize == |live|
    requires ClosedFor(codec, after, live) && SameVerification(middle, after)
    requires after.identity == middle.identity && after.provenance.canonicalPath == middle.provenance.canonicalPath
    ensures Honest(codec, id, after, blob, live)
  {
    hide Json.PowerOfTen;
  }

  /** Reading the blob to its end. */
  lemma FrozenEndIsHonest(codec: Codec, log: seq<Body>, id: Text, r: SourceRecord, after: SourceRecord,
                          blob: Option<Bytes>, live: Bytes)
    requires RowOk(codec, log, id, r, blob) && Honest(codec, id, r, blob, live)
    requires blob.Some? && ClosedFor(codec, after, blob.value) && SameVerification(r, after) && SameSource(r, after)
    requires IsPrefixComplete(r) ==>
      r.provenance.completeSize != |live| && !(r.identity.compression == Plain && |live| > r.provenance.completeSize)
    ensures Honest(codec, id, after, blob, live)
  {
    hide ProgressOk, FrozenRead, Archived, Delivered, Codec.Lawful, Json.PowerOfTen;
  }

  /** What a frozen input of a probed file says of its row. */
  lemma FrozenProbed(db: Db, p: FilePlan)
    requires PlanOk(db, p) && p.input.Frozen? && p.wire.Some?
          && IdentityCompatible(db.sources[p.sourceId], p.wire.value)
    ensures var r := db.sources[p.sourceId];
      IsPrefixComplete(r) ==>
        && r.provenance.completeSize != p.wire.value.size
        && !(r.identity.compression == Plain && p.wire.value.size > r.provenance.completeSize)
  {
    hide IdentityCompatible;
  }

  /** A row is honest when it is first recorded, with or without a blob of the file's front. */
  lemma FreshIsHonest(codec: Codec, id: Text, r: SourceRecord, blob: Option<Bytes>, live: Bytes)
    requires r.provenance == FreshProvenance(r.identity, r.provenance.generation) && r.digest.None?
    requires blob.Some? ==> blob.value <= live
    requires CanBeRead(codec, id, r, live)
    ensures Honest(codec, id, r, blob, live) && IdentityCompatible(r, r.identity)
  {
  }

  lemma KeptIsHonest(codec: Codec, id: Text, r: SourceRecord, next: SourceRecord, blob: Option<Bytes>, live: Bytes)
    requires Honest(codec, id, r, blob, live) && Kept(r, next)
    ensures Honest(codec, id, next, blob, live)
  {
    hide Json.PowerOfTen;
  }

  lemma SameCompatible(r: SourceRecord, next: SourceRecord, w: Wire)
    requires next.identity == r.identity && next.provenance.canonicalPath == r.provenance.canonicalPath
    ensures IdentityCompatible(r, w) <==> IdentityCompatible(next, w)
    ensures forall paths :: SameGeneration(r, w, paths) <==> SameGeneration(next, w, paths)
  {
    hide SameLogicalSource;
  }

  /** However its plan ended, the row of a known file is honest afterwards. */
  lemma LeftIsHonest(codec: Codec, log: seq<Body>, id: Text, r: SourceRecord, middle: SourceRecord, after: SourceRecord,
                     p: FilePlan, db: Db, live: Wire -> Bytes, ending: Ending)
    requires RowOk(codec, log, id, r, BlobContent(db, r)) && Honest(codec, id, r, BlobContent(db, r), live(r.identity))
    requires id in db.sources && r == db.sources[id] && |live(r.identity)| == r.identity.size
    requires PlanOk(db, p) && p.sourceId == id && p.wire == Some(r.identity) && IdentityCompatible(r, r.identity)
    requires ending in {Skipped, BudgetStopped, Finished} && SameSource(r, after)
    requires Left(codec, r, middle, after, p, live, WindowOf(db.blobs, live, p), ending)
    ensures Honest(codec, id, after, BlobContent(db, r), live(r.identity))
  {
    hide RowOk, Honest, IdentityCompatible, ClosedFor, SameVerification, Advanced, SelectInput, VerifySize,
         PrefixCompleteForCurrent, Base;
    var blob, content := BlobContent(db, r), live(r.identity);
    if p.ReadsLive() {
      ProofIsHonest(codec, log, id, r, blob, content, middle.updatedNs);
    }
    if ending == BudgetStopped {
      AdvanceIsHonest(codec, id, middle, after, blob, content);
    } else if ending == Finished {
      if p.input.Live? {
        LiveEndIsHonest(codec, id, middle, after, blob, content);
      } else {
        FrozenProbed(db, p);
        NotLive(db, p);
        FrozenEndIsHonest(codec, log, id, r, after, blob, content);
      }
    }
  }

  lemma NotLive(db: Db, p: FilePlan)
    requires PlanOk(db, p) && p.input.Frozen?
    ensures !p.ReadsLive()
  {
  }

  // ---- The day goes on -----------------------------------------------------------------------------

  /** The rows of a turn: the same files throughout, and unchanged where nothing was planned. */
  ghost predicate Carried(t: Turn) {
    && t.planned.blobs == t.start.blobs && t.planned.capture == t.start.capture
    && t.start.sources.Keys == t.planned.sources.Keys == t.now.sources.Keys
    && forall id <- t.start.sources ::
         && Kept(t.start.sources[id], t.planned.sources[id])
         && SameSource(t.planned.sources[id], t.now.sources[id])
         && SameSource(t.start.sources[id], t.now.sources[id])
         && BlobContent(t.now, t.now.sources[id]) == BlobContent(t.start, t.start.sources[id])
         && ((forall p <- t.plans :: p.sourceId != id) ==> t.now.sources[id] == t.start.sources[id])
  }

  lemma TurnCarries(codec: Codec, log: seq<Body>, day: Day, t: Turn)
    requires Begun(codec, log, day, t) && Ended(codec, day, t)
    ensures Carried(t)
  {
    hide Inv, SpoolOk, FrozenDay, KnownPlan, OwnRow, HasPlan, Handled, NoRegress, RowsLeft, WindowOf, SameSource, Kept;
    KeptSources(t);
    forall id <- t.start.sources
      ensures SameSource(t.planned.sources[id], t.now.sources[id]) && SameSource(t.start.sources[id], t.now.sources[id])
      ensures BlobContent(t.now, t.now.sources[id]) == BlobContent(t.start, t.start.sources[id])
    {
      SameSourceSteps(t.start.sources[id], t.planned.sources[id], t.now.sources[id]);
      SameBlobs(t.start, t.now, t.start.sources[id], t.now.sources[id]);
    }
  }

  lemma KeptSources(t: Turn)
    requires CarriedByPlanning(t)
    ensures forall id <- t.start.sources :: SameSource(t.start.sources[id], t.planned.sources[id])
  {
  }

  lemma SameSourceSteps(a: SourceRecord, b: SourceRecord, c: SourceRecord)
    requires SameSource(a, b) && SameSource(b, c)
    ensures SameSource(a, c) && c.blob == a.blob
  {
  }

  lemma SameBlobs(before: Db, after: Db, r: SourceRecord, next: SourceRecord)
    requires SameContents(before.blobs, after.blobs) && next.blob == r.blob
    ensures BlobContent(after, next) == BlobContent(before, r)
  {
  }

  lemma OneOwner(db: Db, a: Text, b: Text, v: Wire, w: Wire)
    requires OwnRow(db, a, v) && OwnRow(db, b, w) && v.path == w.path
    ensures a == b
  {
    hide IdentityCompatible, AtRest;
  }

  /** A row at rest that is not a probed file's own has no plan. */
  lemma NoPlanAtRest(codec: Codec, log: seq<Body>, day: Day, t: Turn, id: Text, w: Wire, k: Text)
    requires Begun(codec, log, day, t) && OwnRow(t.start, id, w) && k in t.start.sources && k != id
    requires t.start.sources[k].identity.path == w.path && AtRest(t.start.capture.value, k, t.start.sources[k])
    ensures forall p <- t.plans :: p.sourceId != k
  {
    hide Inv, SpoolOk, FrozenDay, CarriedByPlanning, HasPlan, Handled, OwnRow, AtRest, PlanOk, Honest, VerifySize;
    EveryPlan(codec, log, day, t);
    forall p <- t.plans
      ensures p.sourceId != k
    {
      if p.sourceId == k {
        assert KnownPlan(codec, day, t, p);
        assert p.wire.Some?;
        OwnIdentity(t.start, k, p.wire.value);
        OneOwner(t.start, id, k, w, p.wire.value);
      }
    }
  }

  lemma OwnIdentity(db: Db, id: Text, w: Wire)
    requires OwnRow(db, id, w)
    ensures id in db.sources && db.sources[id].identity == w && IdentityCompatible(db.sources[id], w)
  {
  }

  lemma OwnStays(codec: Codec, log: seq<Body>, day: Day, t: Turn, id: Text, w: Wire)
    requires Begun(codec, log, day, t) && Carried(t) && t.now.capture == t.start.capture && OwnRow(t.start, id, w)
    ensures OwnRow(t.now, id, w)
  {
    hide Begun, IdentityCompatible, AtRest;
    SameCompatible(t.start.sources[id], t.now.sources[id], w);
    forall k <- t.now.sources | k != id && t.now.sources[k].identity.path == w.path
      ensures Beaten(t.start.capture.value, k, t.now.sources[k], t.now.sources[id])
    {
      assert k in t.start.sources && t.start.sources[k].identity.path == w.path;
      assert Beaten(t.start.capture.value, k, t.start.sources[k], t.start.sources[id]);
      if AtRest(t.start.capture.value, k, t.start.sources[k]) {
        NoPlanAtRest(codec, log, day, t, id, w, k);
      }
    }
  }

  lemma IgnoredStays(t: Turn, paths: map<Text, Inode>, w: Wire)
    requires Carried(t) && t.now.capture == t.start.capture && Ignored(t.start, paths, w)
    ensures Ignored(t.now, paths, w)
  {
    hide SameGeneration, CurrentLogName;
    forall k <- t.now.sources
      ensures !SameGeneration(t.now.sources[k], w, paths)
    {
      assert k in t.start.sources;
      SameCompatible(t.start.sources[k], t.now.sources[k], w);
    }
  }

  /** The plan of a probed file. */
  lemma ItsPlan(codec: Codec, log: seq<Body>, day: Day, t: Turn, id: Text, w: Wire) returns (p: FilePlan)
    requires Begun(codec, log, day, t) && w in day.wires && OwnRow(t.start, id, w)
    ensures p in t.plans && p.sourceId == id && p.wire == Some(w) && KnownPlan(codec, day, t, p)
  {
    hide Inv, SpoolOk, FrozenDay, OwnRow, KnownPlan, Handled, CarriedByPlanning;
    assert HasPlan(t, id, w);
    p :| p in t.plans && p.sourceId == id && p.wire == Some(w);
  }

  /** A known file stays known. */
  lemma KnownStays(codec: Codec, log: seq<Body>, day: Day, t: Turn, id: Text, w: Wire)
    requires Begun(codec, log, day, t) && Ended(codec, day, t) && Carried(t) && w in day.wires
    requires Known(codec, t.start, id, w, day.live(w))
    ensures Known(codec, t.now, id, w, day.live(w))
  {
    hide Begun, OwnRow, Honest, Left, SameSource, PlanOk, WindowOf, WithinPlans, NoRegress, BlobContent, Kept, RowOk;
    OwnStays(codec, log, day, t, id, w);
    OwnIdentity(t.start, id, w);
    var p := ItsPlan(codec, log, day, t, id, w);
    InvOfTurn(codec, log, day, t);
    KeptRow(codec, log, t.start, t.planned, id);
    KeptIsHonest(codec, id, t.start.sources[id], t.planned.sources[id], BlobContent(t.start, t.start.sources[id]),
                 day.live(w));
    if t.now.sources[id] != t.planned.sources[id] {
      assert LeftBy(codec, t.planned.sources, t.now.sources, t.planned.blobs, day.live, p);
      LeftByIsHonest(codec, log, day, t, id, p);
    }
  }

  lemma InvOfTurn(codec: Codec, log: seq<Body>, day: Day, t: Turn)
    requires Begun(codec, log, day, t)
    ensures Inv(codec, log, t.start) && BlobsFit(codec, t.start) && DayOk(day) && SpoolOk(t.start)
         && t.start.capture.Some?
  {
    hide Inv, CarriedByPlanning, KnownPlan, HasPlan, Handled, BlobsFit, SpoolOk, DayOk, FrozenKnown, Known, Ignored;
  }

  lemma LeftByIsHonest(codec: Codec, log: seq<Body>, day: Day, t: Turn, id: Text, p: FilePlan)
    requires Inv(codec, log, t.start) && Carried(t) && id in t.start.sources && DayOk(day)
    requires PlanOk(t.planned, p) && p.sourceId == id && p.wire == Some(t.planned.sources[id].identity)
    requires IdentityCompatible(t.start.sources[id], t.start.sources[id].identity)
    requires LeftBy(codec, t.planned.sources, t.now.sources, t.planned.blobs, day.live, p)
    requires var r := t.planned.sources[id]; Honest(codec, id, r, BlobContent(t.planned, r), day.live(r.identity))
    ensures var r := t.planned.sources[id];
      Honest(codec, id, t.now.sources[id], BlobContent(t.planned, r), day.live(r.identity))
  {
    hide Inv, Left, SameSource, PlanOk, WindowOf, Honest, RowOk, BlobContent, IdentityCompatible, Kept;
    var r, now := t.planned.sources[id], t.now.sources[id];
    KeptRow(codec, log, t.start, t.planned, id);
    MarkedRow(codec, log, id, t.start.sources[id], BlobContent(t.start, t.start.sources[id]), r);
    SameCompatible(t.start.sources[id], r, r.identity);
    var middle: SourceRecord, ending: Ending :| ending in {Skipped, BudgetStopped, Finished}
      && Left(codec, r, middle, now, p, day.live, WindowOf(t.planned.blobs, day.live, p), ending);
    LeftIsHonest(codec, log, id, r, middle, now, p, t.planned, day.live, ending);
  }

  /** Completion is never taken back. */
  lemma LeftIsComplete(codec: Codec, r: SourceRecord, middle: SourceRecord, after: SourceRecord, p: FilePlan,
                       live: Wire -> Bytes, window: Bytes, ending: Ending)
    requires Left(codec, r, middle, after, p, live, window, ending) && ending in {Skipped, BudgetStopped, Finished}
    requires IsPrefixComplete(r)
    ensures IsPrefixComplete(after)
  {
  }

  lemma CompleteStays(codec: Codec, log: seq<Body>, day: Day, t: Turn, id: Text)
    requires Begun(codec, log, day, t) && Ended(codec, day, t) && Carried(t)
    requires id in t.start.sources && IsPrefixComplete(t.start.sources[id])
    ensures IsPrefixComplete(t.now.sources[id])
  {
    hide Begun, Left, SameSource, WindowOf, WithinPlans, NoRegress, BlobContent;
    if exists p <- t.plans :: p.sourceId == id {
      var p :| p in t.plans && p.sourceId == id;
      if t.now.sources[id] != t.planned.sources[id] {
        assert LeftBy(codec, t.planned.sources, t.now.sources, t.planned.blobs, day.live, p);
        var middle: SourceRecord, ending: Ending :| ending in {Skipped, BudgetStopped, Finished}
          && Left(codec, t.planned.sources[id], middle, t.now.sources[id], p, day.live,
                  WindowOf(t.planned.blobs, day.live, p), ending);
        LeftIsComplete(codec, t.planned.sources[id], middle, t.now.sources[id], p, day.live,
                       WindowOf(t.planned.blobs, day.live, p), ending);
      }
    }
  }

  lemma FrozenStays(codec: Codec, log: seq<Body>, day: Day, t: Turn, key: BlobKey)
    requires Begun(codec, log, day, t) && Ended(codec, day, t) && Carried(t) && FrozenKnown(t.start, day.wires, key)
    ensures FrozenKnown(t.now, day.wires, key)
  {
    hide Begun, Ended, OwnRow, IsPrefixComplete, Kept, BlobContent;
    var id := t.start.capture.value.expected[key].sourceId;
    assert t.now.capture == t.start.capture by {
      SameCaptureAfter(codec, day, t);
    }
    if IsPrefixComplete(t.start.sources[id]) {
      CompleteStays(codec, log, day, t, id);
    } else if exists w <- day.wires :: OwnRow(t.start, id, w) {
      var w :| w in day.wires && OwnRow(t.start, id, w);
      OwnStays(codec, log, day, t, id, w);
    }
  }

  lemma SameCaptureAfter(codec: Codec, day: Day, t: Turn)
    requires Ended(codec, day, t)
    ensures t.now.capture == t.start.capture
  {
  }

  lemma BlobsStillFit(codec: Codec, t: Turn)
    requires Carried(t) && BlobsFit(codec, t.start)
    ensures BlobsFit(codec, t.now)
  {
    hide Json.PowerOfTen, BlobContent, Kept;
    forall id <- t.now.sources | BlobContent(t.now, t.now.sources[id]).Some?
      ensures CanBeRead(codec, id, t.now.sources[id], BlobContent(t.now, t.now.sources[id]).value)
    {
      assert id in t.start.sources;
    }
  }

  /** After a calm run the files are as well known as before it. */
  lemma DayGoesOn(codec: Codec, log: seq<Body>, day: Day, t: Turn)
    requires Begun(codec, log, day, t) && Ended(codec, day, t)
    ensures FrozenDay(codec, t.now, day) && Carried(t)
  {
    hide Inv, SpoolOk, CarriedByPlanning, KnownPlan, HasPlan, Handled, OwnRow, Ended, Known, Ignored, FrozenKnown,
         BlobsFit, DayOk, DistinctPaths, Carried, PathsOf;
    TurnCarries(codec, log, day, t);
    SameCaptureAfter(codec, day, t);
    BlobsStillFit(codec, t);
    forall w <- day.wires
      ensures Ignored(t.now, PathsOf(day.wires), w) || exists id: Text :: Known(codec, t.now, id, w, day.live(w))
    {
      if Ignored(t.start, PathsOf(day.wires), w) {
        IgnoredStays(t, PathsOf(day.wires), w);
      } else {
        var id: Text :| Known(codec, t.start, id, w, day.live(w));
        KnownStays(codec, log, day, t, id, w);
      }
    }
    forall key <- t.now.capture.value.expected
      ensures FrozenKnown(t.now, day.wires, key)
    {
      FrozenStays(codec, log, day, t, key);
    }
  }
}
