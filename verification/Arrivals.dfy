/**
 Files that turn up, frozen by the capture or later, beside files that are known: one calm run makes all of them known,
 so finitely many runs archive all of them.
 */
module Arrivals {
  import opened Utf8
  import opened LogEntry
  import opened Sources
  import opened Tables
  import opened Delivery
  import opened Coverage
  import opened Planner
  import opened Matching
  import opened Probing
  import opened Planning
  import opened Checkpoint
  import opened Import
  import opened LiveInput
  import opened Tidy
  import opened CaptureRun
  import opened Run
  import opened KnownFiles
  import opened Completion
  import Json

  // ---- Newcomers -----------------------------------------------------------------------------------

  function KeyFor(c: Capture, w: Wire): BlobKey {
    BlobKey(c.captureId, BaseIdOf(w))
  }

  /**
   A file that no row belongs to: its path and the id of its path are new, and so is its inode to its rotation family.
   Either it was frozen itself, or no frozen file has its inode and it is closed.
   */
  predicate NewFile(db: Db, w: Wire) {
    && db.capture.Some? && BaseIdOf(w) !in db.sources
    && (forall k <- db.sources :: db.sources[k].identity.path != w.path)
    && (forall k <- db.sources ::
          (w.device, w.inode) in InodesOf(db.sources[k]) ==> !IdentityCompatible(db.sources[k], w))
    && var c := db.capture.value;
       && (forall key <- c.expected :: (c.expected[key].device, c.expected[key].inode) == (w.device, w.inode) ==>
             key == KeyFor(c, w))
       && if KeyFor(c, w) in c.expected then
            (c.expected[KeyFor(c, w)].device, c.expected[KeyFor(c, w)].inode) == (w.device, w.inode)
          else !(w.isActive || CurrentLogName(w.profile, w.logKind, w.path))
  }

  /** It can be read to its end, has a short name, and is as it was if it was frozen. */
  ghost predicate Arriving(codec: Codec, db: Db, w: Wire, live: Bytes) {
    && NewFile(db, w)
    && |w.path| + |BaseIdOf(w)| <= 1600
    && codec.wellFormed(w.compression, live)
    && |codec.decoded(w.compression, live)| + 1 < Json.PowerOfTen(20)
    && (KeyFor(db.capture.value, w) in db.blobs ==> db.blobs[KeyFor(db.capture.value, w)].sha256 == Some(Sha256(live)))
  }

  /** The inode of a newcomer is that of no other probed file. */
  predicate OwnInodes(db: Db, wires: seq<Wire>) {
    forall v <- wires, w <- wires :: NewFile(db, v) && SameInode(v, w) ==> v == w
  }

  /** Every probed file is known, or left to the live reader, or new; every frozen one is known or new. */
  ghost predicate ArrivalDay(codec: Codec, db: Db, day: Day) {
    && DayOk(day) && db.capture.Some? && DistinctPaths(day.wires) && OwnInodes(db, day.wires)
    && (forall w <- day.wires ::
          || Ignored(db, PathsOf(day.wires), w)
          || Arriving(codec, db, w, day.live(w))
          || exists id: Text :: Known(codec, db, id, w, day.live(w)))
    && (forall key <- db.capture.value.expected :: FrozenKnown(db, day.wires, key) || FrozenNew(db, day.wires, key))
    && BlobsFit(codec, db)
  }

  predicate FrozenNew(db: Db, wires: seq<Wire>, key: BlobKey) {
    && db.capture.Some? && key in db.capture.value.expected && key in db.capture.value.manifest
    && exists w <- wires :: NewFile(db, w) && key == KeyFor(db.capture.value, w)
  }

  lemma DifferentBases(v: Wire, w: Wire)
    requires v.path != w.path
    ensures BaseIdOf(v) != BaseIdOf(w)
  {
    if BaseIdOf(v) == BaseIdOf(w) {
      BaseIdsDiffer(v.profile, v.logKind, v.path, w.profile, w.logKind, w.path);
    }
  }

  lemma OnePath(wires: seq<Wire>, v: Wire, w: Wire)
    requires DistinctPaths(wires) && v in wires && w in wires && v.path == w.path
    ensures v == w
  {
  }

  /** No row is found for it. */
  lemma NobodyMatches(db: Db, l: Listing, w: Wire)
    requires ListingOk(db, l) && NewFile(db, w)
    ensures RowFor(l, w).None?
  {
    hide IdentityCompatible, BaseIdOf, InodesListed, InodesOf, CurrentLogName;
    assert KeyOk(l.rows, |l.rows|, l.byPath, PathOf, w.path);
    assert KeyOk(l.rows, |l.rows|, l.byInode, InodesOf, (w.device, w.inode));
    assert w.path in l.byPath ==> w.path in PathOf(l.rows[l.byPath[w.path]].record);
  }

  /** The frozen file with its inode, if there is one, is the file itself. */
  lemma OwnBaseId(db: Db, l: Listing, w: Wire)
    requires ListingOk(db, l) && SpoolOk(db) && NewFile(db, w)
    ensures UnmatchedId(db.capture.value, l, w) == BaseIdOf(w)
  {
    hide Indexed, IdentityCompatible, CurrentLogName, SameLogicalSource, BaseSourceId, WireOk, Compatible;
    var c := db.capture.value;
    var frozen := FrozenId(c, l, w);
    if frozen.Some? {
      var key := l.manifestInode[(w.device, w.inode)];
      assert key == KeyFor(c, w) && key == BlobKey(c.captureId, BaseIdOf(c.manifest[key]));
    }
  }

  /** It is planned, as a file without a row, under the id of its path. */
  lemma NewMatch(db: Db, l: Listing, paths: map<Text, Inode>, w: Wire)
    requires ListingOk(db, l) && SpoolOk(db) && NewFile(db, w)
    ensures var c := db.capture.value;
      var m := MatchOf(c, l, paths, w);
      && m == Match(Some(w), None, false, ManifestBlob(c, BaseIdOf(w)), None, BaseIdOf(w)) && ToPlan(c, m)
  {
    hide RowFor, UnmatchedId, Indexed, IdentityCompatible, CurrentLogName, BaseIdOf, SpoolOk;
    NobodyMatches(db, l, w);
    OwnBaseId(db, l, w);
  }

  // ---- Planning ------------------------------------------------------------------------------------

  /** The match of a known file, as `KnownFiles.KnownMatch` has it, or that of a newcomer. */
  ghost predicate MixedMatch(codec: Codec, db: Db, day: Day, m: Match) {
    && db.capture.Some? && m.wire.Some? && m.wire.value in day.wires
    && var w := m.wire.value;
       || (m.same && m.record.Some? && Known(codec, db, m.record.value, w, day.live(w)))
       || (Arriving(codec, db, w, day.live(w))
           && m == Match(Some(w), None, false, ManifestBlob(db.capture.value, BaseIdOf(w)), None, BaseIdOf(w)))
  }

  lemma EachMatch(codec: Codec, db: Db, day: Day, l: Listing, m: Match)
    requires ArrivalDay(codec, db, day) && ListingOk(db, l) && SpoolOk(db)
    requires m in Matches(db.capture.value, l, PathsOf(day.wires), day.wires)
    ensures MixedMatch(codec, db, day, m)
  {
    hide MatchOf, ToPlan, Ignored, Known, PathsOf, FrozenKnown, BlobsFit, DistinctPaths, ListingOk, SpoolOk, FrozenNew,
         NewFile, OwnInodes, BaseIdOf;
    var w := m.wire.value;
    if Ignored(db, PathsOf(day.wires), w) {
      IgnoredMatch(db, l, PathsOf(day.wires), w);
    } else if Arriving(codec, db, w, day.live(w)) {
      NewMatch(db, l, PathsOf(day.wires), w);
    } else {
      var id: Text :| Known(codec, db, id, w, day.live(w));
      OwnOfKnown(codec, db, id, w, day.live(w));
      OwnMatch(db, l, PathsOf(day.wires), id, w);
    }
  }

  /** Two of them have two ids. */
  lemma TwoIds(codec: Codec, db: Db, day: Day, a: Match, b: Match, existing: seq<Text>)
    requires MixedMatch(codec, db, day, a) && MixedMatch(codec, db, day, b) && DistinctPaths(day.wires)
    requires a.wire != b.wire
    ensures PlannedId(a, existing) != PlannedId(b, existing)
  {
    hide NextGeneration, Honest, IdentityCompatible, BaseIdOf;
    var v, w := a.wire.value, b.wire.value;
    if v.path == w.path {
      OnePath(day.wires, v, w);
    }
    DifferentBases(v, w);
  }

  /** So no two files are given the same id. */
  lemma ArrivalNoClash(codec: Codec, db: Db, day: Day, l: Listing)
    requires ArrivalDay(codec, db, day) && ListingOk(db, l) && SpoolOk(db)
    ensures DistinctIds(Matches(db.capture.value, l, PathsOf(day.wires), day.wires), l.Existing())
  {
    hide ListingOk, SpoolOk, PathsOf, MatchOf, ToPlan, PlannedId, MixedMatch, Known, Ignored, Arriving, FrozenKnown,
         FrozenNew, BlobsFit, OwnInodes;
    var ms := Matches(db.capture.value, l, PathsOf(day.wires), day.wires);
    DistinctWires(db.capture.value, l, PathsOf(day.wires), day.wires);
    forall i, j | 0 <= i < j < |ms|
      ensures PlannedId(ms[i], l.Existing()) != PlannedId(ms[j], l.Existing())
    {
      assert ms[i] in ms && ms[j] in ms;
      EachMatch(codec, db, day, l, ms[i]);
      EachMatch(codec, db, day, l, ms[j]);
      TwoIds(codec, db, day, ms[i], ms[j], l.Existing());
    }
  }

  /** A run over such files, once it has planned them. */
  ghost predicate ArrivalTurn(codec: Codec, log: seq<Body>, day: Day, t: Turn) {
    && Inv(codec, log, t.start) && SpoolOk(t.start) && CaptureDone(t.start) && ArrivalDay(codec, t.start, day)
    && AllPlanned(t.start, t.planned, day.wires, t.l, t.probe, t.plans) && Inv(codec, log, t.planned)
  }

  /** What planning has made of a row and its file. */
  ghost predicate MixedPlan(codec: Codec, day: Day, t: Turn, p: FilePlan) {
    && PlanOk(t.planned, p) && p.sourceId in t.planned.sources && t.start.capture.Some?
    && var r := t.planned.sources[p.sourceId];
       || (p.sourceId in t.start.sources && Kept(t.start.sources[p.sourceId], r)
           && (p.verifyDigest.Some? ==> p.verifyDigest == r.digest && p.verifySize == VerifySize(r))
           && if p.wire.Some? then
                p.wire.value in day.wires && Known(codec, t.start, p.sourceId, p.wire.value, day.live(p.wire.value))
              else
                !AtRest(t.start.capture.value, p.sourceId, t.start.sources[p.sourceId])
                && forall w <- day.wires :: !OwnRow(t.start, p.sourceId, w))
       || (p.wire.Some? && p.wire.value in day.wires && p.verifyDigest.None?
           && NewPlanned(codec, day, t, p.sourceId, p.wire.value))
  }

  /** The row that a newcomer gets. */
  ghost predicate NewPlanned(codec: Codec, day: Day, t: Turn, id: Text, w: Wire) {
    && Arriving(codec, t.start, w, day.live(w)) && id == BaseIdOf(w) && id in t.planned.sources
    && NewRow(Match(Some(w), None, false, ManifestBlob(t.start.capture.value, id), None, id), t.planned.sources[id])
  }

  lemma ProbedMixed(codec: Codec, log: seq<Body>, day: Day, t: Turn, i: nat)
    requires ArrivalTurn(codec, log, day, t)
    requires i < |Matches(t.start.capture.value, t.l, PathsOf(day.wires), day.wires)|
    ensures i < |t.plans| && MixedPlan(codec, day, t, t.plans[i])
  {
    hide Inv, SpoolOk, ArrivalDay, ListingOk, Matches, PathsOf, OnlyTakenFall, OnlyPlanned, DistinctIds, LeftoverOf,
         Handled, PlanOk, TakenIds, MustVerify, VerifySize, Honest, NewFile, BaseIdOf, IdentityCompatible, AtRest;
    var ms := Matches(t.start.capture.value, t.l, PathsOf(day.wires), day.wires);
    assert ms[i] in ms && t.probe.matches[i] == ms[i];
    EachMatch(codec, t.start, day, t.l, ms[i]);
    NewIsFresh(t.start, ms[i].wire.value);
    assert PlannedRow(t.start, ms[i], t.planned.sources[t.plans[i].sourceId], t.plans[i]);
    SameVerifySize(t.start, t.planned, t.plans[i].sourceId);
  }

  lemma NewIsFresh(db: Db, w: Wire)
    ensures NewFile(db, w) ==> BaseIdOf(w) !in db.sources
  {
  }

  lemma SameVerifySize(start: Db, planned: Db, id: Text)
    ensures id in start.sources && id in planned.sources && Kept(start.sources[id], planned.sources[id]) ==>
      VerifySize(planned.sources[id]) == VerifySize(start.sources[id])
  {
  }

  /** A file that is planned by its own probe has no other plan. */
  lemma HasProbedPlan(codec: Codec, log: seq<Body>, day: Day, t: Turn, w: Wire, id: Text)
    requires ArrivalTurn(codec, log, day, t) && w in day.wires
    requires OwnRow(t.start, id, w) || (NewFile(t.start, w) && id == BaseIdOf(w))
    ensures exists j: nat ::
      && j < |Matches(t.start.capture.value, t.l, PathsOf(day.wires), day.wires)| && j < |t.plans|
      && t.plans[j].sourceId == id && t.plans[j].wire == Some(w)
  {
    hide Inv, SpoolOk, ArrivalDay, ListingOk, Matches, PathsOf, OnlyTakenFall, OnlyPlanned, DistinctIds, LeftoverOf,
         Handled, PlanOk, TakenIds, OwnRow, PlannedRows, DistinctPlans, NewFile, BaseIdOf;
    var c := t.start.capture.value;
    if OwnRow(t.start, id, w) {
      OwnMatch(t.start, t.l, PathsOf(day.wires), id, w);
    } else {
      NewMatch(t.start, t.l, PathsOf(day.wires), w);
    }
    InMatches(c, t.l, PathsOf(day.wires), day.wires, w);
    var ms := Matches(c, t.l, PathsOf(day.wires), day.wires);
    var m := MatchOf(c, t.l, PathsOf(day.wires), w);
    hide MatchOf;
    var j :| 0 <= j < |ms| && ms[j] == m;
    assert t.probe.matches[j] == m;
  }

  lemma LeftoverMixed(codec: Codec, log: seq<Body>, day: Day, t: Turn, i: nat)
    requires ArrivalTurn(codec, log, day, t)
    requires |Matches(t.start.capture.value, t.l, PathsOf(day.wires), day.wires)| <= i < |t.plans|
    ensures MixedPlan(codec, day, t, t.plans[i])
  {
    hide Inv, SpoolOk, ListingOk, Matches, PathsOf, OnlyTakenFall, OnlyPlanned, DistinctIds, Handled, PlanOk,
         DistinctPlans, TakenIds, MustVerify, VerifySize, Known, OwnRow, Ignored, BlobsFit, DayOk, NewFile, Arriving,
         BaseIdOf, OwnInodes;
    var c := t.start.capture.value;
    assert LeftoverOf(t.start, t.probe.matches[i]);
    var key :| key in c.expected && key in c.manifest && LeftoverToPlan(t.start, key)
               && t.probe.matches[i] == Leftover(t.start, key);
    var id := c.expected[key].sourceId;
    ManifestKey(t.start, key);
    forall w <- day.wires
      ensures !OwnRow(t.start, id, w) && !(NewFile(t.start, w) && id == BaseIdOf(w))
    {
      if OwnRow(t.start, id, w) || (NewFile(t.start, w) && id == BaseIdOf(w)) {
        HasProbedPlan(codec, log, day, t, w, id);
        TwoPlans(t, id, i);
      }
    }
    assert FrozenKnown(t.start, day.wires, key);
    assert PlannedRow(t.start, t.probe.matches[i], t.planned.sources[t.plans[i].sourceId], t.plans[i]);
    SameVerifySize(t.start, t.planned, t.plans[i].sourceId);
  }

  lemma EachIsMixed(codec: Codec, log: seq<Body>, day: Day, t: Turn)
    requires ArrivalTurn(codec, log, day, t)
    ensures forall p <- t.plans :: MixedPlan(codec, day, t, p)
  {
    hide Inv, SpoolOk, ArrivalDay, AllPlanned, MixedPlan, Matches;
    forall p <- t.plans
      ensures MixedPlan(codec, day, t, p)
    {
      var i :| 0 <= i < |t.plans| && t.plans[i] == p;
      if i < |Matches(t.start.capture.value, t.l, PathsOf(day.wires), day.wires)| {
        ProbedMixed(codec, log, day, t, i);
      } else {
        LeftoverMixed(codec, log, day, t, i);
      }
    }
  }

  // ---- The rows it leaves --------------------------------------------------------------------------

  lemma ArrivalParts(codec: Codec, log: seq<Body>, day: Day, t: Turn)
    requires ArrivalTurn(codec, log, day, t)
    ensures Inv(codec, log, t.start) && Inv(codec, log, t.planned) && SpoolOk(t.start) && CaptureDone(t.start)
    ensures DayOk(day) && DistinctPaths(day.wires) && OwnInodes(t.start, day.wires) && BlobsFit(codec, t.start)
    ensures t.planned == t.start.(sources := t.planned.sources)
    ensures OnlyPlanned(t.start.sources, t.planned.sources, t.plans)
    ensures forall key <- t.start.capture.value.expected :: Handled(t.start, t.plans, key)
  {
    hide Inv, SpoolOk, ListingOk, Matches, PathsOf, OnlyTakenFall, OnlyPlanned, DistinctIds, LeftoverOf, Handled,
         Planned, PlannedRows, DayOk, DistinctPaths, OwnInodes, BlobsFit, Known, Ignored, Arriving, FrozenKnown,
         FrozenNew;
  }

  /** Every row is as it was, but for noting that its file is there, or is a newcomer's. */
  lemma RowAfter(codec: Codec, log: seq<Body>, day: Day, t: Turn, id: Text)
    requires ArrivalTurn(codec, log, day, t) && id in t.planned.sources
    ensures
      || (id in t.start.sources && Kept(t.start.sources[id], t.planned.sources[id]))
      || exists w <- day.wires :: NewPlanned(codec, day, t, id, w)
  {
    hide ArrivalTurn, NewPlanned, PlanOk, Known, OwnRow, AtRest, VerifySize;
    ArrivalParts(codec, log, day, t);
    EachIsMixed(codec, log, day, t);
    if !(id in t.start.sources && t.planned.sources[id] == t.start.sources[id]) {
      var p :| p in t.plans && p.sourceId == id;
      assert MixedPlan(codec, day, t, p);
    }
  }

  /** The plan of an old row is that of the file it is known for, or of a frozen one that was not probed. */
  lemma PlanOfOld(codec: Codec, log: seq<Body>, day: Day, t: Turn, p: FilePlan)
    requires ArrivalTurn(codec, log, day, t) && p in t.plans && p.sourceId in t.start.sources
    ensures t.start.capture.Some? && p.sourceId in t.planned.sources
    ensures var r := t.planned.sources[p.sourceId];
      && Kept(t.start.sources[p.sourceId], r)
      && (p.verifyDigest.Some? ==> p.verifyDigest == r.digest && p.verifySize == VerifySize(r))
    ensures if p.wire.Some? then
              && p.wire.value in day.wires && OwnRow(t.start, p.sourceId, p.wire.value)
              && Known(codec, t.start, p.sourceId, p.wire.value, day.live(p.wire.value))
            else
              && !AtRest(t.start.capture.value, p.sourceId, t.start.sources[p.sourceId])
              && forall w <- day.wires :: !OwnRow(t.start, p.sourceId, w)
  {
    hide ArrivalTurn, OwnRow, AtRest, PlanOk, Honest, VerifySize, Kept, NewRow, NewFile, BaseIdOf;
    EachIsMixed(codec, log, day, t);
    assert MixedPlan(codec, day, t, p);
    if p.wire.Some? {
      NewIsFresh(t.start, p.wire.value);
    }
  }

  /** A row at rest that is not a probed file's own is not touched. */
  lemma RestIsKept(codec: Codec, log: seq<Body>, day: Day, t: Turn, id: Text, w: Wire, k: Text)
    requires ArrivalTurn(codec, log, day, t) && OwnRow(t.start, id, w) && k in t.start.sources && k != id
    requires t.start.sources[k].identity.path == w.path && AtRest(t.start.capture.value, k, t.start.sources[k])
    ensures k in t.planned.sources && t.planned.sources[k] == t.start.sources[k]
  {
    hide ArrivalTurn, OwnRow, AtRest, VerifySize, Kept, Known, Inv, SpoolOk, DayOk, BlobsFit, OwnInodes, Handled;
    ArrivalParts(codec, log, day, t);
    if t.planned.sources[k] != t.start.sources[k] {
      var p :| p in t.plans && p.sourceId == k;
      PlanOfOld(codec, log, day, t, p);
      OwnIdentity(t.start, k, p.wire.value);
      OneOwner(t.start, id, k, w, p.wire.value);
    }
  }

  /** A known file keeps its row. */
  lemma OwnKept(codec: Codec, log: seq<Body>, day: Day, t: Turn, id: Text, w: Wire)
    requires ArrivalTurn(codec, log, day, t) && w in day.wires && OwnRow(t.start, id, w)
    ensures OwnRow(t.planned, id, w) && Kept(t.start.sources[id], t.planned.sources[id])
  {
    hide ArrivalTurn, IdentityCompatible, AtRest, NewFile, Inv, SpoolOk, DayOk, BlobsFit, OwnInodes, Handled,
         OnlyPlanned, DistinctPaths;
    ArrivalParts(codec, log, day, t);
    RowOfOwner(codec, log, day, t, id, w);
    NotNew(t.start, id, w);
    SameCompatible(t.start.sources[id], t.planned.sources[id], w);
    forall k <- t.planned.sources | k != id && t.planned.sources[k].identity.path == w.path
      ensures Beaten(t.start.capture.value, k, t.planned.sources[k], t.planned.sources[id])
    {
      RivalRow(codec, log, day, t, w, k);
      assert Beaten(t.start.capture.value, k, t.start.sources[k], t.start.sources[id]);
      if AtRest(t.start.capture.value, k, t.start.sources[k]) {
        RestIsKept(codec, log, day, t, id, w, k);
      }
    }
  }

  lemma NotNew(db: Db, id: Text, w: Wire)
    ensures OwnRow(db, id, w) ==> !NewFile(db, w)
  {
    hide IdentityCompatible, BaseIdOf, InodesOf, CurrentLogName;
  }

  lemma RowOfOwner(codec: Codec, log: seq<Body>, day: Day, t: Turn, id: Text, w: Wire)
    requires ArrivalTurn(codec, log, day, t) && w in day.wires && OwnRow(t.start, id, w)
    ensures id in t.planned.sources && Kept(t.start.sources[id], t.planned.sources[id])
  {
    hide ArrivalTurn, Kept, NewRow, NewFile, BaseIdOf, OwnRow;
    ArrivalParts(codec, log, day, t);
    OwnIdentity(t.start, id, w);
    RowAfter(codec, log, day, t, id);
    if v :| v in day.wires && NewPlanned(codec, day, t, id, v) {
      NewIsFresh(t.start, v);
    }
  }

  /** A row with a known file's path was there before. */
  lemma RivalRow(codec: Codec, log: seq<Body>, day: Day, t: Turn, w: Wire, k: Text)
    requires ArrivalTurn(codec, log, day, t) && w in day.wires && !NewFile(t.start, w)
    requires k in t.planned.sources && t.planned.sources[k].identity.path == w.path
    ensures k in t.start.sources && Kept(t.start.sources[k], t.planned.sources[k])
  {
    hide ArrivalTurn, Kept, NewFile, BaseIdOf;
    ArrivalParts(codec, log, day, t);
    RowAfter(codec, log, day, t, k);
    if v :| v in day.wires && NewPlanned(codec, day, t, k, v) {
      OnePath(day.wires, v, w);
    }
  }

  /** A known file is known still. */
  lemma KnownKept(codec: Codec, log: seq<Body>, day: Day, t: Turn, id: Text, w: Wire)
    requires ArrivalTurn(codec, log, day, t) && w in day.wires && Known(codec, t.start, id, w, day.live(w))
    ensures Known(codec, t.planned, id, w, day.live(w)) && Kept(t.start.sources[id], t.planned.sources[id])
  {
    hide ArrivalTurn, OwnRow, Honest;
    OwnOfKnown(codec, t.start, id, w, day.live(w));
    OwnIdentity(t.start, id, w);
    OwnKept(codec, log, day, t, id, w);
    OwnIdentity(t.planned, id, w);
    ArrivalParts(codec, log, day, t);
    KeptIsHonest(codec, id, t.start.sources[id], t.planned.sources[id], BlobContent(t.start, t.start.sources[id]),
                 day.live(w));
  }

  /** A newcomer has its plan and its row. */
  lemma NewPlan(codec: Codec, log: seq<Body>, day: Day, t: Turn, w: Wire) returns (p: FilePlan)
    requires ArrivalTurn(codec, log, day, t) && w in day.wires && Arriving(codec, t.start, w, day.live(w))
    ensures p in t.plans && p.sourceId == BaseIdOf(w) && p.wire == Some(w) && p.verifyDigest.None?
    ensures PlanOk(t.planned, p) && NewPlanned(codec, day, t, BaseIdOf(w), w)
  {
    hide ArrivalTurn, NewFile, BaseIdOf, Matches, PlanOk, Known, Kept, NewRow, AtRest, OwnRow;
    assert NewFile(t.start, w);
    NewIsFresh(t.start, w);
    HasProbedPlan(codec, log, day, t, w, BaseIdOf(w));
    var j: nat :| j < |t.plans| && t.plans[j].sourceId == BaseIdOf(w) && t.plans[j].wire == Some(w);
    p := t.plans[j];
    EachIsMixed(codec, log, day, t);
    assert MixedPlan(codec, day, t, p);
  }

  /** It is known from then on. */
  lemma NewKnown(codec: Codec, log: seq<Body>, day: Day, t: Turn, w: Wire)
    requires ArrivalTurn(codec, log, day, t) && w in day.wires && Arriving(codec, t.start, w, day.live(w))
    ensures Known(codec, t.planned, BaseIdOf(w), w, day.live(w))
  {
    hide ArrivalTurn, PlanOk, BaseIdOf, IdentityCompatible, Json.PowerOfTen, InSync, CurrentLogName;
    ArrivalParts(codec, log, day, t);
    var p := NewPlan(codec, log, day, t, w);
    var id := BaseIdOf(w);
    var r := t.planned.sources[id];
    NewBlob(codec, log, day, t, w);
    FreshIsHonest(codec, id, r, BlobContent(t.planned, r), day.live(w));
    forall k <- t.planned.sources | k != id
      ensures t.planned.sources[k].identity.path != w.path
    {
      OtherRow(codec, log, day, t, w, k);
    }
  }

  lemma OtherRow(codec: Codec, log: seq<Body>, day: Day, t: Turn, w: Wire, k: Text)
    requires ArrivalTurn(codec, log, day, t) && w in day.wires && NewFile(t.start, w)
    requires k in t.planned.sources && k != BaseIdOf(w)
    ensures t.planned.sources[k].identity.path != w.path
  {
    hide ArrivalTurn, IdentityCompatible, BaseIdOf, CurrentLogName, InodesOf;
    ArrivalParts(codec, log, day, t);
    RowAfter(codec, log, day, t, k);
    if v :| v in day.wires && NewPlanned(codec, day, t, k, v) {
      if v.path == w.path {
        OnePath(day.wires, v, w);
      }
    }
  }

  /** What was frozen of it is the file. */
  lemma NewBlob(codec: Codec, log: seq<Body>, day: Day, t: Turn, w: Wire)
    requires ArrivalTurn(codec, log, day, t) && w in day.wires && NewPlanned(codec, day, t, BaseIdOf(w), w)
    ensures var blob := BlobContent(t.planned, t.planned.sources[BaseIdOf(w)]);
      blob.Some? ==> blob.value == day.live(w)
  {
    hide ArrivalTurn, BaseIdOf, NewFile, Json.PowerOfTen;
    ArrivalParts(codec, log, day, t);
  }

  lemma ArrivalBlobsFit(codec: Codec, log: seq<Body>, day: Day, t: Turn)
    requires ArrivalTurn(codec, log, day, t)
    ensures BlobsFit(codec, t.planned)
  {
    hide ArrivalTurn, NewFile, BaseIdOf, Json.PowerOfTen, SpoolOk, Inv, DayOk;
    ArrivalParts(codec, log, day, t);
    forall id <- t.planned.sources | BlobContent(t.planned, t.planned.sources[id]).Some?
      ensures CanBeRead(codec, id, t.planned.sources[id], BlobContent(t.planned, t.planned.sources[id]).value)
    {
      RowAfter(codec, log, day, t, id);
      if w :| w in day.wires && NewPlanned(codec, day, t, id, w) {
        NewBlob(codec, log, day, t, w);
      }
    }
  }

  /** Every frozen file is known from then on, and has its plan or is complete. */
  lemma ArrivalFrozen(codec: Codec, log: seq<Body>, day: Day, t: Turn, key: BlobKey)
    requires ArrivalTurn(codec, log, day, t) && t.start.capture.Some? && key in t.start.capture.value.expected
    ensures FrozenKnown(t.planned, day.wires, key)
    ensures t.planned.capture == t.start.capture && Handled(t.planned, t.plans, key)
  {
    hide ArrivalTurn, NewFile, BaseIdOf, OwnRow, PlanOk, NewRow, Inv, SpoolOk, DayOk, BlobsFit, OwnInodes;
    ArrivalParts(codec, log, day, t);
    FrozenFound(codec, log, day, t, key);
    var id := t.start.capture.value.expected[key].sourceId;
    if w :| w in day.wires && NewFile(t.start, w) && id == BaseIdOf(w) {
      NewIsArriving(codec, log, day, t, w);
      NewKnown(codec, log, day, t, w);
      OwnOfKnown(codec, t.planned, id, w, day.live(w));
      var p := NewPlan(codec, log, day, t, w);
    } else {
      assert FrozenKnown(t.start, day.wires, key);
      assert Handled(t.start, t.plans, key);
      RowAfter(codec, log, day, t, id);
      if v :| v in day.wires && NewPlanned(codec, day, t, id, v) {
        NewIsFresh(t.start, v);
      }
      if w :| w in day.wires && OwnRow(t.start, id, w) {
        OwnKept(codec, log, day, t, id, w);
      }
    }
  }

  /** The name of a newcomer's blob is that of its id. */
  lemma FrozenFound(codec: Codec, log: seq<Body>, day: Day, t: Turn, key: BlobKey)
    requires ArrivalTurn(codec, log, day, t) && t.start.capture.Some? && key in t.start.capture.value.expected
    ensures key in t.start.capture.value.manifest
    ensures var id := t.start.capture.value.expected[key].sourceId;
      || FrozenKnown(t.start, day.wires, key)
      || exists w <- day.wires :: NewFile(t.start, w) && id == BaseIdOf(w)
  {
    hide Inv, AllPlanned, NewFile, BaseIdOf, OwnRow, Known, Ignored, Arriving, DayOk, BlobsFit, OwnInodes, SpoolOk;
    ManifestKey(t.start, key);
    KeyIsNamed(t.start, key);
    assert FrozenKnown(t.start, day.wires, key) || FrozenNew(t.start, day.wires, key);
  }

  lemma KeyIsNamed(db: Db, key: BlobKey)
    requires SpoolOk(db) && CaptureDone(db) && key in db.capture.value.expected
    ensures key in db.capture.value.manifest
    ensures key == BlobKey(db.capture.value.captureId, db.capture.value.expected[key].sourceId)
  {
    hide BaseIdOf, WireOk;
  }

  /** A newcomer is neither left alone nor known. */
  lemma NewIsArriving(codec: Codec, log: seq<Body>, day: Day, t: Turn, w: Wire)
    requires ArrivalTurn(codec, log, day, t) && w in day.wires && NewFile(t.start, w)
    ensures Arriving(codec, t.start, w, day.live(w))
  {
    hide Inv, AllPlanned, BaseIdOf, FrozenKnown, FrozenNew, BlobsFit, OwnInodes, DayOk, IdentityCompatible, Honest,
         SameGeneration, CurrentLogName, InodesOf, SpoolOk;
  }

  /** A file that was left to the live reader is so still: no newcomer has its inode. */
  lemma IgnoredKept(codec: Codec, log: seq<Body>, day: Day, t: Turn, w: Wire)
    requires ArrivalTurn(codec, log, day, t) && w in day.wires && Ignored(t.start, PathsOf(day.wires), w)
    ensures Ignored(t.planned, PathsOf(day.wires), w)
  {
    hide ArrivalTurn, CurrentLogName, BaseIdOf, Kept, PathsOf, Json.PowerOfTen;
    ArrivalParts(codec, log, day, t);
    forall k <- t.planned.sources
      ensures !SameGeneration(t.planned.sources[k], w, PathsOf(day.wires))
    {
      RowAfter(codec, log, day, t, k);
      if k in t.start.sources && Kept(t.start.sources[k], t.planned.sources[k]) {
        KeptGeneration(t.start.sources[k], t.planned.sources[k], w);
      } else {
        var v :| v in day.wires && NewPlanned(codec, day, t, k, v);
        NewIsElse(codec, t.start, day, v, w);
        OtherInode(t.planned.sources[k], v, w, PathsOf(day.wires));
      }
    }
  }

  lemma KeptGeneration(r: SourceRecord, next: SourceRecord, w: Wire)
    requires Kept(r, next)
    ensures forall paths :: SameGeneration(r, w, paths) <==> SameGeneration(next, w, paths)
  {
    SameCompatible(r, next, w);
  }

  lemma OtherInode(r: SourceRecord, v: Wire, w: Wire, paths: map<Text, Inode>)
    requires r.identity == v && !SameInode(v, w)
    ensures !SameGeneration(r, w, paths)
  {
  }

  lemma NewIsElse(codec: Codec, db: Db, day: Day, v: Wire, w: Wire)
    requires OwnInodes(db, day.wires) && v in day.wires && w in day.wires && NewFile(db, v)
    requires Ignored(db, PathsOf(day.wires), w)
    ensures !SameInode(v, w)
  {
    hide SameGeneration, CurrentLogName, PathsOf, IdentityCompatible, InodesOf, BaseIdOf;
  }

  /** The plan of a kept or new row is that of a known one. */
  lemma MixedIsKnownPlan(codec: Codec, log: seq<Body>, day: Day, t: Turn, p: FilePlan)
    requires ArrivalTurn(codec, log, day, t) && p in t.plans
    ensures KnownPlan(codec, day, t.(start := t.planned), p)
  {
    hide ArrivalTurn, PlanOk, Known, VerifySize, OwnRow, IsPrefixComplete, Arriving, Inv, SpoolOk, DayOk, BlobsFit,
         OwnInodes, Handled, OnlyPlanned, BaseIdOf;
    ArrivalParts(codec, log, day, t);
    if p.sourceId !in t.start.sources {
      PlanOfNew(codec, log, day, t, p);
      NewKnown(codec, log, day, t, p.wire.value);
      return;
    }
    PlanOfOld(codec, log, day, t, p);
    EachIsOk(codec, log, day, t, p);
    if p.wire.Some? {
      KnownKept(codec, log, day, t, p.sourceId, p.wire.value);
    } else {
      KeptComplete(t.start.sources[p.sourceId], t.planned.sources[p.sourceId]);
      forall w <- day.wires
        ensures !OwnRow(t.planned, p.sourceId, w)
      {
        if OwnRow(t.planned, p.sourceId, w) {
          OwnerBefore(codec, log, day, t, p.sourceId, w);
        }
      }
    }
  }

  lemma EachIsOk(codec: Codec, log: seq<Body>, day: Day, t: Turn, p: FilePlan)
    requires ArrivalTurn(codec, log, day, t) && p in t.plans
    ensures PlanOk(t.planned, p)
  {
    hide ArrivalTurn, PlanOk, Known, Kept, VerifySize, AtRest, OwnRow, NewPlanned;
    EachIsMixed(codec, log, day, t);
    assert MixedPlan(codec, day, t, p);
  }

  lemma PlanOfNew(codec: Codec, log: seq<Body>, day: Day, t: Turn, p: FilePlan)
    requires ArrivalTurn(codec, log, day, t) && p in t.plans && p.sourceId !in t.start.sources
    ensures PlanOk(t.planned, p) && p.sourceId in t.planned.sources
    ensures p.wire.Some? && p.wire.value in day.wires && p.sourceId == BaseIdOf(p.wire.value) && p.verifyDigest.None?
    ensures Arriving(codec, t.start, p.wire.value, day.live(p.wire.value))
  {
    hide ArrivalTurn, PlanOk, Known, Kept, VerifySize, AtRest, OwnRow, BaseIdOf, NewRow, Arriving;
    EachIsMixed(codec, log, day, t);
    assert MixedPlan(codec, day, t, p);
  }

  lemma KeptComplete(r: SourceRecord, next: SourceRecord)
    requires Kept(r, next)
    ensures IsPrefixComplete(next) <==> IsPrefixComplete(r)
  {
  }

  /** Whoever owns an old row afterwards owned it before. */
  lemma OwnerBefore(codec: Codec, log: seq<Body>, day: Day, t: Turn, id: Text, w: Wire)
    requires ArrivalTurn(codec, log, day, t) && w in day.wires && id in t.start.sources && OwnRow(t.planned, id, w)
    ensures OwnRow(t.start, id, w)
  {
    hide ArrivalTurn, OwnRow, Known, BaseIdOf, NewFile, PathsOf;
    ArrivalParts(codec, log, day, t);
    OwnIsNotIgnored(t.planned, id, w, PathsOf(day.wires));
    if Ignored(t.start, PathsOf(day.wires), w) {
      IgnoredKept(codec, log, day, t, w);
    }
    var k := OwnerOf(codec, log, day, t, w);
    OneOwner(t.planned, id, k, w, w);
  }

  lemma OwnIsNotIgnored(db: Db, id: Text, w: Wire, paths: map<Text, Inode>)
    requires OwnRow(db, id, w)
    ensures !Ignored(db, paths, w)
  {
    hide IdentityCompatible, CurrentLogName;
    assert SameGeneration(db.sources[id], w, paths);
  }

  /** The row of a probed file that is not left alone. */
  lemma OwnerOf(codec: Codec, log: seq<Body>, day: Day, t: Turn, w: Wire) returns (id: Text)
    requires ArrivalTurn(codec, log, day, t) && w in day.wires && !Ignored(t.start, PathsOf(day.wires), w)
    ensures Known(codec, t.planned, id, w, day.live(w)) && OwnRow(t.planned, id, w)
    ensures HasPlan(t, id, w)
    ensures id in t.start.sources ==> OwnRow(t.start, id, w)
  {
    hide Inv, AllPlanned, Known, OwnRow, Ignored, BaseIdOf, NewFile, FrozenKnown, FrozenNew, BlobsFit, OwnInodes, DayOk,
         SpoolOk, PathsOf, PlanOk, NewRow, Matches;
    if Arriving(codec, t.start, w, day.live(w)) {
      id := BaseIdOf(w);
      NewIsFresh(t.start, w);
      NewKnown(codec, log, day, t, w);
      var p := NewPlan(codec, log, day, t, w);
    } else {
      id :| Known(codec, t.start, id, w, day.live(w));
      OwnOfKnown(codec, t.start, id, w, day.live(w));
      KnownKept(codec, log, day, t, id, w);
      HasProbedPlan(codec, log, day, t, w, id);
    }
    OwnOfKnown(codec, t.planned, id, w, day.live(w));
  }

  /** The run goes on from the rows it has planned like any other run over known files from its own. */
  lemma ArrivalIsBegun(codec: Codec, log: seq<Body>, day: Day, t: Turn)
    requires ArrivalTurn(codec, log, day, t)
    ensures Begun(codec, log, day, t.(start := t.planned))
  {
    hide ArrivalTurn, BaseIdOf, DistinctPaths, Inv, SpoolOk, DayOk, Known, Ignored, FrozenKnown, BlobsFit, Handled,
         OwnRow, KnownPlan, PathsOf, OwnInodes, OnlyPlanned;
    var u := t.(start := t.planned);
    ArrivalParts(codec, log, day, t);
    SpoolStays(t.start, t.planned);
    ArrivalBlobsFit(codec, log, day, t);
    forall w <- day.wires
      ensures Ignored(t.planned, PathsOf(day.wires), w)
           || exists id: Text :: Known(codec, t.planned, id, w, day.live(w))
    {
      if Ignored(t.start, PathsOf(day.wires), w) {
        IgnoredKept(codec, log, day, t, w);
      } else {
        var id := OwnerOf(codec, log, day, t, w);
      }
    }
    forall key <- t.start.capture.value.expected
      ensures FrozenKnown(t.planned, day.wires, key) && Handled(t.planned, t.plans, key)
    {
      ArrivalFrozen(codec, log, day, t, key);
    }
    forall p <- t.plans
      ensures KnownPlan(codec, day, u, p)
    {
      MixedIsKnownPlan(codec, log, day, t, p);
    }
    forall id: Text, w: Wire | w in day.wires && OwnRow(t.planned, id, w)
      ensures HasPlan(u, id, w)
    {
      OwnIsNotIgnored(t.planned, id, w, PathsOf(day.wires));
      if Ignored(t.start, PathsOf(day.wires), w) {
        IgnoredKept(codec, log, day, t, w);
      }
      var k := OwnerOf(codec, log, day, t, w);
      OneOwner(t.planned, id, k, w, w);
    }
  }

  // ---- The runs ------------------------------------------------------------------------------------

  /** What the first run with newcomers starts from. */
  ghost predicate Open(codec: Codec, log: seq<Body>, born: map<Text, nat>, db: Db, day: Day) {
    && Inv(codec, log, db) && SpoolOk(db) && TidyLog(born, log, db.sources, db.pending)
    && db.pending.None? && CaptureDone(db) && ArrivalDay(codec, db, day)
  }

  /** The first run with newcomers: it settles every plan, and in any case leaves all files known. */
  method ArrivalRun(store: CheckpointStore, loki: LogStore, codec: Codec, labelsFor: (Profile, LogKind) -> Bytes,
                    budget: nat, day: Day)
    returns (settled: bool, timestamp: nat, ghost t: Turn)
    requires Open(codec, loki.log, loki.born, store.State(), day) && Usable(budget, labelsFor)
    modifies store`sources, store`pending, store`blobs, store`capture, loki
    ensures Ready(codec, loki.log, loki.born, store.State(), day)
    ensures t.now == store.State() && ArrivalTurn(codec, old(loki.log), day, t.(start := old(store.State())))
    ensures t.start == t.planned && Begun(codec, old(loki.log), day, t) && Ended(codec, day, t) && Carried(t)
    ensures settled ==> SettledTurn(codec, old(loki.log), loki.log, day, t)
  {
    hide Inv, SpoolOk, TidyLog, FrozenDay, Smooth, AllPlanned, AllSettled, CoveredRows, Progressed, PlanGood, ListingOk,
         DistinctIds, Matches, PathsOf, Json.PowerOfTen, SameContents, Carried, DayOk, Begun, DistinctPaths, RunPlanned,
         OwnInodes, Ignored, Known, Arriving, FrozenKnown, FrozenNew, BlobsFit;
    var state := new ImportState(store, loki, codec, budget, labelsFor, true);
    var alive, smooth, clash;
    ghost var start, planned, probe, l, plans, done;
    alive, smooth, clash, start, planned, probe, l, plans, done := ImportGuestLogs(state, day);
    ArrivalNoClash(codec, start, day, l);
    ghost var t0 := Turn(start, planned, store.State(), l, probe, plans);
    ArrivalIsBegun(codec, old(loki.log), day, t0);
    t := t0.(start := planned);
    EveryPlanIsGood(codec, old(loki.log), day, t);
    ArrivalParts(codec, old(loki.log), day, t0);
    DayGoesOn(codec, old(loki.log), day, t);
    SmoothLeavesNothing(codec, planned, store.State(), day, plans);
    settled, timestamp := !state.stopped, state.timestamp;
  }

  /** Every newcomer is in the log, all of it, and acknowledged under the id of its path. */
  ghost predicate NewArchived(codec: Codec, log: seq<Body>, first: Db, now: Db, day: Day) {
    forall w <- day.wires :: NewFile(first, w) ==>
      && BaseIdOf(w) in now.sources && now.sources[BaseIdOf(w)].acknowledged
      && Archived(codec, log, w.compression, day.live(w))
  }

  lemma NewIsArchived(codec: Codec, log0: seq<Body>, log: seq<Body>, born: map<Text, nat>, day: Day, t: Turn, now: Db,
                      w: Wire)
    requires ArrivalTurn(codec, log0, day, t) && Since(t.planned, now, day.wires) && Ready(codec, log, born, now, day)
    requires Drained(codec, log, t.planned, now, day) && w in day.wires && NewFile(t.start, w)
    ensures BaseIdOf(w) in now.sources && now.sources[BaseIdOf(w)].acknowledged
    ensures Archived(codec, log, w.compression, day.live(w))
  {
    hide ArrivalTurn, Ready, OwnRow, Known, Awaiting, Archived, BaseIdOf, BlobContent, FrozenInLog, SameContents, DayOk,
         NewFile;
    var id := BaseIdOf(w);
    NewIsArriving(codec, log0, day, t, w);
    NewKnown(codec, log0, day, t, w);
    OwnOfKnown(codec, t.planned, id, w, day.live(w));
    assert OwnRow(t.planned, id, w) && OwnRow(now, id, w);
    OwnIdentity(now, id, w);
    NewIsNotAwaiting(codec, log0, day, t, w);
    SameBlobSince(codec, log0, log, born, day, t, now, w);
  }

  /** Something remains to be read of each new row. */
  lemma NewIsNotAwaiting(codec: Codec, log: seq<Body>, day: Day, t: Turn, w: Wire)
    requires ArrivalTurn(codec, log, day, t) && w in day.wires && Arriving(codec, t.start, w, day.live(w))
    ensures !Awaiting(t.planned, BaseIdOf(w), w)
  {
    hide ArrivalTurn, PlanOk, BaseIdOf, IdentityCompatible, Arriving;
    var p := NewPlan(codec, log, day, t, w);
  }

  /** What was frozen of it stays the file. */
  lemma SameBlobSince(codec: Codec, log0: seq<Body>, log: seq<Body>, born: map<Text, nat>, day: Day, t: Turn, now: Db,
                      w: Wire)
    requires ArrivalTurn(codec, log0, day, t) && Since(t.planned, now, day.wires) && Ready(codec, log, born, now, day)
    requires w in day.wires && Arriving(codec, t.start, w, day.live(w)) && BaseIdOf(w) in now.sources
    ensures var blob := BlobContent(now, now.sources[BaseIdOf(w)]);
      blob.Some? ==> blob.value == day.live(w)
  {
    hide ArrivalTurn, PlanOk, BaseIdOf, OwnRow, Awaiting, RowsOk, PendingOk, SpoolOk, TidyLog, FrozenDay, Arriving,
         NewRow, WireOk, DayOk, BlobsFit, OwnInodes, Handled, OnlyPlanned;
    ArrivalParts(codec, log0, day, t);
    var p := NewPlan(codec, log0, day, t, w);
    NewBlob(codec, log0, day, t, w);
    assert TiedRow(t.planned.capture, BaseIdOf(w), t.planned.sources[BaseIdOf(w)]);
    assert TiedRow(now.capture, BaseIdOf(w), now.sources[BaseIdOf(w)]);
  }

  /** What is done since the files were planned is done since they turned up. */
  lemma DoneSinceArrival(codec: Codec, log0: seq<Body>, log: seq<Body>, born: map<Text, nat>, day: Day, t: Turn,
                         now: Db)
    requires ArrivalTurn(codec, log0, day, t) && Since(t.planned, now, day.wires) && Ready(codec, log, born, now, day)
    requires Drained(codec, log, t.planned, now, day)
    ensures NewArchived(codec, log, t.start, now, day) && Drained(codec, log, t.start, now, day)
  {
    hide ArrivalTurn, Ready, OwnRow, Awaiting, Archived, BlobContent, FrozenInLog, NewFile, BaseIdOf, Since, Kept, Inv,
         SpoolOk, DayOk, BlobsFit, OwnInodes, Handled, OnlyPlanned;
    ArrivalParts(codec, log0, day, t);
    forall w <- day.wires | NewFile(t.start, w)
      ensures BaseIdOf(w) in now.sources && now.sources[BaseIdOf(w)].acknowledged
      ensures Archived(codec, log, w.compression, day.live(w))
    {
      NewIsArchived(codec, log0, log, born, day, t, now, w);
    }
    forall id: Text, w: Wire | w in day.wires && OwnRow(t.start, id, w)
      ensures InLog(codec, log, now, id, day.live(w)) && (now.sources[id].acknowledged || Awaiting(t.start, id, w))
    {
      OwnKept(codec, log0, day, t, id, w);
      OwnIdentity(t.start, id, w);
      OwnIdentity(t.planned, id, w);
      KeptAwaiting(t.start, t.planned, id, w);
    }
  }

  lemma KeptAwaiting(start: Db, planned: Db, id: Text, w: Wire)
    requires id in start.sources && id in planned.sources && Kept(start.sources[id], planned.sources[id])
    requires planned.blobs == start.blobs
    ensures Awaiting(planned, id, w) ==> Awaiting(start, id, w)
  {
    hide IdentityCompatible;
    SameCompatible(start.sources[id], planned.sources[id], w);
  }

  /**
   While the files stay as they are: finitely many calm runs bring every byte of every file that turned up, and all that
   was known before, into the log, and acknowledge it.
   */
  method ArchiveArrivals(store: CheckpointStore, loki: LogStore, codec: Codec, labelsFor: (Profile, LogKind) -> Bytes,
                         budget: nat, day: Day)
    returns (done: bool, timestamp: nat)
    requires Open(codec, loki.log, loki.born, store.State(), day) && Usable(budget, labelsFor)
    modifies store`sources, store`pending, store`blobs, store`capture, loki
    ensures Ready(codec, loki.log, loki.born, store.State(), day)
    ensures done || timestamp >= Json.PowerOfTen(20)
    ensures done ==>
      && NewArchived(codec, loki.log, old(store.State()), store.State(), day)
      && Drained(codec, loki.log, old(store.State()), store.State(), day)
  {
    hide Inv, Open, Ready, Usable, Begun, Ended, Carried, SettledTurn, Since, Drained, NewArchived, ArrivalTurn,
         Json.PowerOfTen, Undelivered;
    ghost var log := loki.log;
    ghost var first := store.State();
    var settled;
    ghost var t;
    settled, timestamp, t := ArrivalRun(store, loki, codec, labelsFor, budget, day);
    ghost var t0 := t.(start := first);
    ReadyParts(codec, loki.log, loki.born, store.State(), day);
    SinceStart(t.planned, day.wires);
    SinceStep(codec, log, day, t, t.planned);
    if settled {
      SettledIsDone(codec, log, loki.log, day, t, t.planned);
      DoneSinceArrival(codec, log, loki.log, loki.born, day, t0, store.State());
      return true, timestamp;
    }
    ghost var after := store.State();
    ghost var ids := Listed(store.sources.Keys);
    var runs;
    done, timestamp, runs := Drain(store, loki, codec, labelsFor, budget, day, ids);
    SinceSteps(t.planned, after, store.State(), day.wires);
    if done {
      DoneSince(codec, loki.log, t.planned, after, store.State(), day);
      DoneSinceArrival(codec, log, loki.log, loki.born, day, t0, store.State());
    }
  }

  lemma {:induction false} Listed(ids: set<Text>) returns (list: seq<Text>)
    ensures forall id <- ids :: id in list
  {
    list := [];
    if ids != {} {
      var id :| id in ids;
      var rest := Listed(ids - {id});
      list := [id] + rest;
    }
  }

  lemma SinceSteps(a: Db, b: Db, c: Db, wires: seq<Wire>)
    requires Since(a, b, wires) && Since(b, c, wires)
    ensures Since(a, c, wires)
  {
    hide OwnRow, Awaiting, SameContents;
    SameContentsSteps(a.blobs, b.blobs, c.blobs);
  }

  lemma DoneSince(codec: Codec, log: seq<Body>, first: Db, after: Db, now: Db, day: Day)
    requires Since(first, after, day.wires) && Drained(codec, log, after, now, day)
    ensures Drained(codec, log, first, now, day)
  {
    hide OwnRow, Awaiting, SameContents, Archived, BlobContent, FrozenInLog;
    forall id: Text, w: Wire | w in day.wires && OwnRow(first, id, w)
      ensures InLog(codec, log, now, id, day.live(w)) && id in now.sources
      ensures now.sources[id].acknowledged || Awaiting(first, id, w)
    {
      assert OwnRow(after, id, w);
    }
  }
}
