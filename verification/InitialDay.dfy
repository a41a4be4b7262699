/**
 From the initial capture on: all files are newcomers, frozen as they are, so finitely many runs archive all of them.
 */
module InitialDay {
  import opened Utf8
  import opened LogEntry
  import opened Sources
  import opened Tables
  import opened Delivery
  import opened Coverage
  import opened Probing
  import opened Checkpoint
  import opened Import
  import opened Tidy
  import opened CaptureRun
  import opened Run
  import opened KnownFiles
  import opened Completion
  import opened Arrivals
  import Json

  predicate DistinctInodes(wires: seq<Wire>) {
    forall i, j :: 0 <= i < j < |wires| ==> !SameInode(wires[i], wires[j])
  }

  /** The file was frozen as it is, can be read to its end, and has a short name. */
  ghost predicate JustFrozen(codec: Codec, db: Db, w: Wire, live: Bytes)
    requires db.capture.Some?
  {
    && KeyFor(db.capture.value, w) in db.blobs && db.blobs[KeyFor(db.capture.value, w)].sha256 == Some(Sha256(live))
    && |w.path| + |BaseIdOf(w)| <= 1600
    && codec.wellFormed(w.compression, live)
    && |codec.decoded(w.compression, live)| + 1 < Json.PowerOfTen(20)
  }

  /** The initial capture froze exactly these files, which have not changed since, and no row exists yet. */
  ghost predicate FirstDay(codec: Codec, db: Db, day: Day) {
    && DayOk(day) && DistinctPaths(day.wires) && DistinctInodes(day.wires)
    && CaptureDone(db) && db.sources == map[]
    && db.capture.value.manifest == ManifestOf(db.capture.value.captureId, day.wires)
    && forall w <- day.wires :: JustFrozen(codec, db, w, day.live(w))
  }

  /** Exactly these files are in the manifest, each under its own key. */
  lemma {:induction false} ManifestIsWires(captureId: Text, wires: seq<Wire>)
    requires DistinctPaths(wires)
    ensures var manifest := ManifestOf(captureId, wires);
      && (forall key <- manifest :: manifest[key] in wires && key == BlobKey(captureId, BaseIdOf(manifest[key])))
      && forall w <- wires ::
           BlobKey(captureId, BaseIdOf(w)) in manifest && manifest[BlobKey(captureId, BaseIdOf(w))] == w
  {
    hide BaseIdOf;
    if wires != [] {
      var n := |wires| - 1;
      ManifestIsWires(captureId, wires[..n]);
      assert wires == wires[..n] + [wires[n]];
      forall w <- wires[..n]
        ensures BaseIdOf(w) != BaseIdOf(wires[n])
      {
        DifferentBases(w, wires[n]);
      }
    }
  }

  lemma OneInode(wires: seq<Wire>, v: Wire, w: Wire)
    requires DistinctInodes(wires) && v in wires && w in wires && SameInode(v, w)
    ensures v == w
  {
  }

  lemma ManifestOfSpool(db: Db)
    requires SpoolOk(db) && CaptureDone(db)
    ensures db.capture.value.expected == ExpectedOf(db.capture.value.manifest)
  {
    hide WireOk, BaseIdOf;
  }

  /** Each file is new, and is as it was frozen. */
  lemma FirstArrives(codec: Codec, db: Db, day: Day, w: Wire)
    requires FirstDay(codec, db, day) && SpoolOk(db) && w in day.wires
    ensures Arriving(codec, db, w, day.live(w))
  {
    hide BaseIdOf, Json.PowerOfTen, DistinctPaths, DistinctInodes, SpoolOk, IdentityCompatible, CurrentLogName;
    var c := db.capture.value;
    ManifestOfSpool(db);
    ManifestIsWires(c.captureId, day.wires);
    forall key <- c.expected | (c.expected[key].device, c.expected[key].inode) == (w.device, w.inode)
      ensures key == KeyFor(c, w)
    {
      OneInode(day.wires, c.manifest[key], w);
    }
  }

  /** So the first run after the capture is one with newcomers. */
  lemma FirstIsArrival(codec: Codec, db: Db, day: Day)
    requires FirstDay(codec, db, day) && SpoolOk(db)
    ensures ArrivalDay(codec, db, day)
  {
    hide BaseIdOf, JustFrozen, DistinctPaths, DistinctInodes, SpoolOk, Arriving, NewFile, DayOk, Ignored, Known,
         FrozenKnown, PathsOf;
    var c := db.capture.value;
    ManifestOfSpool(db);
    ManifestIsWires(c.captureId, day.wires);
    forall w <- day.wires
      ensures Arriving(codec, db, w, day.live(w)) && NewFile(db, w)
    {
      FirstArrives(codec, db, day, w);
      ArrivingIsNew(codec, db, w, day.live(w));
    }
    forall v <- day.wires, w <- day.wires | SameInode(v, w)
      ensures v == w
    {
      OneInode(day.wires, v, w);
    }
    forall key <- c.expected
      ensures FrozenNew(db, day.wires, key)
    {
      assert key == KeyFor(c, c.manifest[key]);
    }
  }

  lemma ArrivingIsNew(codec: Codec, db: Db, w: Wire, live: Bytes)
    requires Arriving(codec, db, w, live)
    ensures NewFile(db, w)
  {
  }

  /** A store as the initial capture of a guest leaves it. */
  ghost predicate Captured(codec: Codec, log: seq<Body>, born: map<Text, nat>, db: Db, day: Day) {
    && Inv(codec, log, db) && SpoolOk(db) && TidyLog(born, log, db.sources, db.pending)
    && db.pending.None? && FirstDay(codec, db, day)
  }

  /** Every file is in the log, all of it, and acknowledged under the id of its path. */
  ghost predicate AllArchived(codec: Codec, log: seq<Body>, db: Db, day: Day) {
    forall w <- day.wires ::
      && BaseIdOf(w) in db.sources && db.sources[BaseIdOf(w)].acknowledged
      && Archived(codec, log, w.compression, day.live(w))
  }

  lemma AllAreArchived(codec: Codec, log0: seq<Body>, log: seq<Body>, born: map<Text, nat>, first: Db, now: Db,
                       day: Day)
    requires Captured(codec, log0, born, first, day) && NewArchived(codec, log, first, now, day)
    ensures AllArchived(codec, log, now, day)
  {
    hide Inv, SpoolOk, TidyLog, FirstDay, Archived, BaseIdOf, NewFile, Arriving;
    forall w <- day.wires
      ensures NewFile(first, w)
    {
      FirstArrives(codec, first, day, w);
      ArrivingIsNew(codec, first, w, day.live(w));
    }
  }

  /**
   From the initial capture on, while the files stay as they were frozen: finitely many calm runs bring every byte of
   every file into the log and acknowledge all of them. Nothing but the files themselves is assumed: distinct paths and
   inodes, short names, and content that decodes to its end.
   */
  method ArchiveAll(store: CheckpointStore, loki: LogStore, codec: Codec, labelsFor: (Profile, LogKind) -> Bytes,
                    budget: nat, day: Day)
    returns (done: bool, timestamp: nat)
    requires Captured(codec, loki.log, loki.born, store.State(), day) && Usable(budget, labelsFor)
    modifies store`sources, store`pending, store`blobs, store`capture, loki
    ensures done || timestamp >= Json.PowerOfTen(20)
    ensures Inv(codec, loki.log, store.State())
    ensures done ==> AllArchived(codec, loki.log, store.State(), day)
  {
    hide Inv, Usable, NewArchived, AllArchived, Drained, ArrivalDay, FirstDay, SpoolOk, TidyLog, Json.PowerOfTen, Ready;
    ghost var log, born, first := loki.log, loki.born, store.State();
    FirstIsArrival(codec, first, day);
    FirstCaptured(codec, first, day);
    done, timestamp := ArchiveArrivals(store, loki, codec, labelsFor, budget, day);
    ReadyParts(codec, loki.log, loki.born, store.State(), day);
    if done {
      AllAreArchived(codec, log, loki.log, born, first, store.State(), day);
    }
  }

  lemma FirstCaptured(codec: Codec, db: Db, day: Day)
    requires FirstDay(codec, db, day)
    ensures CaptureDone(db)
  {
  }
}
