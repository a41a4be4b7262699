/**
 Two probed files of one run under one id: exactly when that happens, and what becomes of it. The program plans both
 over one row.
 */
module Clashing {
  import opened Utf8
  import opened LogEntry
  import opened Sources
  import opened Tables
  import opened Delivery
  import opened Coverage
  import opened Planner
  import opened Matching
  import opened Probing
  import opened Import
  import opened Importer
  import opened LiveInput
  import opened Retention
  import opened GuestFiles

  // ---- When ----------------------------------------------------------------------------------------

  /** The file takes the place of the one its row stood for. */
  predicate IsReplacement(m: Match) {
    m.record.Some? && !m.same
  }

  /** Two files share an id exactly if they fall back to one base id and both, or neither, are replacements. */
  lemma ClashExactly(db: Db, l: Listing, paths: map<Text, Inode>, v: Wire, w: Wire)
    requires ListingOk(db, l)
    ensures var a, b := MatchOf(db.capture.value, l, paths, v), MatchOf(db.capture.value, l, paths, w);
      (PlannedId(a, l.Existing()) == PlannedId(b, l.Existing())) <==>
        (a.baseId == b.baseId && (IsReplacement(a) <==> IsReplacement(b)))
  {
    hide MatchRecord, SameGeneration, NextGeneration, Indexed, UnmatchedId, BaseIdOf, ManifestBlob;
    var c := db.capture.value;
    var a, b := MatchOf(c, l, paths, v), MatchOf(c, l, paths, w);
    if IsReplacement(a) && IsReplacement(b) {
      SamePlanCollision(l.Existing(), a.baseId, b.baseId);
    } else if IsReplacement(a) {
      NoReplacementId(c, l, paths, w, a.baseId);
    } else if IsReplacement(b) {
      NoReplacementId(c, l, paths, v, b.baseId);
    }
  }

  /** The id of a replacement is never that of a file which is none. */
  lemma NoReplacementId(c: Capture, l: Listing, paths: map<Text, Inode>, w: Wire, base: Text)
    ensures var m := MatchOf(c, l, paths, w);
      !IsReplacement(m) ==> PlannedId(m, l.Existing()) != NextGeneration(l.Existing(), base).0
  {
    hide MatchRecord, SameGeneration, Highest;
    var (id, generation) := NextGeneration(l.Existing(), base);
    NextGenerationIsFresh(l.Existing(), base);
    var k := RowFor(l, w);
    if k.Some? {
      assert l.Existing()[k.value] == l.rows[k.value].id;
    } else {
      UnmatchedIdIs(c, l, w);
      GenerationIsNoBase(base, generation, w.profile, w.logKind, OriginOf(c, l, w));
    }
  }

  /** The path a file without a row is named after: that of the frozen file with its inode, else its own. */
  function OriginOf(c: Capture, l: Listing, w: Wire): Text {
    var inode := (w.device, w.inode);
    if FrozenId(c, l, w).Some? && inode in l.manifestInode && l.manifestInode[inode] in c.expected then
      c.expected[l.manifestInode[inode]].sourcePath
    else w.path
  }

  lemma UnmatchedIdIs(c: Capture, l: Listing, w: Wire)
    ensures UnmatchedId(c, l, w) == BaseSourceId(w.profile, w.logKind, OriginOf(c, l, w))
  {
    hide SameLogicalSource, Compatible;
  }

  /** So two files without a row share an id exactly if they are of one profile and kind and named after one path. */
  lemma UnmatchedClashExactly(c: Capture, l: Listing, v: Wire, w: Wire)
    ensures UnmatchedId(c, l, v) == UnmatchedId(c, l, w)
       <==> (v.profile, v.logKind, OriginOf(c, l, v)) == (w.profile, w.logKind, OriginOf(c, l, w))
  {
    hide UnmatchedId, OriginOf;
    UnmatchedIdIs(c, l, v);
    UnmatchedIdIs(c, l, w);
    if UnmatchedId(c, l, v) == UnmatchedId(c, l, w) {
      BaseIdsDiffer(v.profile, v.logKind, OriginOf(c, l, v), w.profile, w.logKind, OriginOf(c, l, w));
    }
  }

  // ---- Files without a row -------------------------------------------------------------------------

  /** If two of them share an id, under different names, one was frozen: the id has a blob. */
  lemma ClashHasBlob(db: Db, l: Listing, v: Wire, w: Wire)
    requires ListingOk(db, l) && BlobsCaptured(db) && v.path != w.path
    requires UnmatchedId(db.capture.value, l, v) == UnmatchedId(db.capture.value, l, w)
    ensures var blob := ManifestBlob(db.capture.value, UnmatchedId(db.capture.value, l, v));
      blob.Some? && IsCaptured(db, blob.value)
  {
    hide Indexed, SameLogicalSource, Compatible, WireOk, BaseSourceId;
    var c := db.capture.value;
    UnmatchedClashExactly(c, l, v, w);
    var f := if FrozenId(c, l, v).Some? then v else w;
    var key := l.manifestInode[(f.device, f.inode)];
    assert key == BlobKey(c.captureId, BaseIdOf(c.manifest[key]));
  }

  /**
   So both are read from the one blob (`Probing.ReadsTheBlob`), and the one that was not frozen is never read. Once its
   plan is completed the row claims it, and the next run reads nothing of it and verifies nothing, exactly if it is as
   long as the blob.
   */
  lemma NeverReadExactly(r: SourceRecord, p: FilePlan, w: Wire, content: Bytes, decoded: Digest, now: nat)
    requires p.wire == Some(w) && p.rawSize == |content| && IdentityCompatible(r.(identity := w), w)
    requires !r.provenance.coverageConflict
    ensures var done := Completed(r, p, Sha256(content), decoded, None)
                          .(digest := Some(Sha256(content)), acknowledged := true, updatedNs := now);
      && (PrefixCompleteForCurrent(done, w) <==> w.size == |content|)
      && (PrefixCompleteForCurrent(done, w) ==> !MustVerify(done, w))
  {
    hide SameLogicalSource;
  }

  /**
   How it comes about: a file was frozen, no row was planned yet, and it was rotated to another name while a new file
   took its own. The frozen inode and the new file fall back to one id.
   */
  lemma RotatedBeforePlanning(db: Db, l: Listing, paths: map<Text, Inode>, key: BlobKey, v: Wire, w: Wire)
    requires ListingOk(db, l) && BlobsCaptured(db) && db.sources == map[] && key in db.capture.value.manifest
    requires var f := db.capture.value.manifest[key];
      && (v.device, v.inode) == (f.device, f.inode)
      && (v.device, v.inode) in l.manifestInode && l.manifestInode[(v.device, v.inode)] == key
      && (v.profile, v.logKind, v.compression) == (f.profile, f.logKind, f.compression)
      && SameLogicalSource(f.profile, f.logKind, f.path, v.path)
      && (w.profile, w.logKind, w.path) == (f.profile, f.logKind, f.path)
      && (w.device, w.inode) !in l.manifestInode
      && !(w.isActive || CurrentLogName(w.profile, w.logKind, w.path))
    ensures var c := db.capture.value;
      var a, b := MatchOf(c, l, paths, v), MatchOf(c, l, paths, w);
      && ToPlan(c, a) && ToPlan(c, b)
      && PlannedId(a, l.Existing()) == PlannedId(b, l.Existing())
      && a.blob == b.blob == Some(key) && IsCaptured(db, key)
  {
    hide MatchRecord, Indexed, SameLogicalSource, CurrentLogName, WireOk, BaseSourceId, SameGeneration;
    var c := db.capture.value;
    assert key in c.expected && key == BlobKey(c.captureId, BaseIdOf(c.manifest[key]));
    NobodyListed(db, l, v);
    NobodyListed(db, l, w);
  }

  lemma NobodyListed(db: Db, l: Listing, w: Wire)
    requires RowsListed(db.sources, l) && db.sources == map[]
    ensures RowFor(l, w).None?
  {
    hide MatchRecord;
    var k := RowFor(l, w);
    if k.Some? {
      ListedIs(db, l, k.value);
    }
  }

  lemma ListedIs(db: Db, l: Listing, k: nat)
    requires RowsListed(db.sources, l)
    ensures k < |l.rows| ==> l.rows[k].id in db.sources
  {
  }

  // ---- Replacements --------------------------------------------------------------------------------

  /**
   Two replacements of one row are both read live. When the first is complete, proving the second moves the row's digest
   to the second file's content while the completed size stays the first's. The row is truthful then exactly if the
   front of the second file, as long as the first, was archived: the invariant does not survive a process that dies
   there.
   */
  lemma SecondProofExactly(codec: Codec, log: seq<Body>, r: SourceRecord, first: Bytes, second: Bytes, now: nat)
    requires codec.Lawful() && ClosedFor(codec, r, first) && CompletionOk(codec, log, r)
    ensures CompletionOk(codec, log, Proved(r, second, now))
       <==> |first| <= |second| && Archived(codec, log, r.identity.compression, second[..|first|])
  {
    hide Archived, Delivered;
  }

  /**
   In particular, when both are of one size and the second was not archived, the row then backs the deletion of a file
   with the first one's identity and the second one's content. Only the node, which finds no such file, keeps it from
   happening.
   */
  lemma BacksTheUnread(codec: Codec, log: seq<Body>, r: SourceRecord, first: Bytes, second: Bytes, now: nat,
                       spec: PruneSpec)
    requires codec.Lawful() && ClosedFor(codec, r, first) && CompletionOk(codec, log, r)
    requires |first| == |second| == r.identity.size && !Archived(codec, log, r.identity.compression, second)
    requires spec.wire == r.identity && spec.sha256 == Sha256(second)
    ensures Backs(Proved(r, second, now), spec) && !CompletionOk(codec, log, Proved(r, second, now))
    ensures forall f: NodeFile :: GuestFiles.Matches(spec, f) ==> f.content == second
  {
    hide Archived, Delivered, CompletionOk;
    SecondProofExactly(codec, log, r, first, second, now);
    assert second[..|first|] == second;
  }
}
