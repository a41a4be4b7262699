/** From a probe of the guest to the files that are planned: one listing of the rows, asked once for every file. */
module Probing {
  import opened LogEntry
  import opened Sources
  import opened Tables
  import opened Coverage
  import opened Planner
  import opened Matching

  // ---- The manifest --------------------------------------------------------------------------------

  function BaseIdOf(wire: Wire): Text {
    BaseSourceId(wire.profile, wire.logKind, wire.path)
  }

  /** The files of a capture, by the blob each is to be frozen in. */
  function ManifestOf(captureId: Text, wires: seq<Wire>): map<BlobKey, Wire> {
    if wires == [] then map[]
    else
      var last := wires[|wires| - 1];
      ManifestOf(captureId, wires[..|wires| - 1])[BlobKey(captureId, BaseIdOf(last)) := last]
  }

  /** The blobs a capture expects. */
  function ExpectedOf(manifest: map<BlobKey, Wire>): map<BlobKey, BlobState> {
    map key <- manifest :: var w := manifest[key];
      BlobState(BaseIdOf(w), w.path, w.device, w.inode, w.compression, w.size, None, false)
  }

  predicate WiresOk(wires: seq<Wire>) {
    forall w <- wires :: WireOk(w)
  }

  /** Every blob is named after the file it was frozen from, and expected as that file was probed. */
  predicate ManifestOk(c: Capture) {
    && c.expected == ExpectedOf(c.manifest)
    && forall key <- c.manifest :: key == BlobKey(c.captureId, BaseIdOf(c.manifest[key])) && WireOk(c.manifest[key])
  }

  lemma {:induction false} ManifestOfOk(captureId: Text, wires: seq<Wire>)
    requires WiresOk(wires)
    ensures forall key <- ManifestOf(captureId, wires) ::
      key == BlobKey(captureId, BaseIdOf(ManifestOf(captureId, wires)[key]))
      && WireOk(ManifestOf(captureId, wires)[key])
  {
    hide BaseIdOf, WireOk;
    if wires != [] {
      ManifestOfOk(captureId, wires[..|wires| - 1]);
      assert wires[|wires| - 1] in wires;
    }
  }

  // ---- The listing ---------------------------------------------------------------------------------

  /** The rows as listed once, the indexes over them, and the manifest's files by inode. */
  datatype Listing = Listing(rows: seq<Row>, byInode: map<Inode, nat>, byPath: map<Text, nat>, byId: map<Text, nat>,
                             manifestInode: map<Inode, BlobKey>)
  {
    function Existing(): (ids: seq<Text>)
      ensures |ids| == |rows|
    {
      seq(|rows|, i requires 0 <= i < |rows| => rows[i].id)
    }
  }

  /** The listed rows are those of the store, each once. */
  predicate RowsListed(sources: map<Text, SourceRecord>, l: Listing) {
    && (forall i :: 0 <= i < |l.rows| ==> l.rows[i].id in sources && sources[l.rows[i].id] == l.rows[i].record)
    && (forall id <- sources :: id in l.byId)
    && (forall id <- l.byId :: l.byId[id] < |l.rows| && l.rows[l.byId[id]].id == id)
    && (forall i :: 0 <= i < |l.rows| ==> l.rows[i].id in l.byId && l.byId[l.rows[i].id] == i)
  }

  predicate InodesListed(c: Capture, l: Listing) {
    && (forall inode <- l.manifestInode ::
          var key := l.manifestInode[inode];
          key in c.expected && (c.expected[key].device, c.expected[key].inode) == inode)
    && forall key <- c.expected :: (c.expected[key].device, c.expected[key].inode) in l.manifestInode
  }

  ghost predicate ListingOk(db: Db, l: Listing) {
    && db.capture.Some? && RowsListed(db.sources, l) && InodesListed(db.capture.value, l)
    && Indexed(l.rows, |l.rows|, l.byInode, InodesOf) && Indexed(l.rows, |l.rows|, l.byPath, PathOf)
  }

  /** List the rows, in whatever order. */
  method ListRows(sources: map<Text, SourceRecord>) returns (rows: seq<Row>, byId: map<Text, nat>)
    ensures forall i :: 0 <= i < |rows| ==> rows[i].id in sources && sources[rows[i].id] == rows[i].record
    ensures forall id <- sources :: id in byId
    ensures forall id <- byId :: byId[id] < |rows| && rows[byId[id]].id == id
    ensures forall i :: 0 <= i < |rows| ==> rows[i].id in byId && byId[rows[i].id] == i
  {
    rows, byId := [], map[];
    var todo := sources.Keys;
    while todo != {}
      invariant todo <= sources.Keys
      invariant forall i :: 0 <= i < |rows| ==> rows[i].id in sources && sources[rows[i].id] == rows[i].record
      invariant forall id <- sources :: id in todo || id in byId
      invariant forall id <- byId :: byId[id] < |rows| && rows[byId[id]].id == id && id !in todo
      invariant forall i :: 0 <= i < |rows| ==> rows[i].id in byId && byId[rows[i].id] == i
      decreases |todo|
    {
      var id :| id in todo;
      todo := todo - {id};
      byId := byId[id := |rows|];
      rows := rows + [Row(id, sources[id])];
    }
  }

  /** The manifest's files by inode; the first one met keeps a shared inode. */
  method ManifestInodes(expected: map<BlobKey, BlobState>) returns (index: map<Inode, BlobKey>)
    ensures forall inode <- index ::
      index[inode] in expected && (expected[index[inode]].device, expected[index[inode]].inode) == inode
    ensures forall key <- expected :: (expected[key].device, expected[key].inode) in index
  {
    index := map[];
    var todo := expected.Keys;
    while todo != {}
      invariant todo <= expected.Keys
      invariant forall inode <- index ::
        index[inode] in expected && (expected[index[inode]].device, expected[index[inode]].inode) == inode
      invariant forall key <- expected :: key in todo || (expected[key].device, expected[key].inode) in index
      decreases |todo|
    {
      var key :| key in todo;
      todo := todo - {key};
      var inode := (expected[key].device, expected[key].inode);
      if inode !in index {
        index := index[inode := key];
      }
    }
  }

  /** One listing for the whole run. */
  method ListStore(db: Db) returns (l: Listing)
    requires db.capture.Some?
    ensures ListingOk(db, l)
  {
    hide Indexed;
    var rows, byId := ListRows(db.sources);
    var byInode, byPath := RecordIndexes(rows);
    var manifestInode := ManifestInodes(db.capture.value.expected);
    l := Listing(rows, byInode, byPath, byId, manifestInode);
  }

  // ---- Matching one file ---------------------------------------------------------------------------

  /**
   The id under which the manifest froze a file of this inode. It must be the same logical source with the same
   compression, and the row of that id, if there is one, must not belong to another file.
   */
  function FrozenId(c: Capture, l: Listing, wire: Wire): Option<Text> {
    var inode := (wire.device, wire.inode);
    if inode !in l.manifestInode || l.manifestInode[inode] !in c.expected then None
    else
      var b := c.expected[l.manifestInode[inode]];
      if b.compression != wire.compression
         || b.sourceId != BaseSourceId(wire.profile, wire.logKind, b.sourcePath)
         || !SameLogicalSource(wire.profile, wire.logKind, b.sourcePath, wire.path)
         || (b.sourceId in l.byId && Compatible(l.rows, l.byId, b.sourceId, wire).None?)
      then None
      else Some(b.sourceId)
  }

  /** The id of a file that no row matched: that of the frozen file with its inode, else that of its own path. */
  function UnmatchedId(c: Capture, l: Listing, wire: Wire): Text {
    var frozen := FrozenId(c, l, wire);
    if frozen.Some? then frozen.value else BaseIdOf(wire)
  }

  function RowFor(l: Listing, wire: Wire): (k: Option<nat>)
    ensures k.Some? ==> k.value < |l.rows|
  {
    var k := MatchRecord(l.rows, l.byInode, l.byPath, l.byId, wire, BaseIdOf(wire));
    if k.Some? && k.value < |l.rows| then k else None
  }

  /** The guard of `RowFor` never bites. */
  lemma RowForIs(l: Listing, wire: Wire)
    ensures RowFor(l, wire) == MatchRecord(l.rows, l.byInode, l.byPath, l.byId, wire, BaseIdOf(wire))
  {
    MatchKeepsIdentity(l.rows, l.byInode, l.byPath, l.byId, wire, BaseIdOf(wire));
  }

  function MatchOf(c: Capture, l: Listing, paths: map<Text, Inode>, wire: Wire): Match {
    var k := RowFor(l, wire);
    var baseId := if k.Some? then l.rows[k.value].id else UnmatchedId(c, l, wire);
    var frozen := ManifestBlob(c, baseId);
    Match(Some(wire),
          if k.Some? then Some(l.rows[k.value].id) else None,
          k.Some? && SameGeneration(l.rows[k.value].record, wire, paths),
          if frozen.None? && k.Some? then l.rows[k.value].record.blob else frozen,
          None, baseId)
  }

  /** The blob was frozen from the very file that is probed. */
  predicate FrozenIdentity(c: Capture, m: Match) {
    && m.wire.Some? && m.blob.Some? && m.blob.value in c.expected
    && (c.expected[m.blob.value].device, c.expected[m.blob.value].inode) == (m.wire.value.device, m.wire.value.inode)
  }

  /** A live or current file is left to the live reader, unless it continues a row or was frozen itself. */
  predicate ToPlan(c: Capture, m: Match) {
    m.wire.Some? ==>
      || m.same
      || FrozenIdentity(c, m)
      || !(m.wire.value.isActive || CurrentLogName(m.wire.value.profile, m.wire.value.logKind, m.wire.value.path))
  }

  /** Where each path of a probe leads; a later entry for the same path replaces an earlier one. */
  function PathsOf(wires: seq<Wire>): map<Text, Inode> {
    if wires == [] then map[]
    else
      var last := wires[|wires| - 1];
      PathsOf(wires[..|wires| - 1])[last.path := (last.device, last.inode)]
  }

  /** The probed files that are planned, as matched against the one listing. */
  function Matches(c: Capture, l: Listing, paths: map<Text, Inode>, wires: seq<Wire>): (ms: seq<Match>)
    ensures |ms| <= |wires|
    ensures forall m <- ms ::
      m.wire.Some? && m.wire.value in wires && m == MatchOf(c, l, paths, m.wire.value) && ToPlan(c, m)
  {
    if wires == [] then []
    else
      var m := MatchOf(c, l, paths, wires[|wires| - 1]);
      Matches(c, l, paths, wires[..|wires| - 1]) + (if ToPlan(c, m) then [m] else [])
  }

  method MatchFiles(c: Capture, l: Listing, wires: seq<Wire>) returns (ms: seq<Match>, paths: map<Text, Inode>)
    ensures paths == PathsOf(wires) && ms == Matches(c, l, PathsOf(wires), wires)
  {
    hide MatchOf, ToPlan;
    paths := map[];
    for i := 0 to |wires|
      invariant paths == PathsOf(wires[..i])
    {
      assert wires[..i + 1][..i] == wires[..i];
      paths := paths[wires[i].path := (wires[i].device, wires[i].inode)];
    }
    assert wires[..|wires|] == wires;
    ms := [];
    for i := 0 to |wires|
      invariant ms == Matches(c, l, paths, wires[..i])
    {
      assert wires[..i + 1][..i] == wires[..i];
      var m := MatchOf(c, l, paths, wires[i]);
      if ToPlan(c, m) {
        ms := ms + [m];
      }
    }
  }

  // ---- What the matching guarantees ----------------------------------------------------------------

  /** Every blob of a finished capture is there. */
  predicate BlobsCaptured(db: Db) {
    db.capture.Some? && ManifestOk(db.capture.value) && forall key <- db.capture.value.expected :: IsCaptured(db, key)
  }

  /** The match of a probed file comes with what planning relies on. */
  lemma MatchIsOk(db: Db, l: Listing, paths: map<Text, Inode>, wire: Wire)
    requires ListingOk(db, l) && TiesOk(db) && BlobsCaptured(db) && WireOk(wire)
    ensures MatchOk(db, MatchOf(db.capture.value, l, paths, wire), l.Existing(), paths)
  {
    hide SameGeneration, NextGeneration, MatchRecord, Indexed, SameLogicalSource, IsCaptured, Compatible, BaseIdOf,
         CompressionFor;
    var c := db.capture.value;
    var k := RowFor(l, wire);
    var m := MatchOf(c, l, paths, wire);
    if k.Some? {
      assert TiedRow(db.capture, l.rows[k.value].id, l.rows[k.value].record);
      if !m.same {
        ReplacementIdIsFree(db, l, m.baseId);
      }
    } else {
      UnmatchedBlob(db, l, wire);
    }
  }

  /** The id of a replacement is no row's id and no blob's. */
  lemma ReplacementIdIsFree(db: Db, l: Listing, base: Text)
    requires ListingOk(db, l) && BlobsCaptured(db)
    ensures var id := NextGeneration(l.Existing(), base).0;
      id !in db.sources && ManifestBlob(db.capture.value, id).None?
  {
    hide Indexed, Highest, IsCaptured, WireOk;
    var c := db.capture.value;
    var (id, generation) := NextGeneration(l.Existing(), base);
    NextGenerationIsFresh(l.Existing(), base);
    ExistingIsAll(db, l);
    var key := BlobKey(c.captureId, id);
    if key in c.expected {
      assert key == BlobKey(c.captureId, BaseIdOf(c.manifest[key]));
      GenerationIsNoBase(base, generation, c.manifest[key].profile, c.manifest[key].logKind, c.manifest[key].path);
    }
  }

  lemma ExistingIsAll(db: Db, l: Listing)
    requires RowsListed(db.sources, l)
    ensures forall id <- db.sources :: id in l.Existing()
  {
    forall id <- db.sources
      ensures id in l.Existing()
    {
      assert l.Existing()[l.byId[id]] == id;
    }
  }

  /** The blob found for a file without a row was frozen with the file's compression. */
  lemma UnmatchedBlob(db: Db, l: Listing, wire: Wire)
    requires ListingOk(db, l) && BlobsCaptured(db) && WireOk(wire)
    ensures var blob := ManifestBlob(db.capture.value, UnmatchedId(db.capture.value, l, wire));
      blob.Some? ==> db.capture.value.expected[blob.value].compression == wire.compression
  {
    hide Indexed, IsCaptured, Compatible, SameLogicalSource, CompressionFor, BaseSourceId;
    var c := db.capture.value;
    var id := UnmatchedId(c, l, wire);
    var key := BlobKey(c.captureId, id);
    if key in c.expected {
      var w := c.manifest[key];
      if FrozenId(c, l, wire).Some? {
        var b := l.manifestInode[(wire.device, wire.inode)];
        assert b == BlobKey(c.captureId, BaseIdOf(c.manifest[b]));
      } else {
        assert key == BlobKey(c.captureId, BaseIdOf(w));
        BaseIdsDiffer(w.profile, w.logKind, w.path, wire.profile, wire.logKind, wire.path);
      }
    }
  }

  /** A frozen file that was not met in the probe is planned from its manifest entry, unless it is complete. */
  function Leftover(db: Db, key: BlobKey): (m: Match)
    requires db.capture.Some? && key in db.capture.value.expected && key in db.capture.value.manifest
    ensures m.HasReference()
  {
    var id := db.capture.value.expected[key].sourceId;
    Match(None, if id in db.sources then Some(id) else None, id in db.sources, Some(key),
          Some(db.capture.value.manifest[key]), id)
  }

  predicate LeftoverToPlan(db: Db, key: BlobKey)
    requires db.capture.Some? && key in db.capture.value.expected
  {
    var id := db.capture.value.expected[key].sourceId;
    id in db.sources ==> !IsPrefixComplete(db.sources[id])
  }

  lemma LeftoverIsOk(db: Db, key: BlobKey, existing: seq<Text>, paths: map<Text, Inode>)
    requires TiesOk(db) && BlobsCaptured(db) && key in db.capture.value.expected && LeftoverToPlan(db, key)
    ensures key in db.capture.value.manifest
    ensures MatchOk(db, Leftover(db, key), existing, paths)
    ensures PlannedId(Leftover(db, key), existing) == db.capture.value.expected[key].sourceId
    ensures key == BlobKey(db.capture.value.captureId, db.capture.value.expected[key].sourceId)
  {
    hide NextGeneration, BaseIdOf, CompressionFor;
    var id := db.capture.value.expected[key].sourceId;
    assert IsCaptured(db, key);
    if id in db.sources {
      assert TiedRow(db.capture, id, db.sources[id]);
    }
  }

  // ---- Ids that are already taken ------------------------------------------------------------------

  /** A file takes an id exactly if no row matched it and the id it falls back to has a row. */
  lemma TakenExactly(db: Db, l: Listing, paths: map<Text, Inode>, wire: Wire)
    requires ListingOk(db, l)
    ensures var m := MatchOf(db.capture.value, l, paths, wire);
      Taken(db, m) <==> RowFor(l, wire).None? && UnmatchedId(db.capture.value, l, wire) in db.sources
  {
    hide Indexed, MatchRecord, FrozenId, SameGeneration;
  }

  /**
   The plain case of it: a file was captured, rotated to a timestamped name, and its first name is used again. The
   row, pinned to the timestamped name, does not match the new file, and the new file falls back to the row's own id.
   Planned, the new file wipes the row's progress; it is planned exactly if it is the frozen file's inode again, or
   is neither active nor under a current name.
   */
  lemma ReusedNameTakesId(db: Db, l: Listing, paths: map<Text, Inode>, wire: Wire, now: nat)
    requires ListingOk(db, l) && TiesOk(db) && BlobsCaptured(db) && WireOk(wire)
    requires BaseIdOf(wire) in db.sources && UnmatchedId(db.capture.value, l, wire) == BaseIdOf(wire)
    requires var r := db.sources[BaseIdOf(wire)];
      && r.identity.profile == wire.profile && r.identity.logKind == wire.logKind
      && PinnedWire(r.identity) && PlainLogPath(r.identity.path) != PlainLogPath(wire.path)
    requires NobodyElse(db, wire, BaseIdOf(wire))
    ensures var c := db.capture.value;
      var m := MatchOf(c, l, paths, wire);
      && Taken(db, m) && Sound(db, m) && PlannedId(m, l.Existing()) == BaseIdOf(wire)
      && Recorded(db, m, l.Existing(), now).sources[BaseIdOf(wire)].progress.offset == 0
      && Recorded(db, m, l.Existing(), now).sources[BaseIdOf(wire)].digest == db.sources[BaseIdOf(wire)].digest
      && (m.blob.Some? ==> PlanFor(db, m, l.Existing(), now).input == Frozen(m.blob.value))
      && (ToPlan(c, m) <==>
            FrozenIdentity(c, m) || !(wire.isActive || CurrentLogName(wire.profile, wire.logKind, wire.path)))
  {
    assert db.capture.Some?;
    hide *;
    var m := MatchOf(db.capture.value, l, paths, wire);
    PinnedIsOther(db.sources[BaseIdOf(wire)], wire);
    NothingMatches(db, l, wire);
    Unmatched(db.capture.value, l, paths, wire);
    MatchIsOk(db, l, paths, wire);
    RecordedRow(db, m, l.Existing(), paths, now);
    TakenFacts(db, m, l.Existing());
    MatchHasBlob(db, m, l.Existing(), paths);
    if m.blob.Some? {
      ReadsTheBlob(db, m, l.Existing(), now);
    }
  }

  lemma MatchHasBlob(db: Db, m: Match, existing: seq<Text>, paths: map<Text, Inode>)
    requires MatchOk(db, m, existing, paths)
    ensures m.blob.Some? ==> IsCaptured(db, m.blob.value)
  {
    hide SameGeneration, NextGeneration;
  }

  /** Every file without a row whose id has a blob is read from that blob, whatever rows there are. */
  lemma ReadsTheBlob(db: Db, m: Match, existing: seq<Text>, now: nat)
    requires Sound(db, m) && !m.same && m.record.None? && m.blob.Some? && IsCaptured(db, m.blob.value)
    ensures PlanFor(db, m, existing, now).input == Frozen(m.blob.value)
    ensures PlanFor(db, m, existing, now).rawSize == db.blobs[m.blob.value].highWaterSize
  {
    hide NextGeneration;
  }

  /** No other row with the file's path or inode can own the file. */
  predicate NobodyElse(db: Db, wire: Wire, id: Text) {
    forall k <- db.sources :: k != id ==>
      db.sources[k].identity.path == wire.path || (wire.device, wire.inode) in InodesOf(db.sources[k]) ==>
        !IdentityCompatible(db.sources[k], wire)
  }

  /** A row pinned to a timestamped name owns no file of another. */
  lemma PinnedIsOther(r: SourceRecord, wire: Wire)
    requires r.identity.profile == wire.profile && r.identity.logKind == wire.logKind
    requires PinnedWire(r.identity) && PlainLogPath(r.identity.path) != PlainLogPath(wire.path)
    ensures !IdentityCompatible(r, wire)
  {
    hide PlainLogPath, LogicalIdentity, CanonicalPath;
  }

  lemma NothingMatches(db: Db, l: Listing, wire: Wire)
    requires ListingOk(db, l) && BaseIdOf(wire) in db.sources && NobodyElse(db, wire, BaseIdOf(wire))
    requires !IdentityCompatible(db.sources[BaseIdOf(wire)], wire)
    ensures RowFor(l, wire).None?
  {
    hide IdentityCompatible, BaseIdOf, InodesListed, InodesOf;
    assert KeyOk(l.rows, |l.rows|, l.byPath, PathOf, wire.path);
    assert KeyOk(l.rows, |l.rows|, l.byInode, InodesOf, (wire.device, wire.inode));
    assert wire.path in l.byPath ==> wire.path in PathOf(l.rows[l.byPath[wire.path]].record);
  }

  lemma Unmatched(c: Capture, l: Listing, paths: map<Text, Inode>, wire: Wire)
    requires RowFor(l, wire).None?
    ensures var m := MatchOf(c, l, paths, wire);
      && !m.same && m.record.None? && m.wire == Some(wire) && m.baseId == UnmatchedId(c, l, wire)
      && (ToPlan(c, m) <==>
            FrozenIdentity(c, m) || !(wire.isActive || CurrentLogName(wire.profile, wire.logKind, wire.path)))
  {
    hide RowFor, UnmatchedId, FrozenIdentity, CurrentLogName;
  }

  lemma TakenFacts(db: Db, m: Match, existing: seq<Text>)
    requires !m.same && m.record.None? && m.baseId in db.sources
    ensures Taken(db, m) && PlannedId(m, existing) == m.baseId
  {
  }
}
