/**
 Everything that can happen to one guest over time: maintenance runs that import and then prune, sources going absent,
 tombstones being purged, and the guest changing its files as it likes, in any order and number, with the process
 dying anywhere.
 */
module Campaign {
  import opened Utf8
  import opened LogEntry
  import opened Sources
  import opened Tables
  import opened Delivery
  import opened Coverage
  import opened Checkpoint
  import opened Import
  import opened Pending
  import opened Tidy
  import opened CaptureRun
  import opened Run
  import opened GuestFiles
  import opened Retention
  import Planning
  import opened Planner
  import opened Probing
  import F = Fragments

  /**
   A maintenance run imports and, if that went well, prunes what the import reported as covered; a paused guest is
   pruned only of what earlier runs left unsettled. What an import reads is part of its event, whatever the guest's
   files are then.
   */
  datatype Event =
    | Maintain(day: Day, budget: nat, policy: Policy)
    | RetentionOnly(policy: Policy)
    | GoneAbsent(id: Text)
    | PurgeExpired(expired: set<Text>)
    | FilesChange(files: map<Text, NodeFile>)

  ghost predicate EventOk(e: Event) {
    match e
    case Maintain(day, _, policy) => DayOk(day) && policy.Sane()
    case RetentionOnly(policy) => policy.Sane()
    case _ => true
  }

  /** The sources that the log holds entries of. */
  function IdsIn(log: seq<Body>): set<Text> {
    set i, k | 0 <= i < |log| && 0 <= k < |log[i].values| :: log[i].values[k].entry.sourceId
  }

  /** An empty store is in order, whatever the log already holds. */
  lemma FirstState(codec: Codec, log: seq<Body>)
    requires codec.Lawful()
    ensures var db := Db(map[], None, map[], None, map[]);
      Inv(codec, log, db) && SpoolOk(db) && KeysMatch(db.intents)
      && TidyLog(map id | id in IdsIn(log) :: |log|, log, db.sources, db.pending)
  {
  }

  /** Forgetting acknowledged tombstones keeps the invariant. */
  lemma PurgeKeeps(codec: Codec, log: seq<Body>, db: Db, expired: set<Text>)
    requires Inv(codec, log, db)
    ensures Inv(codec, log, Purge(db, expired))
  {
    hide RowOk, BatchOk, Purgeable, TiedRow;
    var next := Purge(db, expired);
    forall id <- next.sources
      ensures RowOk(codec, log, id, next.sources[id], BlobContent(next, next.sources[id]))
    {
      assert BlobContent(next, next.sources[id]) == BlobContent(db, db.sources[id]);
    }
    if db.pending.Some? {
      PendingIsKept(db, expired);
      var id := db.pending.value.progress[0].sourceId;
      assert BlobContent(next, next.sources[id]) == BlobContent(db, db.sources[id]);
    }
  }

  /** While a batch is pending nothing is purged. */
  lemma PendingIsKept(db: Db, expired: set<Text>)
    requires db.pending.Some?
    ensures Purge(db, expired).sources == db.sources
  {
  }

  function Gone(db: Db, id: Text, now: nat): Db
    requires id in db.sources
  {
    db.(sources := db.sources[id := db.sources[id].(absent := true, updatedNs := now)])
  }

  lemma AbsentKeeps(codec: Codec, log: seq<Body>, db: Db, id: Text, now: nat)
    requires Inv(codec, log, db) && id in db.sources
    ensures Inv(codec, log, Gone(db, id, now))
  {
    hide RowOk, BatchOk, RowsOk, WireOk;
    var r := db.sources[id];
    var next := r.(absent := true, updatedNs := now);
    RowOfInv(codec, log, db, id);
    MarkedRow(codec, log, id, r, BlobContent(db, r), next);
    PutRow(codec, log, db, id, next);
    if db.pending.Some? && db.pending.value.progress[0].sourceId == id {
      SameBatchRow(codec, id, r, next, BlobContent(db, r), db.pending.value);
    }
  }

  lemma SameBatchRow(codec: Codec, id: Text, r: SourceRecord, next: SourceRecord, blob: Option<Bytes>,
                     batch: PendingBatch)
    requires BatchOk(codec, id, r, blob, batch)
    requires next == r.(absent := next.absent, updatedNs := next.updatedNs)
    ensures BatchOk(codec, id, next, blob, batch)
  {
    hide F.Fragments;
  }

  // ---- What was deleted ----------------------------------------------------------------------------

  /**
   A deletion was of the exact file that its own row vouched for when it was deleted, and that file decodes to its end
   into content that is in the log. It is decoded as the name of the row's file tells.
   */
  ghost predicate Safe(codec: Codec, log: seq<Body>, d: Deletion, voucher: SourceRecord) {
    && Backs(voucher, d.spec) && voucher.identity.compression == d.spec.wire.compression && WireOk(voucher.identity)
    && GuestFiles.Matches(d.spec, d.file)
    && Archived(codec, log, d.spec.wire.compression, d.file.content)
  }

  ghost predicate AllDelivered(codec: Codec, log: seq<Body>, deletions: seq<Deletion>, vouchers: seq<SourceRecord>) {
    |vouchers| == |deletions| && forall i :: 0 <= i < |deletions| ==> Safe(codec, log, deletions[i], vouchers[i])
  }

  lemma {:induction false} DeliveredStays(log: seq<Body>, longer: seq<Body>, x: Bytes)
    requires Delivered(log, x) && log <= longer
    ensures Delivered(longer, x)
    decreases |longer| - |log|
  {
    hide Delivered;
    if |log| == |longer| {
      assert log == longer;
    } else {
      DeliveredGrows(log, longer[|log|], x);
      assert log + [longer[|log|]] == longer[..|log| + 1];
      DeliveredStays(log + [longer[|log|]], longer, x);
    }
  }

  lemma AllDeliveredStays(codec: Codec, log: seq<Body>, longer: seq<Body>, deletions: seq<Deletion>,
                          vouchers: seq<SourceRecord>)
    requires AllDelivered(codec, log, deletions, vouchers) && log <= longer
    ensures AllDelivered(codec, longer, deletions, vouchers)
  {
    hide Delivered, GuestFiles.Matches, Backs;
    forall i | 0 <= i < |deletions|
      ensures Safe(codec, longer, deletions[i], vouchers[i])
    {
      assert Safe(codec, log, deletions[i], vouchers[i]);
      DeliveredStays(log, longer, codec.decoded(deletions[i].spec.wire.compression, deletions[i].file.content));
    }
  }

  function VoucherOf(sources: map<Text, SourceRecord>, spec: PruneSpec): SourceRecord
    requires Vouched(sources, spec)
  {
    sources[spec.sourceId.value]
  }

  /** The rows that vouched for the deletions of one retention run. */
  ghost function Vouchers(sources: map<Text, SourceRecord>, deletions: seq<Deletion>): (r: seq<SourceRecord>)
    requires forall d <- deletions :: Vouched(sources, d.spec)
    ensures |r| == |deletions|
    ensures forall i :: 0 <= i < |r| ==> deletions[i] in deletions && r[i] == VoucherOf(sources, deletions[i].spec)
  {
    if deletions == [] then []
    else
      assert forall d <- deletions[..|deletions| - 1] :: d in deletions;
      assert deletions[|deletions| - 1] in deletions;
      Vouchers(sources, deletions[..|deletions| - 1]) + [VoucherOf(sources, deletions[|deletions| - 1].spec)]
  }

  lemma NothingToVouch(codec: Codec, log: seq<Body>)
    ensures AllDelivered(codec, log, [], [])
  {
  }

  lemma MoreVouched(codec: Codec, log: seq<Body>, before: seq<Deletion>, after: seq<Deletion>,
                    vouchers: seq<SourceRecord>, sources: map<Text, SourceRecord>)
    requires AllDelivered(codec, log, before, vouchers)
    requires |after| >= |before| && after[..|before|] == before
    requires forall id <- sources :: WireOk(sources[id].identity)
    requires forall d <- after[|before|..] ::
      Vouched(sources, d.spec) && GuestFiles.Matches(d.spec, d.file)
      && Archived(codec, log, d.spec.wire.compression, d.file.content)
    ensures AllDelivered(codec, log, after, vouchers + Vouchers(sources, after[|before|..]))
  {
    hide Archived, GuestFiles.Matches, Backs, WireOk;
    var recent := after[|before|..];
    var all := vouchers + Vouchers(sources, recent);
    forall i | 0 <= i < |after|
      ensures Safe(codec, log, after[i], all[i])
    {
      if i < |before| {
        assert after[i] == before[i] && all[i] == vouchers[i];
        assert Safe(codec, log, before[i], vouchers[i]);
      } else {
        assert after[i] == recent[i - |before|];
      }
    }
  }

  // ---- Moments -------------------------------------------------------------------------------------

  /**
   Between two events: the store, the log, the births of the rows, and every deletion and answer of the node so far.
   */
  datatype Moment = Moment(db: Db, log: seq<Body>, born: map<Text, nat>, deleted: seq<Deletion>, answers: seq<Answer>)

  ghost function Now(store: CheckpointStore, loki: LogStore, node: Node): Moment
    reads store, loki, node
  {
    Moment(store.State(), loki.log, loki.born, node.deleted, node.answers)
  }

  ghost predicate InOrder(codec: Codec, m: Moment) {
    && Inv(codec, m.log, m.db) && SpoolOk(m.db) && KeysMatch(m.db.intents)
    && TidyLog(m.born, m.log, m.db.sources, m.db.pending)
  }

  /** What a maintenance run planned, and the log as it was then. */
  datatype Work = Work(start: Db, l: Listing, done: seq<Match>, log: seq<Body>)

  /** A maintenance run starts no row but for a file it plans. */
  ghost predicate Worked(codec: Codec, a: Moment, day: Day, b: Moment, w: Work) {
    && a.log <= w.log <= b.log
    && RunPlanned(codec, a.db.sources, w.start, w.l, day.wires, w.done, w.log, a.born, b.born, b.db.sources)
  }

  /**
   The intents changed only as the books of a retention run say: for requests that their rows vouch for, and by the
   answers that the node gave in the exchanges in which it made its new deletions.
   */
  ghost predicate BooksKept(a: Moment, b: Moment) {
    exists recorded: map<IntentKey, PruneIntent>, requested: seq<PruneSpec>, ledger: seq<Settlement>,
           exchanges: seq<Exchange> ::
      && Booked(a.db.intents, recorded, requested, b.db.intents, ledger, exchanges)
      && b.deleted == a.deleted + DeletionsOf(exchanges)
      && a.answers <= b.answers && Answered(exchanges, b.answers[|a.answers|..])
      && forall spec <- requested :: Vouched(b.db.sources, spec)
  }

  lemma NoBooks(a: Moment, b: Moment)
    requires a.db.intents == b.db.intents && a.deleted == b.deleted && a.answers == b.answers
    ensures BooksKept(a, b)
  {
    assert Booked(a.db.intents, a.db.intents, [], b.db.intents, [], []);
    assert a.deleted + DeletionsOf([]) == a.deleted;
    assert Answered([], b.answers[|a.answers|..]);
  }

  /** How a moment may follow from the one before an event. */
  ghost predicate Follows(codec: Codec, a: Moment, e: Event, b: Moment) {
    match e
    case Maintain(day, _, _) => (exists w: Work :: Worked(codec, a, day, b, w)) && BooksKept(a, b)
    case RetentionOnly(_) =>
      b.db == a.db.(intents := b.db.intents) && b.log == a.log && b.born == a.born
      && BooksKept(a, b)
    case GoneAbsent(id) => b == a || exists now: nat :: id in a.db.sources && b == a.(db := Gone(a.db, id, now))
    case PurgeExpired(expired) => b == a.(db := Purge(a.db, expired))
    case FilesChange(_) => b == a
  }

  /** The moments of a campaign, from first to last. */
  ghost predicate History(codec: Codec, events: seq<Event>, moments: seq<Moment>) {
    && |moments| <= |events| + 1
    && (forall i :: 0 <= i < |moments| ==> InOrder(codec, moments[i]))
    && forall i :: 0 <= i < |moments| - 1 ==> Follows(codec, moments[i], events[i], moments[i + 1])
  }

  lemma OneMoment(codec: Codec, events: seq<Event>, m: Moment)
    requires InOrder(codec, m)
    ensures History(codec, events, [m])
  {
    hide InOrder, Follows;
  }

  lemma NextMoment(codec: Codec, events: seq<Event>, moments: seq<Moment>, b: Moment)
    requires History(codec, events, moments) && 0 < |moments| <= |events| && InOrder(codec, b)
    requires Follows(codec, moments[|moments| - 1], events[|moments| - 1], b)
    ensures History(codec, events, moments + [b])
  {
    hide InOrder, Follows;
    var more := moments + [b];
    forall i | 0 <= i < |more| - 1
      ensures Follows(codec, more[i], events[i], more[i + 1])
    {
      if i < |moments| - 1 {
        assert Follows(codec, moments[i], events[i], moments[i + 1]);
      }
    }
  }

  /** Each voucher is its deletion's row at some moment. */
  ghost predicate FromMoments(moments: seq<Moment>, deletions: seq<Deletion>, vouchers: seq<SourceRecord>) {
    && |vouchers| == |deletions|
    && forall i :: 0 <= i < |deletions| ==> AtSomeMoment(moments, deletions[i], vouchers[i])
  }

  ghost predicate AtSomeMoment(moments: seq<Moment>, d: Deletion, voucher: SourceRecord) {
    exists k :: 0 <= k < |moments| && RowThen(moments[k], d, voucher)
  }

  predicate RowThen(m: Moment, d: Deletion, voucher: SourceRecord) {
    d.spec.sourceId.Some? && d.spec.sourceId.value in m.db.sources && m.db.sources[d.spec.sourceId.value] == voucher
  }

  lemma MoreMoments(moments: seq<Moment>, b: Moment, before: seq<Deletion>, after: seq<Deletion>,
                    vouchers: seq<SourceRecord>, more: seq<SourceRecord>)
    requires FromMoments(moments, before, vouchers) && |after| == |before| + |more| && after[..|before|] == before
    requires forall i :: |before| <= i < |after| ==> RowThen(b, after[i], more[i - |before|])
    ensures FromMoments(moments + [b], after, vouchers + more)
  {
    hide RowThen;
    var all := moments + [b];
    forall i | 0 <= i < |after|
      ensures AtSomeMoment(all, after[i], (vouchers + more)[i])
    {
      if i < |before| {
        assert after[i] == before[i] && AtSomeMoment(moments, before[i], vouchers[i]);
        var k :| 0 <= k < |moments| && RowThen(moments[k], before[i], vouchers[i]);
        assert RowThen(all[k], after[i], vouchers[i]);
      } else {
        assert RowThen(all[|moments|], after[i], more[i - |before|]);
      }
    }
  }

  // ---- The events ----------------------------------------------------------------------------------

  /** What of the guest's initial files is not acknowledged yet, or is still pending, withholds pruning. */
  predicate InitialDone(db: Db) {
    db.pending.None? && forall id <- db.sources :: db.sources[id].inInitialManifest ==> db.sources[id].acknowledged
  }

  /** A run that is not followed has done nothing. */
  lemma NoWork(codec: Codec, a: Moment, day: Day, l: Listing)
    ensures Worked(codec, a, day, a, Work(a.db, l, [], a.log))
  {
    hide ListingOk;
    NotPlanned(codec, a.db, a.db.sources, l, day.wires, a.log, a.born);
  }

  /**
   One import run within the campaign, and whether it may be followed by pruning. A run that would rebuild a stale batch
   from a rewritten file, and as another one, is not followed.
   */
  method OneImport(store: CheckpointStore, loki: LogStore, codec: Codec, labelsFor: (Profile, LogKind) -> Bytes,
                   ghost node: Node, day: Day, budget: nat)
    returns (prune: bool, covered: seq<CoveredFile>, ghost w: Work)
    requires InOrder(codec, Now(store, loki, node)) && DayOk(day)
    modifies store`sources, store`pending, store`blobs, store`capture, loki
    ensures InOrder(codec, Now(store, loki, node))
    ensures Worked(codec, old(Now(store, loki, node)), day, Now(store, loki, node), w)
    ensures old(loki.log) <= loki.log
    ensures prune ==> CoveredRows(covered, store.sources) && InitialDone(store.State())
  {
    hide Inv, TidyLog, SpoolOk, DayOk, RebuildIsSafe, Smooth, Planning.AllPlanned, AllSettled, CoveredRows, Progressed,
         PlanGood, InitialDone, ListingOk, Planning.DistinctIds, RunPlanned, KeysMatch, SameContents;
    ghost var a := Now(store, loki, node);
    if !RebuildIsSafe(codec, store.State(), day.stale, day.clock) {
      w := Work(a.db, Listing([], map[], map[], map[], map[]), [], a.log);
      NoWork(codec, a, day, w.l);
      return false, [], w;
    }
    var state := new ImportState(store, loki, codec, budget, labelsFor, false);
    var alive, smooth, clash;
    ghost var start, planned, probe, l, plans, done;
    alive, smooth, clash, start, planned, probe, l, plans, done := ImportGuestLogs(state, day);
    covered := state.covered;
    prune := alive && !state.failed && !state.pending && InitialDone(store.State());
    w := Work(start, l, done, state.floor);
  }

  /** One retention run within the campaign. */
  method OneRetention(store: CheckpointStore, ghost loki: LogStore, node: Node, codec: Codec, policy: Policy,
                      covered: seq<CoveredFile>, ghost vouchers0: seq<SourceRecord>)
    returns (ghost more: seq<SourceRecord>)
    requires InOrder(codec, Now(store, loki, node)) && policy.Sane()
    requires CoveredRows(covered, store.sources) && AllDelivered(codec, loki.log, node.deleted, vouchers0)
    modifies store`intents, node
    ensures InOrder(codec, Now(store, loki, node))
    ensures AllDelivered(codec, loki.log, node.deleted, vouchers0 + more)
    ensures |node.deleted| == |old(node.deleted)| + |more| && node.deleted[..|old(node.deleted)|] == old(node.deleted)
    ensures forall i :: |old(node.deleted)| <= i < |node.deleted| ==>
      RowThen(Now(store, loki, node), node.deleted[i], more[i - |old(node.deleted)|])
    ensures BooksKept(old(Now(store, loki, node)), Now(store, loki, node))
  {
    hide Inv, SpoolOk, KeysMatch, AllDelivered, GuestFiles.Matches, Archived, CoveredRows, TidyLog, Booked,
         DeletedBacked, DeletionsOf, LedgerOf;
    ghost var deleted, before := node.deleted, store.State();
    var run := new RetentionRun(store, node, policy);
    var measuredBefore: nat, measuredAfter: nat := *, *;
    var alive, result;
    ghost var measured;
    alive, result, measured := ApplyGuestRetention(run, covered, (measuredBefore, measuredAfter), codec, loki.log);
    assert node.deleted[|deleted|..] == DeletionsOf(run.exchanges);
    NamesTell(codec, loki.log, store.State());
    MoreVouched(codec, loki.log, deleted, node.deleted, vouchers0, store.sources);
    more := Vouchers(store.sources, node.deleted[|deleted|..]);
    Planning.SpoolStays(before, store.State());
  }

  lemma NamesTell(codec: Codec, log: seq<Body>, db: Db)
    requires Inv(codec, log, db)
    ensures forall id <- db.sources :: WireOk(db.sources[id].identity)
  {
    hide RowsOk, PendingOk, WireOk;
    forall id <- db.sources
      ensures WireOk(db.sources[id].identity)
    {
      assert TiedRow(db.capture, id, db.sources[id]);
    }
  }

  /**
   Any sequence of events from any state in order. At every moment of it the invariant holds; no event starts a row but
   a run that plans its file; and every file ever deleted was the exact file that its own row then vouched for, and
   held only bytes that can be read back from accepted bodies.
   */
  method Campaign(store: CheckpointStore, loki: LogStore, node: Node, codec: Codec,
                  labelsFor: (Profile, LogKind) -> Bytes, events: seq<Event>)
    returns (ghost vouchers: seq<SourceRecord>, ghost moments: seq<Moment>)
    requires InOrder(codec, Now(store, loki, node))
    requires forall e <- events :: EventOk(e)
    requires node.deleted == []
    modifies store, loki, node
    ensures |moments| == |events| + 1 && History(codec, events, moments)
    ensures moments[0] == old(Now(store, loki, node)) && moments[|events|] == Now(store, loki, node)
    ensures AllDelivered(codec, loki.log, node.deleted, vouchers) && FromMoments(moments, node.deleted, vouchers)
  {
    hide InOrder, DayOk, AllDelivered, CoveredRows, InitialDone, History, Worked, FromMoments, RowThen;
    vouchers, moments := [], [Now(store, loki, node)];
    NothingToVouch(codec, loki.log);
    OneMoment(codec, events, moments[0]);
    NoVouchers(moments);
    for i := 0 to |events|
      invariant |moments| == i + 1 && History(codec, events, moments)
      invariant moments[0] == old(Now(store, loki, node))
      invariant moments[i] == Now(store, loki, node) && InOrder(codec, moments[i])
      invariant AllDelivered(codec, loki.log, node.deleted, vouchers) && FromMoments(moments, node.deleted, vouchers)
    {
      assert EventOk(events[i]);
      ghost var a, deleted := moments[i], node.deleted;
      ghost var more := OneEvent(store, loki, node, codec, labelsFor, events[i], vouchers);
      ghost var b := Now(store, loki, node);
      NextMoment(codec, events, moments, b);
      MoreMoments(moments, b, deleted, node.deleted, vouchers, more);
      vouchers, moments := vouchers + more, moments + [b];
    }
  }

  lemma NoVouchers(moments: seq<Moment>)
    ensures FromMoments(moments, [], [])
  {
  }

  /** One event, with the rows that vouched for what it deleted. */
  method OneEvent(store: CheckpointStore, loki: LogStore, node: Node, codec: Codec,
                  labelsFor: (Profile, LogKind) -> Bytes, e: Event, ghost vouchers: seq<SourceRecord>)
    returns (ghost more: seq<SourceRecord>)
    requires InOrder(codec, Now(store, loki, node)) && EventOk(e)
    requires AllDelivered(codec, loki.log, node.deleted, vouchers)
    modifies store, loki, node
    ensures InOrder(codec, Now(store, loki, node))
    ensures Follows(codec, old(Now(store, loki, node)), e, Now(store, loki, node))
    ensures AllDelivered(codec, loki.log, node.deleted, vouchers + more)
    ensures |node.deleted| == |old(node.deleted)| + |more| && node.deleted[..|old(node.deleted)|] == old(node.deleted)
    ensures forall i :: |old(node.deleted)| <= i < |node.deleted| ==>
      RowThen(Now(store, loki, node), node.deleted[i], more[i - |old(node.deleted)|])
  {
    hide Inv, TidyLog, SpoolOk, KeysMatch, DayOk, AllDelivered, CoveredRows, InitialDone, Worked, RowThen, Purgeable,
         BooksKept;
    ghost var a := Now(store, loki, node);
    more := [];
    assert vouchers + [] == vouchers;
    match e
    case Maintain(day, budget, policy) =>
      var prune, covered;
      ghost var w;
      prune, covered, w := OneImport(store, loki, codec, labelsFor, node, day, budget);
      AllDeliveredStays(codec, a.log, loki.log, node.deleted, vouchers);
      ghost var b := Now(store, loki, node);
      if prune {
        more := OneRetention(store, loki, node, codec, policy, covered, vouchers);
        SameBooks(a, b, Now(store, loki, node));
      } else {
        NoBooks(a, b);
      }
      SameWork(codec, a, day, b, Now(store, loki, node), w);
    case RetentionOnly(policy) =>
      NothingCovered(store.sources);
      more := OneRetention(store, loki, node, codec, policy, [], vouchers);
    case GoneAbsent(id) =>
      var now: nat := *;
      if id in store.sources {
        AbsentKeeps(codec, loki.log, store.State(), id, now);
      }
      var marked := store.MarkSourceAbsent(id, now);
      TidySameProgress(loki.born, loki.log, a.db.sources, store.sources, store.pending);
      Planning.SpoolStays(a.db, store.State());
      assert marked ==> store.State() == Gone(a.db, id, now);
    case PurgeExpired(expired) =>
      PurgeKeeps(codec, loki.log, store.State(), expired);
      PurgeTidies(loki.born, loki.log, store.State(), expired);
      var purged := store.PurgeTombstones(expired);
      Planning.SpoolStays(a.db, store.State());
    case FilesChange(files) =>
      node.Change(files);
  }

  /** Pruning changes nothing that a run's work is told by. */
  lemma SameWork(codec: Codec, a: Moment, day: Day, b: Moment, c: Moment, w: Work)
    requires Worked(codec, a, day, b, w) && c.db.sources == b.db.sources && c.log == b.log && c.born == b.born
    ensures Worked(codec, a, day, c, w)
  {
    hide RunPlanned;
  }

  lemma SameBooks(a: Moment, b: Moment, c: Moment)
    requires BooksKept(b, c) && a.db.intents == b.db.intents && a.deleted == b.deleted && a.answers == b.answers
    ensures BooksKept(a, c)
  {
    hide Booked, DeletionsOf;
  }

  lemma PurgeTidies(born: map<Text, nat>, log: seq<Body>, db: Db, expired: set<Text>)
    requires TidyLog(born, log, db.sources, db.pending)
    ensures TidyLog(born, log, Purge(db, expired).sources, db.pending)
  {
    hide TidyLog, Purgeable;
    if db.pending.Some? {
      PendingIsKept(db, expired);
    } else {
      TidyRows(born, log, db.sources, Purge(db, expired).sources);
    }
  }

  /** A source never stands beyond the end of the content it counts in. */
  lemma OffsetWithinContent(codec: Codec, log: seq<Body>, db: Db, id: Text)
    requires Inv(codec, log, db) && id in db.sources
    ensures var r := db.sources[id];
      var base := Base(r, BlobContent(db, r));
      Planning.OffsetOf(db.sources, id) <= (if base.None? then 0
                                            else |codec.decoded(r.identity.compression, base.value)|)
  {
    hide Covered, Delivered;
    RowOfInv(codec, log, db, id);
  }
}
