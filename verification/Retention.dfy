/**
 The manager side of pruning: which files may be deleted, on what evidence, and how the node's outcomes settle the
 recorded intents and the totals a run reports.
 */
module Retention {
  import opened LogEntry
  import opened Sources
  import opened Tables
  import opened Delivery
  import opened Coverage
  import opened Checkpoint
  import opened Planner
  import opened Import
  import opened CaptureRun
  import opened GuestFiles
  import Run
  import F = Fragments
  import Json

  // ---- Policy --------------------------------------------------------------------------------------

  const UPID: Text := Json.Ascii("UPID:")

  /** A name that must never be pruned. */
  predicate ProtectedName(path: Text, kind: LogKind) {
    match kind
    case TaskIndex => true
    case Application => !IsNpmArchiveName(Basename(path))
    case Task => !(UPID <= Basename(path))
    case Api => !IsPbsApiArchiveName(Basename(path))
  }

  /**
   What one retention run goes by: the log root of a path and the quarantine path of an allowlisted file (None
   outside the allowlist), the profiles whose archives may be touched, and the time before which files are due.
   */
  datatype Policy = Policy(rootFor: Text -> Option<Text>, quarantineFor: Text -> Option<Text>, profiles: set<Profile>,
                           cutoffNs: int)
  {
    ghost predicate Sane() {
      forall path: Text :: quarantineFor(path).Some? ==> quarantineFor(path).value != path
    }
  }

  /** The exact identity of a settled deletion. */
  datatype Owned = Owned(path: Text, device: nat, inode: nat, size: nat, mtimeNs: nat, sha256: Digest)

  function OwnedBy(wire: Wire, sha256: Digest): Owned {
    Owned(wire.path, wire.device, wire.inode, wire.size, wire.mtimeNs, sha256)
  }

  predicate SameStat(a: Wire, b: Wire) {
    (a.device, a.inode, a.size, a.mtimeNs) == (b.device, b.inode, b.size, b.mtimeNs)
  }

  // ---- Candidates ----------------------------------------------------------------------------------

  /** A covered file that is closed, old enough, unprotected and still the very file that was covered. */
  predicate Prunable(policy: Policy, probe: map<Text, Wire>, c: CoveredFile) {
    && c.wire.profile in policy.profiles
    && !ProtectedName(c.wire.path, c.wire.logKind)
    && !c.wire.isActive
    && c.wire.mtimeNs < policy.cutoffNs
    && c.wire.path in probe
    && SameStat(probe[c.wire.path], c.wire)
    && !probe[c.wire.path].isActive
    && policy.quarantineFor(c.wire.path).Some?
  }

  function SpecFor(policy: Policy, c: CoveredFile): PruneSpec {
    var quarantine := policy.quarantineFor(c.wire.path);
    PruneSpec(c.wire, c.sha256, if quarantine.Some? then quarantine.value else [],
              if c.sourceId == [] then None else Some(c.sourceId), false)
  }

  /** The requests for the prunable files, in order. */
  function CandidatesOf(policy: Policy, probe: map<Text, Wire>, covered: seq<CoveredFile>): (r: seq<PruneSpec>) {
    if covered == [] then []
    else
      var last := covered[|covered| - 1];
      CandidatesOf(policy, probe, covered[..|covered| - 1])
      + (if Prunable(policy, probe, last) then [SpecFor(policy, last)] else [])
  }

  /** Walk the covered files; anything that is not certain is left alone. */
  method PlanPruneCandidates(policy: Policy, probeFiles: seq<Wire>, covered: seq<CoveredFile>, owned: set<Owned>)
    returns (candidates: seq<PruneSpec>, findings: nat)
    ensures candidates == CandidatesOf(policy, ByPath(probeFiles), covered)
  {
    candidates, findings := [], 0;
    var probe := ByPath(probeFiles);
    for i := 0 to |covered|
      invariant candidates == CandidatesOf(policy, probe, covered[..i])
    {
      assert covered[..i + 1][..i] == covered[..i];
      var c := covered[i];
      if c.wire.profile !in policy.profiles {
        findings := findings + 1;
        continue;
      }
      if ProtectedName(c.wire.path, c.wire.logKind) || c.wire.isActive || c.wire.mtimeNs >= policy.cutoffNs {
        continue;
      }
      if c.wire.path !in probe {
        findings := findings + (if OwnedBy(c.wire, c.sha256) in owned then 0 else 1);
        continue;
      }
      if !SameStat(probe[c.wire.path], c.wire) {
        findings := findings + 1;
        continue;
      }
      if probe[c.wire.path].isActive {
        continue;
      }
      if policy.quarantineFor(c.wire.path).None? {
        findings := findings + 1;
        continue;
      }
      candidates := candidates + [SpecFor(policy, c)];
    }
    assert covered[..|covered|] == covered;
  }

  /** The probe by path; a later entry for the same path replaces an earlier one. */
  function ByPath(files: seq<Wire>): map<Text, Wire> {
    if files == [] then map[] else ByPath(files[..|files| - 1])[files[|files| - 1].path := files[|files| - 1]]
  }

  /** Candidates are requests for prunable files, and every prunable file has one. */
  lemma {:induction false} CandidatesExact(policy: Policy, probe: map<Text, Wire>, covered: seq<CoveredFile>)
    ensures forall spec <- CandidatesOf(policy, probe, covered) ::
      exists c <- covered :: Prunable(policy, probe, c) && spec == SpecFor(policy, c)
    ensures forall c <- covered :: Prunable(policy, probe, c) ==>
      SpecFor(policy, c) in CandidatesOf(policy, probe, covered)
  {
    hide Prunable, SpecFor;
    if covered != [] {
      var shorter, last := covered[..|covered| - 1], covered[|covered| - 1];
      CandidatesExact(policy, probe, shorter);
      assert covered == shorter + [last];
      forall spec <- CandidatesOf(policy, probe, covered)
        ensures exists c <- covered :: Prunable(policy, probe, c) && spec == SpecFor(policy, c)
      {
        if spec in CandidatesOf(policy, probe, shorter) {
          var c :| c in shorter && Prunable(policy, probe, c) && spec == SpecFor(policy, c);
          assert c in covered;
        } else {
          assert last in covered;
        }
      }
    }
  }

  // ---- Authority -----------------------------------------------------------------------------------

  /** The stored evidence for a deletion: acknowledged coverage of exactly this file. */
  predicate Backs(r: SourceRecord, spec: PruneSpec) {
    && r.acknowledged
    && r.digest == Some(spec.sha256)
    && r.provenance.completeSize == spec.wire.size
    && SameStat(r.identity, spec.wire)
  }

  predicate Backed(sources: map<Text, SourceRecord>, spec: PruneSpec) {
    spec.sourceId.Some? && spec.sourceId.value in sources && Backs(sources[spec.sourceId.value], spec)
  }

  /** The row vouches for the request: it backs it, and the file is compressed as the row's file is. */
  predicate Vouched(sources: map<Text, SourceRecord>, spec: PruneSpec) {
    Backed(sources, spec) && sources[spec.sourceId.value].identity.compression == spec.wire.compression
  }

  /** A backed request for a file that an import reported as covered is vouched for. */
  lemma CoveredIsVouched(policy: Policy, probe: map<Text, Wire>, covered: seq<CoveredFile>,
                         sources: map<Text, SourceRecord>)
    requires Run.CoveredRows(covered, sources)
    ensures forall spec <- CandidatesOf(policy, probe, covered) :: Backed(sources, spec) ==> Vouched(sources, spec)
  {
    hide Prunable, Backs;
    CandidatesExact(policy, probe, covered);
    forall spec <- CandidatesOf(policy, probe, covered) | Backed(sources, spec)
      ensures Vouched(sources, spec)
    {
      var c :| c in covered && Prunable(policy, probe, c) && spec == SpecFor(policy, c);
    }
  }

  /** Nothing is deleted before the frozen history is acknowledged in full. */
  predicate ManifestGate(db: Db) {
    && db.pending.None?
    && (forall id <- db.sources :: db.sources[id].inInitialManifest ==> db.sources[id].acknowledged)
    && ((exists id <- db.sources :: db.sources[id].inInitialManifest) ==> CaptureDone(db))
  }

  /**
   One row of the initial manifest that is never acknowledged withholds every deletion of the guest, whoever asks
   and however often: nothing but a completion or an accepted last batch acknowledges a row.
   */
  lemma UnacknowledgedWithholdsAll(planned: Db, db: Db, p: FilePlan)
    requires PlanOk(planned, p) && Run.Stranded(planned, p) && planned.sources[p.sourceId].inInitialManifest
    requires p.sourceId in db.sources && db.sources[p.sourceId] == planned.sources[p.sourceId]
    ensures !ManifestGate(db)
  {
    hide PlanOk;
    Run.ReadsNothingExactly(planned, p);
  }

  /**
   One decision for a whole batch: either every candidate is backed by its row, or nothing is authorised. The
   other gates (guest, endpoint, policies, delivery proof, service health) can only withhold.
   */
  method AuthorizeDeletion(store: CheckpointStore, policy: Policy, probeFiles: seq<Wire>, covered: seq<CoveredFile>,
                           owned: set<Owned>)
    returns (authorised: bool, candidates: seq<PruneSpec>)
    requires Run.CoveredRows(covered, store.sources)
    ensures authorised ==>
      && ManifestGate(store.State())
      && candidates == CandidatesOf(policy, ByPath(probeFiles), covered)
      && forall spec <- candidates :: Vouched(store.sources, spec)
    ensures !authorised ==> candidates == []
  {
    var gates: bool := *;
    if !gates || !ManifestGate(store.State()) {
      return false, [];
    }
    var findings;
    candidates, findings := PlanPruneCandidates(policy, probeFiles, covered, owned);
    CoveredIsVouched(policy, ByPath(probeFiles), covered, store.sources);
    for i := 0 to |candidates|
      invariant forall j :: 0 <= j < i ==> Backed(store.sources, candidates[j])
    {
      if !Backed(store.sources, candidates[i]) {
        return false, [];
      }
    }
    var healthy: bool := *;
    return healthy, if healthy then candidates else [];
  }

  /** The evidence a recovery needs: everything a fresh deletion needs, in the row's own namespace. */
  predicate Recoverable(policy: Policy, sources: map<Text, SourceRecord>, intent: PruneIntent) {
    && intent.sourceId.Some? && intent.sourceId.value in sources
    && intent.digest.Some?
    && policy.quarantineFor(intent.path) == Some(intent.quarantinePath)
    && var r := sources[intent.sourceId.value];
       && r.identity.profile in policy.profiles
       && r.acknowledged && r.digest == intent.digest
       && r.provenance.complete && !r.provenance.coverageConflict
       && r.provenance.completeSize == intent.size
       && (r.identity.device, r.identity.inode, r.identity.size, r.identity.mtimeNs)
          == (intent.device, intent.inode, intent.size, intent.mtimeNs)
       && !r.identity.isActive
       && !ProtectedName(intent.path, r.identity.logKind)
       && policy.rootFor(CanonicalPath(r)) == policy.rootFor(intent.path)
       && SameLogicalSource(r.identity.profile, r.identity.logKind, CanonicalPath(r), intent.path)
  }

  function RecoverySpec(r: SourceRecord, intent: PruneIntent): PruneSpec
    requires intent.digest.Some?
  {
    PruneSpec(Wire(intent.path, intent.device, intent.inode, intent.size, intent.mtimeNs, r.identity.allocatedBytes,
                   r.identity.compression, r.identity.profile, r.identity.logKind, r.identity.isActive),
              intent.digest.value, intent.quarantinePath, intent.sourceId, true)
  }

  /** A recovery request is vouched for by the very row that backed the intent. */
  lemma RecoveryIsBacked(policy: Policy, sources: map<Text, SourceRecord>, intent: PruneIntent)
    requires Recoverable(policy, sources, intent)
    ensures Vouched(sources, RecoverySpec(sources[intent.sourceId.value], intent))
  {
    hide SameLogicalSource;
  }

  /**
   End to end: a file deleted for a request its row vouches for decodes to its end, and holds no byte that cannot be
   read back from the log store, through whatever appends, renames, inode reuse, replacements and crashes the row was
   reached.
   */
  lemma DeletedWasDelivered(codec: Codec, log: seq<Body>, db: Db, spec: PruneSpec, f: NodeFile)
    requires Inv(codec, log, db) && Vouched(db.sources, spec) && Matches(spec, f)
    ensures Archived(codec, log, spec.wire.compression, f.content)
  {
    hide Inv, Archived;
    DigestOfCompletedSizeIsDelivered(codec, log, db, spec.sourceId.value, f.content);
  }

  // ---- Outcomes ------------------------------------------------------------------------------------

  /** An intent and the request made for it. */
  datatype Request = Request(key: IntentKey, spec: PruneSpec)

  /** What one outcome does: leave the intent as it is, or settle it. */
  datatype Verdict = Retained | Settled(state: IntentState, reclaimed: nat, paused: bool)

  /** A missing or malformed outcome is None. Only an outcome for exactly the requested file can settle anything. */
  function Judge(spec: PruneSpec, outcome: Option<Outcome>): Verdict {
    if outcome.None? || outcome.value.wire != spec.wire then Retained
    else
      match outcome.value.state
      case OutcomeDone => Settled(Done, outcome.value.reclaimed, outcome.value.paused)
      case OutcomeRestored => Settled(Restored, 0, false)
      case OutcomeAbsent => if spec.recovery then Settled(Absent, 0, false) else Retained
      case OutcomeConflict => Settled(IntentState.Conflict, 0, false)
      case _ => Retained
  }

  /** The outcome at a position; the node answers in order. */
  function At(outcomes: seq<Option<Outcome>>, i: nat): Option<Outcome> {
    if i < |outcomes| then outcomes[i] else None
  }

  datatype Settlement = Settlement(key: IntentKey, state: IntentState, reclaimed: nat)

  /** The settlements of a batch, position by position. */
  function Settlements(batch: seq<Request>, outcomes: seq<Option<Outcome>>): seq<Settlement> {
    if batch == [] then []
    else
      var n := |batch| - 1;
      var verdict := Judge(batch[n].spec, At(outcomes, n));
      Settlements(batch[..n], outcomes)
      + (if verdict.Settled? then [Settlement(batch[n].key, verdict.state, verdict.reclaimed)] else [])
  }

  function DoneCount(ledger: seq<Settlement>): nat {
    if ledger == [] then 0
    else DoneCount(ledger[..|ledger| - 1]) + (if ledger[|ledger| - 1].state == Done then 1 else 0)
  }

  function DoneBytes(ledger: seq<Settlement>): nat {
    if ledger == [] then 0
    else
      var last := ledger[|ledger| - 1];
      DoneBytes(ledger[..|ledger| - 1]) + (if last.state == Done then last.reclaimed else 0)
  }

  lemma {:induction false} LedgerSums(a: seq<Settlement>, b: seq<Settlement>)
    ensures DoneCount(a + b) == DoneCount(a) + DoneCount(b)
    ensures DoneBytes(a + b) == DoneBytes(a) + DoneBytes(b)
  {
    if b == [] {
      assert a + b == a;
    } else {
      LedgerSums(a, b[..|b| - 1]);
      assert (a + b)[..|a + b| - 1] == a + b[..|b| - 1];
    }
  }

  predicate KeysKnown(intents: map<IntentKey, PruneIntent>, batch: seq<Request>) {
    forall r <- batch :: r.key in intents
  }

  /** The intents after the settlements: state and bytes replaced, everything else as it was. */
  ghost predicate SettledBy(before: map<IntentKey, PruneIntent>, after: map<IntentKey, PruneIntent>,
                            ledger: seq<Settlement>) {
    && before.Keys == after.Keys
    && forall k <- before ::
         && after[k] == before[k].(state := after[k].state, reclaimedBytes := after[k].reclaimedBytes,
                                   detail := after[k].detail)
         && var last := LastFor(ledger, k);
            if last.None? then after[k] == before[k]
            else (after[k].state, after[k].reclaimedBytes) == (last.value.state, last.value.reclaimed)
  }

  /** The last settlement of an intent, if any. */
  function LastFor(ledger: seq<Settlement>, k: IntentKey): Option<Settlement> {
    if ledger == [] then None
    else if ledger[|ledger| - 1].key == k then Some(ledger[|ledger| - 1])
    else LastFor(ledger[..|ledger| - 1], k)
  }

  lemma SettleOne(before: map<IntentKey, PruneIntent>, middle: map<IntentKey, PruneIntent>, ledger: seq<Settlement>,
                  s: Settlement, detail: Text)
    requires SettledBy(before, middle, ledger) && s.key in middle
    ensures SettledBy(before, ResolveIntent(middle, s.key, s.state, s.reclaimed, detail), ledger + [s])
  {
    assert (ledger + [s])[..|ledger|] == ledger;
  }

  /** Whether an outcome makes the run report failure: it settled nothing, or the node paused after it. */
  predicate Troubled(spec: PruneSpec, outcome: Option<Outcome>) {
    var verdict := Judge(spec, outcome);
    verdict.Retained? || verdict.paused
  }

  function IntentOf(spec: PruneSpec): PruneIntent {
    PruneIntent(spec.wire.path, spec.quarantine, spec.wire.device, spec.wire.inode, spec.wire.size, spec.wire.mtimeNs,
                spec.sourceId, Some(spec.sha256), Pending, [], 0)
  }

  /** Identities whose absence is explained from now on. */
  function OwnedOf(batch: seq<Request>, outcomes: seq<Option<Outcome>>): set<Owned> {
    if batch == [] then {}
    else
      var n := |batch| - 1;
      var verdict := Judge(batch[n].spec, At(outcomes, n));
      OwnedOf(batch[..n], outcomes)
      + (if verdict.Settled? && verdict.state in {Done, Absent} then {OwnedBy(batch[n].spec.wire, batch[n].spec.sha256)}
         else {})
  }

  predicate KeysMatch(intents: map<IntentKey, PruneIntent>) {
    forall k <- intents :: KeyOf(intents[k]) == k
  }

  lemma ResolvingKeepsKeys(intents: map<IntentKey, PruneIntent>, key: IntentKey, s: Settlement, detail: Text)
    requires key in intents
    ensures KeysMatch(intents) ==> KeysMatch(ResolveIntent(intents, key, s.state, s.reclaimed, detail))
  {
  }

  lemma NothingSettled(intents: map<IntentKey, PruneIntent>, batch: seq<Request>, outcomes: seq<Option<Outcome>>)
    ensures Settlements(batch[..0], outcomes) == [] && SettledBy(intents, intents, [])
    ensures DoneBytes(Settlements(batch[..0], outcomes)) == 0 && DoneCount(Settlements(batch[..0], outcomes)) == 0
    ensures OwnedOf(batch[..0], outcomes) == {}
  {
  }

  lemma KnownKey(intents: map<IntentKey, PruneIntent>, key: IntentKey, s: Settlement, detail: Text)
    requires key in intents
    ensures ResolveIntent(intents, key, s.state, s.reclaimed, detail).Keys == intents.Keys
  {
  }

  /** What the outcome at one position adds. */
  lemma SettlementsStep(batch: seq<Request>, outcomes: seq<Option<Outcome>>, i: nat)
    requires i < |batch|
    ensures var verdict := Judge(batch[i].spec, At(outcomes, i));
      var before, after := Settlements(batch[..i], outcomes), Settlements(batch[..i + 1], outcomes);
      && (verdict.Retained? ==> after == before && OwnedOf(batch[..i + 1], outcomes) == OwnedOf(batch[..i], outcomes))
      && (verdict.Settled? ==>
            && verdict.state != Pending
            && after == before + [Settlement(batch[i].key, verdict.state, verdict.reclaimed)]
            && DoneCount(after) == DoneCount(before) + (if verdict.state == Done then 1 else 0)
            && DoneBytes(after) == DoneBytes(before) + (if verdict.state == Done then verdict.reclaimed else 0)
            && OwnedOf(batch[..i + 1], outcomes)
               == OwnedOf(batch[..i], outcomes)
                  + (if verdict.state in {Done, Absent} then {OwnedBy(batch[i].spec.wire, batch[i].spec.sha256)}
                     else {}))
  {
    hide Judge;
    JudgeSettles(batch[i].spec, At(outcomes, i));
    assert batch[..i + 1][..i] == batch[..i];
    var before, after := Settlements(batch[..i], outcomes), Settlements(batch[..i + 1], outcomes);
    if Judge(batch[i].spec, At(outcomes, i)).Settled? {
      assert after[..|after| - 1] == before;
    }
  }

  lemma JudgeSettles(spec: PruneSpec, outcome: Option<Outcome>)
    ensures Judge(spec, outcome).Settled? ==> Judge(spec, outcome).state != Pending
  {
  }

  lemma {:induction false} SettlementsGrow(batch: seq<Request>, outcomes: seq<Option<Outcome>>, i: nat)
    requires i <= |batch|
    ensures Settlements(batch[..i], outcomes) <= Settlements(batch, outcomes)
    decreases |batch|
  {
    hide Judge;
    if i == |batch| {
      assert batch[..i] == batch;
    } else {
      SettlementsGrow(batch[..|batch| - 1], outcomes, i);
      assert batch[..|batch| - 1][..i] == batch[..i];
    }
  }

  /**
   One batch as the node met it: the requests, its answer, the files it found and those it left, and what it deleted. A
   lost answer is empty.
   */
  datatype Exchange = Exchange(batch: seq<Request>, outcomes: seq<Option<Outcome>>, found: map<Text, NodeFile>,
                               left: map<Text, NodeFile>, deletions: seq<Deletion>)

  function SpecsOf(batch: seq<Request>): (specs: seq<PruneSpec>)
    ensures |specs| == |batch| && forall i :: 0 <= i < |batch| ==> specs[i] == batch[i].spec
  {
    seq(|batch|, i requires 0 <= i < |batch| => batch[i].spec)
  }

  /**
   The node kept to the batch: it deleted requested files only, and nothing else is lost or touched; and whatever is
   settled as done it did delete.
   */
  ghost predicate Faithful(x: Exchange) {
    && Conserved(x.found, x.left, x.deletions) && Elsewhere(x.found, x.left, SpecsOf(x.batch))
    && (forall d <- x.deletions :: d.spec in SpecsOf(x.batch) && Matches(d.spec, d.file))
    && (forall i :: 0 <= i < |x.outcomes| && x.outcomes[i].Some? && x.outcomes[i].value.state == OutcomeDone ==>
          i < |x.batch| && DeletedFor(x.deletions, x.batch[i].spec))
    && DoneCount(Settlements(x.batch, x.outcomes)) <= |x.deletions|
  }

  /** The exchanges have the answers that the node gave, in order. */
  predicate Answered(exchanges: seq<Exchange>, answers: seq<Answer>) {
    |answers| == |exchanges| && forall i :: 0 <= i < |exchanges| ==> Heard(exchanges[i], answers[i])
  }

  predicate Heard(x: Exchange, a: Answer) {
    a.specs == SpecsOf(x.batch) && x.outcomes == (if a.lost then [] else Wrapped(a.outcomes))
  }

  lemma OneMoreAnswer(exchanges: seq<Exchange>, asked: seq<Answer>, answers: seq<Answer>, x: Exchange, a: Answer)
    requires asked <= answers && Answered(exchanges, answers[|asked|..]) && Heard(x, a)
    ensures asked <= answers + [a] && Answered(exchanges + [x], (answers + [a])[|asked|..])
  {
    hide Heard;
    assert (answers + [a])[|asked|..] == answers[|asked|..] + [a];
  }

  /** All that the exchanges settle. */
  ghost function LedgerOf(exchanges: seq<Exchange>): seq<Settlement> {
    if exchanges == [] then []
    else
      var last := exchanges[|exchanges| - 1];
      LedgerOf(exchanges[..|exchanges| - 1]) + Settlements(last.batch, last.outcomes)
  }

  /** All that the node deleted in them. */
  ghost function DeletionsOf(exchanges: seq<Exchange>): seq<Deletion> {
    if exchanges == [] then []
    else DeletionsOf(exchanges[..|exchanges| - 1]) + exchanges[|exchanges| - 1].deletions
  }

  predicate LedgerKnown(intents: map<IntentKey, PruneIntent>, ledger: seq<Settlement>) {
    forall s <- ledger :: s.key in intents
  }

  /**
   The books of a run: the intents are those it began with and those it recorded, pending, for its requests, changed by
   exactly what it settled; it settled nothing but what the node answered; and what the node deleted it deleted in the
   run's exchanges.
   */
  ghost predicate Booked(first: map<IntentKey, PruneIntent>, recorded: map<IntentKey, PruneIntent>,
                         requested: seq<PruneSpec>, now: map<IntentKey, PruneIntent>, ledger: seq<Settlement>,
                         exchanges: seq<Exchange>)
  {
    && Recorded(first, recorded, requested)
    && LedgerKnown(recorded, ledger) && SettledBy(recorded, now, ledger)
    && ledger <= LedgerOf(exchanges)
    && forall x <- exchanges :: Faithful(x)
  }

  /** One retention run: the deletions it has answered for, and its books. */
  class RetentionRun {
    const store: CheckpointStore
    const node: Node
    const policy: Policy
    var owned: set<Owned>
    ghost var recorded: map<IntentKey, PruneIntent>
    ghost var requested: seq<PruneSpec>
    ghost var ledger: seq<Settlement>
    ghost var exchanges: seq<Exchange>
    ghost const asked: seq<Answer>

    constructor (store: CheckpointStore, node: Node, policy: Policy)
      ensures this.store == store && this.node == node && this.policy == policy && fresh(this)
      ensures Unwritten()
    {
      this.store, this.node, this.policy, owned := store, node, policy, {};
      recorded, requested, ledger, exchanges := store.intents, [], [], [];
      asked := node.answers;
    }

    /** Nothing is booked yet. */
    ghost predicate Unwritten()
      reads this, store, node
    {
      recorded == store.intents && requested == [] && ledger == [] && exchanges == [] && asked == node.answers
    }

    /**
     The books are in order, since the store held these intents and the node had made these deletions: the exchanges
     are the ones in which it was asked and answered.
     */
    ghost predicate BooksOk(first: map<IntentKey, PruneIntent>, deleted: seq<Deletion>)
      reads this, store, node
    {
      && Booked(first, recorded, requested, store.intents, ledger, exchanges) && KeysMatch(store.intents)
      && node.deleted == deleted + DeletionsOf(exchanges)
      && asked <= node.answers && Answered(exchanges, node.answers[|asked|..])
      && DeletedBacked(store.sources, DeletionsOf(exchanges))
      && forall spec <- requested :: Vouched(store.sources, spec)
    }

    /** And everything the node answered has been settled. */
    ghost predicate Balanced(first: map<IntentKey, PruneIntent>, deleted: seq<Deletion>)
      reads this, store, node
    {
      BooksOk(first, deleted) && ledger == LedgerOf(exchanges)
    }

    /** Settle one intent, in the store and in the books. */
    method SettleRequest(request: Request, verdict: Verdict) returns (alive: bool)
      requires verdict.Settled? && verdict.state != Pending && request.key in store.intents
      modifies this`owned, this`ledger, store`intents
      ensures ledger == old(ledger) + [Settlement(request.key, verdict.state, verdict.reclaimed)]
      ensures request.key in store.intents && store.intents.Keys == old(store.intents).Keys
      ensures store.intents == ResolveIntent(old(store.intents), request.key, verdict.state, verdict.reclaimed,
                                             store.intents[request.key].detail)
      ensures KeysMatch(old(store.intents)) ==> KeysMatch(store.intents)
      ensures alive ==>
        owned == old(owned) + (if verdict.state in {Done, Absent} then {OwnedBy(request.spec.wire, request.spec.sha256)}
                               else {})
    {
      var detail: Text := *;
      ghost var s := Settlement(request.key, verdict.state, verdict.reclaimed);
      KnownKey(store.intents, request.key, s, detail);
      ResolvingKeepsKeys(store.intents, request.key, s, detail);
      var ok := store.ResolvePruneIntent(request.key, verdict.state, verdict.reclaimed, detail);
      ledger := ledger + [s];
      if * {
        return false;
      }
      if verdict.state in {Done, Absent} {
        owned := owned + {OwnedBy(request.spec.wire, request.spec.sha256)};
      }
      alive := true;
    }

    /**
     Settle the intents of a batch by the node's outcomes, position by position. Nothing is settled but by an
     outcome for exactly the requested file, and an absence only settles a proven recovery. If the process dies on the
     way, what was settled is the beginning of it.
     */
    method ResolveOutcomes(batch: seq<Request>, outcomes: seq<Option<Outcome>>)
      returns (alive: bool, bytes: nat, files: nat, failed: bool)
      requires KeysKnown(store.intents, batch)
      modifies this`owned, this`ledger, store`intents
      ensures old(ledger) <= ledger <= old(ledger) + Settlements(batch, outcomes)
      ensures SettledBy(old(store.intents), store.intents, ledger[|old(ledger)|..])
      ensures alive ==>
        && ledger == old(ledger) + Settlements(batch, outcomes)
        && bytes == DoneBytes(Settlements(batch, outcomes)) && files == DoneCount(Settlements(batch, outcomes))
        && owned == old(owned) + OwnedOf(batch, outcomes)
        && (failed <==>
              |outcomes| > |batch| || exists i :: 0 <= i < |batch| && Troubled(batch[i].spec, At(outcomes, i)))
      ensures store.intents.Keys == old(store.intents).Keys
      ensures KeysMatch(old(store.intents)) ==> KeysMatch(store.intents)
    {
      hide KeysMatch, Judge, Settlements, OwnedOf, DoneCount, DoneBytes, SettledBy, ResolveIntent;
      bytes, files, failed := 0, 0, false;
      NothingSettled(store.intents, batch, outcomes);
      ghost var ledger0 := ledger;
      assert ledger0 + [] == ledger0;
      for i := 0 to |batch|
        invariant ledger == ledger0 + Settlements(batch[..i], outcomes)
        invariant SettledBy(old(store.intents), store.intents, Settlements(batch[..i], outcomes))
        invariant store.intents.Keys == old(store.intents).Keys
        invariant KeysMatch(old(store.intents)) ==> KeysMatch(store.intents)
        invariant bytes == DoneBytes(Settlements(batch[..i], outcomes))
               && files == DoneCount(Settlements(batch[..i], outcomes))
        invariant owned == old(owned) + OwnedOf(batch[..i], outcomes)
        invariant failed <==> exists j :: 0 <= j < i && Troubled(batch[j].spec, At(outcomes, j))
      {
        SettlementsStep(batch, outcomes, i);
        var request := batch[i];
        var verdict := Judge(request.spec, At(outcomes, i));
        if verdict.Retained? || verdict.paused {
          assert Troubled(batch[i].spec, At(outcomes, i));
          failed := true;
        }
        if verdict.Settled? {
          ghost var now, done := store.intents, Settlements(batch[..i], outcomes);
          ghost var s := Settlement(request.key, verdict.state, verdict.reclaimed);
          var settled := SettleRequest(request, verdict);
          SettleOne(old(store.intents), now, done, s, store.intents[request.key].detail);
          assert ledger[|ledger0|..] == Settlements(batch[..i + 1], outcomes);
          if !settled {
            SettlementsGrow(batch, outcomes, i + 1);
            return false, bytes, files, true;
          }
          if verdict.state == Done {
            bytes, files := bytes + verdict.reclaimed, files + 1;
          }
        }
      }
      assert batch[..|batch|] == batch;
      assert ledger[|ledger0|..] == Settlements(batch, outcomes);
      failed := failed || |outcomes| > |batch|;
      alive := true;
    }
  }

  /** What one settlement rests on: an outcome at its own position, for exactly the file of its own request. */
  predicate Grounded(batch: seq<Request>, outcomes: seq<Option<Outcome>>, s: Settlement, i: nat) {
    && i < |batch| && i < |outcomes| && batch[i].key == s.key
    && outcomes[i].Some? && outcomes[i].value.wire == batch[i].spec.wire
    && match s.state
       case Done => outcomes[i].value.state == OutcomeDone && s.reclaimed == outcomes[i].value.reclaimed
       case Restored => outcomes[i].value.state == OutcomeRestored && s.reclaimed == 0
       case Absent => outcomes[i].value.state == OutcomeAbsent && batch[i].spec.recovery && s.reclaimed == 0
       case Conflict => outcomes[i].value.state == OutcomeConflict && s.reclaimed == 0
       case Pending => false
  }

  /** Nothing is settled without grounds; so an intent without a matching outcome stays as it was. */
  lemma {:induction false} SettledOnGrounds(batch: seq<Request>, outcomes: seq<Option<Outcome>>)
    ensures forall s <- Settlements(batch, outcomes) :: exists i: nat :: Grounded(batch, outcomes, s, i)
  {
    if batch != [] {
      var n := |batch| - 1;
      SettledOnGrounds(batch[..n], outcomes);
      forall s <- Settlements(batch, outcomes)
        ensures exists i: nat :: Grounded(batch, outcomes, s, i)
      {
        if s in Settlements(batch[..n], outcomes) {
          var i: nat :| Grounded(batch[..n], outcomes, s, i);
          assert Grounded(batch, outcomes, s, i);
        } else {
          assert Grounded(batch, outcomes, s, n);
        }
      }
    }
  }

  lemma {:induction false} LastIsMember(ledger: seq<Settlement>, k: IntentKey)
    ensures LastFor(ledger, k).Some? ==> LastFor(ledger, k).value in ledger && LastFor(ledger, k).value.key == k
  {
    if ledger != [] {
      LastIsMember(ledger[..|ledger| - 1], k);
    }
  }

  /** An intent that no outcome was given for is untouched. */
  lemma UnmatchedStays(before: map<IntentKey, PruneIntent>, after: map<IntentKey, PruneIntent>, batch: seq<Request>,
                       outcomes: seq<Option<Outcome>>, k: IntentKey)
    requires SettledBy(before, after, Settlements(batch, outcomes)) && k in before
    requires forall i :: 0 <= i < |batch| && i < |outcomes| && batch[i].key == k ==>
      outcomes[i].None? || outcomes[i].value.wire != batch[i].spec.wire
    ensures after[k] == before[k]
  {
    hide Settlements, LastFor;
    SettledOnGrounds(batch, outcomes);
    LastIsMember(Settlements(batch, outcomes), k);
  }

  // ---- Recording and running a batch ---------------------------------------------------------------

  /** The requests of a batch are known, safe to quarantine, and each is vouched for by its row. */
  predicate BatchReady(store: CheckpointStore, batch: seq<Request>)
    reads store
  {
    && KeysKnown(store.intents, batch)
    && forall r <- batch :: r.spec.quarantine != r.spec.wire.path && Vouched(store.sources, r.spec)
  }

  /** Intents already stored are untouched; the others are new, pending, and record exactly their request. */
  ghost predicate Recorded(before: map<IntentKey, PruneIntent>, after: map<IntentKey, PruneIntent>,
                           specs: seq<PruneSpec>) {
    && (forall k <- before :: k in after && after[k] == before[k])
    && (forall k <- after ::
          k in before || exists spec <- specs :: KeyOf(IntentOf(spec)) == k && after[k] == IntentOf(spec))
  }

  /**
   Persist an intent for every candidate before the node is asked for anything. The id says nothing of size, time
   or digest: for a path and inode seen before, the stored row stands in, in whatever state it is.
   */
  method RecordPruneIntents(store: CheckpointStore, candidates: seq<PruneSpec>)
    returns (alive: bool, batch: seq<Request>)
    modifies store`intents
    ensures Recorded(old(store.intents), store.intents, candidates)
    ensures alive ==>
      && |batch| == |candidates|
      && (forall i :: 0 <= i < |batch| ==> batch[i] == Request(KeyOf(IntentOf(candidates[i])), candidates[i]))
      && KeysKnown(store.intents, batch)
    ensures alive ==> forall r <- batch ::
      store.intents[r.key].state == Pending <==>
        (r.key !in old(store.intents) || old(store.intents)[r.key].state == Pending)
  {
    batch := [];
    for i := 0 to |candidates|
      invariant Recorded(old(store.intents), store.intents, candidates)
      invariant |batch| == i
      invariant forall j :: 0 <= j < i ==> batch[j] == Request(KeyOf(IntentOf(candidates[j])), candidates[j])
      invariant KeysKnown(store.intents, batch)
    {
      var intent := IntentOf(candidates[i]);
      var ok := store.RecordPruneIntent(intent);
      if !ok {
        return false, batch;
      }
      if * {
        return false, batch;
      }
      batch := batch + [Request(KeyOf(intent), candidates[i])];
    }
    alive := true;
  }

  /**
   Whether the deletion asked for is still seen if the process dies before it is answered: exactly when the path and
   inode are new or their intent was open already. A repeat of a settled one goes out all the same, and no later run
   looks for what became of it.
   */
  lemma SeenAgainExactly(before: map<IntentKey, PruneIntent>, after: map<IntentKey, PruneIntent>,
                         candidates: seq<PruneSpec>, batch: seq<Request>, i: nat)
    requires Recorded(before, after, candidates) && KeysKnown(after, batch) && i < |batch| == |candidates|
    requires batch[i] == Request(KeyOf(IntentOf(candidates[i])), candidates[i])
    ensures IsOpen(after[batch[i].key]) <==> batch[i].key !in before || IsOpen(before[batch[i].key])
  {
    assert batch[i] in batch;
  }

  /** Whatever the node deleted since was the exact file of a request that its row vouches for. */
  ghost predicate DeletedBacked(sources: map<Text, SourceRecord>, deletions: seq<Deletion>) {
    forall d <- deletions :: Vouched(sources, d.spec) && Matches(d.spec, d.file)
  }

  function Wrapped(outcomes: seq<Outcome>): (r: seq<Option<Outcome>>)
    ensures |r| == |outcomes|
    ensures forall i :: 0 <= i < |outcomes| ==> r[i] == Some(outcomes[i])
  {
    seq(|outcomes|, i requires 0 <= i < |outcomes| => Some(outcomes[i]))
  }

  // ---- The books -----------------------------------------------------------------------------------

  lemma {:induction false} LastOfBoth(a: seq<Settlement>, b: seq<Settlement>, k: IntentKey)
    ensures LastFor(a + b, k) == if LastFor(b, k).Some? then LastFor(b, k) else LastFor(a, k)
  {
    if b == [] {
      assert a + b == a;
    } else {
      LastOfBoth(a, b[..|b| - 1], k);
      assert (a + b)[..|a + b| - 1] == a + b[..|b| - 1];
    }
  }

  lemma SettledSteps(a: map<IntentKey, PruneIntent>, b: map<IntentKey, PruneIntent>, c: map<IntentKey, PruneIntent>,
                     x: seq<Settlement>, y: seq<Settlement>)
    requires SettledBy(a, b, x) && SettledBy(b, c, y)
    ensures SettledBy(a, c, x + y)
  {
    hide LastFor;
    forall k <- a
      ensures LastFor(x + y, k) == if LastFor(y, k).Some? then LastFor(y, k) else LastFor(x, k)
    {
      LastOfBoth(x, y, k);
    }
  }

  /** New intents, pending, may be recorded at any time: nothing was settled of them yet. */
  lemma RecordedLater(first: map<IntentKey, PruneIntent>, recorded: map<IntentKey, PruneIntent>,
                      requested: seq<PruneSpec>, now: map<IntentKey, PruneIntent>, ledger: seq<Settlement>,
                      exchanges: seq<Exchange>, after: map<IntentKey, PruneIntent>, specs: seq<PruneSpec>,
                      more: map<IntentKey, PruneIntent>)
    requires Booked(first, recorded, requested, now, ledger, exchanges) && Recorded(now, after, specs)
    requires more == map k | k in after :: if k in recorded then recorded[k] else after[k]
    ensures Booked(first, more, requested + specs, after, ledger, exchanges)
  {
    hide Faithful, IntentOf, LedgerOf, KeyOf, LastFor;
    assert forall spec <- requested :: spec in requested + specs;
    assert forall spec <- specs :: spec in requested + specs;
    assert Recorded(first, more, requested + specs);
    forall k <- more
      ensures k !in recorded ==> LastFor(ledger, k).None?
    {
      LastIsMember(ledger, k);
    }
  }

  lemma {:induction false} LedgerIsKnown(batch: seq<Request>, outcomes: seq<Option<Outcome>>,
                                         intents: map<IntentKey, PruneIntent>)
    requires KeysKnown(intents, batch)
    ensures LedgerKnown(intents, Settlements(batch, outcomes))
  {
    hide Judge;
    if batch != [] {
      LedgerIsKnown(batch[..|batch| - 1], outcomes, intents);
      assert batch[|batch| - 1] in batch;
    }
  }

  lemma OneMoreExchange(exchanges: seq<Exchange>, x: Exchange)
    ensures LedgerOf(exchanges + [x]) == LedgerOf(exchanges) + Settlements(x.batch, x.outcomes)
    ensures DeletionsOf(exchanges + [x]) == DeletionsOf(exchanges) + x.deletions
  {
    assert (exchanges + [x])[..|exchanges|] == exchanges;
  }

  /** One more exchange, settled as far as the process got. */
  lemma ExchangeBooked(first: map<IntentKey, PruneIntent>, recorded: map<IntentKey, PruneIntent>,
                       requested: seq<PruneSpec>, now: map<IntentKey, PruneIntent>, ledger: seq<Settlement>,
                       exchanges: seq<Exchange>, x: Exchange, after: map<IntentKey, PruneIntent>,
                       longer: seq<Settlement>)
    requires Booked(first, recorded, requested, now, ledger, exchanges) && ledger == LedgerOf(exchanges)
    requires Faithful(x) && KeysKnown(now, x.batch)
    requires ledger <= longer <= ledger + Settlements(x.batch, x.outcomes)
    requires SettledBy(now, after, longer[|ledger|..])
    ensures Booked(first, recorded, requested, after, longer, exchanges + [x])
  {
    hide Faithful, LedgerOf, Settlements, LastFor, Recorded;
    OneMoreExchange(exchanges, x);
    SettledSteps(recorded, now, after, ledger, longer[|ledger|..]);
    assert ledger + longer[|ledger|..] == longer;
    LedgerIsKnown(x.batch, x.outcomes, now);
    forall s <- longer
      ensures s.key in recorded
    {
      assert s in ledger + Settlements(x.batch, x.outcomes);
    }
  }

  lemma {:induction false} DoneAmong(batch: seq<Request>, outcomes: seq<Outcome>, n: nat)
    requires n <= |batch| && n <= |outcomes|
    ensures DoneCount(Settlements(batch[..n], Wrapped(outcomes))) <= DoneOutcomes(outcomes[..n])
    decreases n
  {
    hide Settlements, DoneCount, OwnedOf, Judge, DoneOutcomes, Wrapped;
    if n == 0 {
      assert batch[..0] == [];
      NoAnswer([]);
      NothingFrom(Wrapped(outcomes));
    } else {
      DoneAmong(batch, outcomes, n - 1);
      SettlementsStep(batch, Wrapped(outcomes), n - 1);
      DoneIsDone(batch[n - 1].spec, outcomes[n - 1]);
      OneMoreOutcome(outcomes, n - 1);
    }
  }

  lemma NothingFrom(outcomes: seq<Option<Outcome>>)
    ensures Settlements([], outcomes) == []
  {
  }

  lemma DoneIsDone(spec: PruneSpec, outcome: Outcome)
    ensures var verdict := Judge(spec, Some(outcome));
      verdict.Settled? && verdict.state == Done ==> outcome.state == OutcomeDone
  {
  }

  lemma OneMoreOutcome(outcomes: seq<Outcome>, n: nat)
    requires n < |outcomes|
    ensures DoneOutcomes(outcomes[..n + 1])
         == DoneOutcomes(outcomes[..n]) + (if outcomes[n].state == OutcomeDone then 1 else 0)
  {
    assert outcomes[..n + 1][..n] == outcomes[..n];
  }

  /** What the node guarantees of a batch makes the exchange a faithful one; a lost answer settles nothing. */
  lemma NodeIsFaithful(batch: seq<Request>, entries: seq<Outcome>, lost: bool, found: map<Text, NodeFile>,
                       left: map<Text, NodeFile>, deletions: seq<Deletion>)
    requires Conserved(found, left, deletions) && Elsewhere(found, left, SpecsOf(batch))
    requires forall d <- deletions :: d.spec in SpecsOf(batch) && Matches(d.spec, d.file)
    requires DoneWasDeleted(entries, SpecsOf(batch), deletions) && DoneOutcomes(entries) <= |deletions|
    requires !lost ==> |entries| == |batch|
    ensures Faithful(Exchange(batch, if lost then [] else Wrapped(entries), found, left, deletions))
  {
    hide Conserved, Elsewhere, Matches, DoneCount, Settlements;
    if lost {
      NoAnswer(batch);
    } else {
      DoneAmong(batch, entries, |batch|);
      assert batch[..|batch|] == batch && entries[..|batch|] == entries;
    }
  }

  lemma {:induction false} NoAnswer(batch: seq<Request>)
    ensures Settlements(batch, []) == [] && DoneCount([]) == 0 && DoneBytes([]) == 0
  {
    if batch != [] {
      NoAnswer(batch[..|batch| - 1]);
    }
  }

  /**
   Send one batch to the node and settle what it answers; a lost answer settles nothing. Until the node acts, the
   guest's files may have become anything; from then on nothing is lost but what is answered for.
   */
  method RunPrune(run: RetentionRun, batch: seq<Request>, ghost first: map<IntentKey, PruneIntent>,
                  ghost deleted: seq<Deletion>)
    returns (alive: bool, bytes: nat, files: nat, failed: bool)
    requires run.Balanced(first, deleted) && BatchReady(run.store, batch)
    modifies run`owned, run`ledger, run`exchanges, run.store`intents, run.node
    ensures run.BooksOk(first, deleted) && run.store.intents.Keys == old(run.store.intents).Keys
    ensures if batch == [] then run.exchanges == old(run.exchanges)
            else |run.exchanges| == |old(run.exchanges)| + 1
                 && run.exchanges[..|old(run.exchanges)|] == old(run.exchanges)
                 && run.exchanges[|old(run.exchanges)|].batch == batch
    ensures alive ==> run.Balanced(first, deleted) && old(run.ledger) <= run.ledger
    ensures alive ==>
      bytes == DoneBytes(run.ledger[|old(run.ledger)|..]) && files == DoneCount(run.ledger[|old(run.ledger)|..])
  {
    hide Booked, Faithful, LedgerOf, DeletionsOf, Settlements, DoneCount, DoneBytes, KeysMatch, SettledBy, Vouched,
         Conserved, Elsewhere, Matches, OwnedOf, Troubled, DoneOutcomes, DoneWasDeleted, DeletedBacked;
    if batch == [] {
      NoAnswer(batch);
      assert run.ledger[|run.ledger|..] == [];
      return true, 0, 0, false;
    }
    ghost var exchanges, ledger, now := run.exchanges, run.ledger, run.store.intents;
    var meanwhile: map<Text, NodeFile> := *;
    run.node.Change(meanwhile);
    ghost var before, answers := run.node.deleted, run.node.answers;
    var lost, entries := run.node.Prune(SpecsOf(batch));
    ghost var recent := run.node.deleted[|before|..];
    var outcomes := if lost then [] else Wrapped(entries);
    NodeIsFaithful(batch, entries, lost, meanwhile, run.node.files, recent);
    ghost var x := Exchange(batch, outcomes, meanwhile, run.node.files, recent);
    run.exchanges := run.exchanges + [x];
    OneMoreAnswer(exchanges, run.asked, answers, x, Answer(SpecsOf(batch), lost, entries));
    MoreDeletions(run.store, batch, exchanges, x, deleted, before, run.node.deleted);
    if lost {
      NoAnswer(batch);
      NothingSettledOf(now);
      assert ledger[|ledger|..] == [] && ledger + [] == ledger;
      ExchangeBooked(first, run.recorded, run.requested, now, ledger, exchanges, x, now, ledger);
      OneMoreExchange(exchanges, x);
      return true, 0, 0, true;
    }
    alive, bytes, files, failed := run.ResolveOutcomes(batch, outcomes);
    ExchangeBooked(first, run.recorded, run.requested, now, ledger, exchanges, x, run.store.intents, run.ledger);
    OneMoreExchange(exchanges, x);
    if alive {
      assert run.ledger[|ledger|..] == Settlements(batch, outcomes);
    }
  }

  lemma NothingSettledOf(intents: map<IntentKey, PruneIntent>)
    ensures SettledBy(intents, intents, [])
  {
  }

  /** The deletions of one more batch are of files that their rows vouch for. */
  lemma MoreDeletions(store: CheckpointStore, batch: seq<Request>, exchanges: seq<Exchange>, x: Exchange,
                      deleted: seq<Deletion>, before: seq<Deletion>, after: seq<Deletion>)
    requires BatchReady(store, batch) && x.batch == batch && before == deleted + DeletionsOf(exchanges)
    requires |after| >= |before| && after[..|before|] == before && x.deletions == after[|before|..]
    requires forall d <- x.deletions :: d.spec in SpecsOf(batch) && Matches(d.spec, d.file)
    requires DeletedBacked(store.sources, DeletionsOf(exchanges))
    ensures after == deleted + DeletionsOf(exchanges + [x])
    ensures DeletedBacked(store.sources, DeletionsOf(exchanges + [x]))
  {
    hide Vouched, Matches, DeletionsOf;
    OneMoreExchange(exchanges, x);
    assert after == before + x.deletions;
    forall d <- x.deletions
      ensures Vouched(store.sources, d.spec)
    {
      var i :| 0 <= i < |batch| && SpecsOf(batch)[i] == d.spec;
      assert batch[i] in batch;
    }
  }

  // ---- The run -------------------------------------------------------------------------------------

  /** At most this many files go into one batch. */
  const PRUNE_BATCH: nat := 128

  /** The detail that marks a conflict recorded because the file was already missing. */
  const LEGACY_MISSING_DETAIL: Text := Json.Ascii("file is missing")

  /** Intents to look at again: those in flight, and conflicts recorded for a missing file. */
  predicate IsOpen(intent: PruneIntent) {
    intent.state == Pending || (intent.state == IntentState.Conflict && intent.detail == LEGACY_MISSING_DETAIL)
  }

  method OpenIntents(store: CheckpointStore) returns (open: seq<IntentKey>)
    ensures forall k <- open :: k in store.intents && IsOpen(store.intents[k])
    ensures forall k <- store.intents :: IsOpen(store.intents[k]) ==> k in open
  {
    open := [];
    var todo := store.intents.Keys;
    while todo != {}
      invariant todo <= store.intents.Keys
      invariant forall k <- open :: k in store.intents && IsOpen(store.intents[k])
      invariant forall k <- store.intents :: IsOpen(store.intents[k]) ==> k in open || k in todo
      decreases |todo|
    {
      var k :| k in todo;
      todo := todo - {k};
      if IsOpen(store.intents[k]) {
        open := open + [k];
      }
    }
  }

  /** Identities this policy has already answered for: done, or observed absent. */
  method OwnedIntents(store: CheckpointStore) returns (owned: set<Owned>)
    ensures forall k <- store.intents :: store.intents[k].state in {Done, Absent} && store.intents[k].digest.Some? ==>
      var i := store.intents[k];
      Owned(i.path, i.device, i.inode, i.size, i.mtimeNs, i.digest.value) in owned
  {
    owned := {};
    var todo := store.intents.Keys;
    while todo != {}
      invariant todo <= store.intents.Keys
      invariant forall k <- store.intents ::
        store.intents[k].state in {Done, Absent} && store.intents[k].digest.Some? ==>
        var i := store.intents[k];
        k in todo || Owned(i.path, i.device, i.inode, i.size, i.mtimeNs, i.digest.value) in owned
      decreases |todo|
    {
      var k :| k in todo;
      todo := todo - {k};
      var i := store.intents[k];
      if i.state in {Done, Absent} && i.digest.Some? {
        owned := owned + {Owned(i.path, i.device, i.inode, i.size, i.mtimeNs, i.digest.value)};
      }
    }
  }

  /**
   The recovery requests of one chunk of open intents. An ineligible or not yet due intent waits; an in-flight one
   that cannot be proved again stops the run.
   */
  method RecoveryBatch(run: RetentionRun, keys: seq<IntentKey>) returns (ok: bool, batch: seq<Request>)
    requires forall k <- keys :: k in run.store.intents && KeyOf(run.store.intents[k]) == k
    requires run.policy.Sane()
    ensures BatchReady(run.store, batch) && |batch| <= |keys|
    ensures forall r <- batch ::
      r.key in keys && r.spec.recovery && Recoverable(run.policy, run.store.sources, run.store.intents[r.key])
    ensures !ok ==> exists k <- keys ::
      run.store.intents[k].state == Pending && !Recoverable(run.policy, run.store.sources, run.store.intents[k])
  {
    hide Recoverable, Vouched;
    batch := [];
    for i := 0 to |keys|
      invariant BatchReady(run.store, batch) && |batch| <= i
      invariant forall r <- batch ::
      r.key in keys && r.spec.recovery && Recoverable(run.policy, run.store.sources, run.store.intents[r.key])
    {
      var intent := run.store.intents[keys[i]];
      if intent.sourceId.Some? && intent.sourceId.value in run.store.sources
         && run.store.sources[intent.sourceId.value].identity.profile !in run.policy.profiles {
        continue;
      }
      if intent.mtimeNs >= run.policy.cutoffNs {
        continue;
      }
      if !Recoverable(run.policy, run.store.sources, intent) {
        if intent.state == Pending {
          return false, batch;
        }
        continue;
      }
      RecoveryIsBacked(run.policy, run.store.sources, intent);
      RecoveryParts(run.policy, run.store.sources, intent);
      batch := batch + [Request(keys[i], RecoverySpec(run.store.sources[intent.sourceId.value], intent))];
    }
    ok := true;
  }

  lemma RecoveryParts(policy: Policy, sources: map<Text, SourceRecord>, intent: PruneIntent)
    requires policy.Sane() && Recoverable(policy, sources, intent)
    ensures intent.sourceId.Some? && intent.sourceId.value in sources && intent.digest.Some?
    ensures intent.quarantinePath != intent.path
  {
    hide SameLogicalSource;
  }

  lemma RecordingKeepsKeys(before: map<IntentKey, PruneIntent>, after: map<IntentKey, PruneIntent>,
                           specs: seq<PruneSpec>)
    requires KeysMatch(before) && Recorded(before, after, specs)
    ensures KeysMatch(after)
  {
  }

  lemma NewPart(a: seq<Settlement>, b: seq<Settlement>, c: seq<Settlement>)
    requires a <= b <= c
    ensures DoneBytes(c[|a|..]) == DoneBytes(b[|a|..]) + DoneBytes(c[|b|..])
    ensures DoneCount(c[|a|..]) == DoneCount(b[|a|..]) + DoneCount(c[|b|..])
  {
    LedgerSums(b[|a|..], c[|b|..]);
    assert c[|a|..] == b[|a|..] + c[|b|..];
  }

  lemma NothingNew(a: seq<Settlement>)
    ensures DoneBytes(a[|a|..]) == 0 && DoneCount(a[|a|..]) == 0
  {
  }

  /**
   Recover what earlier runs left unsettled, chunk by chunk, each behind a fresh gate. The bytes and files returned are
   those settled as done by it.
   */
  method RecoverAll(run: RetentionRun, open: seq<IntentKey>, ghost first: map<IntentKey, PruneIntent>,
                    ghost deleted: seq<Deletion>)
    returns (alive: bool, bytes: nat, files: nat, failed: bool)
    requires run.Balanced(first, deleted) && run.policy.Sane() && forall k <- open :: k in run.store.intents
    modifies run`owned, run`ledger, run`exchanges, run.store`intents, run.node
    ensures run.BooksOk(first, deleted)
    ensures alive ==> run.Balanced(first, deleted) && old(run.ledger) <= run.ledger
    ensures alive ==>
      bytes == DoneBytes(run.ledger[|old(run.ledger)|..]) && files == DoneCount(run.ledger[|old(run.ledger)|..])
  {
    hide Booked, LedgerOf, DeletionsOf, DeletedBacked, Recoverable, KeysMatch, SettledBy, DoneCount, DoneBytes,
         BatchReady;
    alive, failed, bytes, files := true, false, 0, 0;
    NothingNew(run.ledger);
    var offset := 0;
    while offset < |open|
      invariant run.Balanced(first, deleted) && forall k <- open :: k in run.store.intents
      invariant old(run.ledger) <= run.ledger
      invariant bytes == DoneBytes(run.ledger[|old(run.ledger)|..])
             && files == DoneCount(run.ledger[|old(run.ledger)|..])
      decreases |open| - offset
    {
      var end := F.Min(offset + PRUNE_BATCH, |open|);
      var chunk := open[offset..end];
      offset := end;
      KeysOf(run.store.intents, open, chunk);
      var ok, batch := RecoveryBatch(run, chunk);
      if !ok {
        return true, bytes, files, true;
      }
      if batch == [] {
        continue;
      }
      var observed: bool := *;
      var probe: seq<Wire> := *;
      if !observed {
        return true, bytes, files, true;
      }
      Run.NothingCovered(run.store.sources);
      var authorised, none := AuthorizeDeletion(run.store, run.policy, probe, [], run.owned);
      if !authorised {
        return true, bytes, files, true;
      }
      ghost var before := run.ledger;
      var batchBytes, batchFiles;
      alive, batchBytes, batchFiles, failed := RunPrune(run, batch, first, deleted);
      if !alive {
        return;
      }
      NewPart(old(run.ledger), before, run.ledger);
      bytes, files := bytes + batchBytes, files + batchFiles;
      if failed {
        return;
      }
    }
  }

  lemma KeysOf(intents: map<IntentKey, PruneIntent>, open: seq<IntentKey>, chunk: seq<IntentKey>)
    requires KeysMatch(intents) && (forall k <- open :: k in intents)
    requires forall k <- chunk :: k in open
    ensures forall k <- chunk :: k in intents && KeyOf(intents[k]) == k
  {
  }

  /** A candidate handed back for a fresh decision. */
  function AsCovered(specs: seq<PruneSpec>): (r: seq<CoveredFile>)
    ensures |r| == |specs|
  {
    seq(|specs|, i requires 0 <= i < |specs| =>
      CoveredFile(specs[i].wire, if specs[i].sourceId.Some? then specs[i].sourceId.value else [], specs[i].sha256))
  }

  /** The request is for the file its row was last recorded from. */
  predicate OfRow(sources: map<Text, SourceRecord>, spec: PruneSpec) {
    spec.sourceId.Some? && spec.sourceId.value in sources && sources[spec.sourceId.value].identity == spec.wire
  }

  lemma ChunkIsCovered(sources: map<Text, SourceRecord>, specs: seq<PruneSpec>)
    requires forall spec <- specs :: OfRow(sources, spec)
    ensures Run.CoveredRows(AsCovered(specs), sources)
  {
    var chunk := AsCovered(specs);
    forall c <- chunk
      ensures c.sourceId in sources && sources[c.sourceId].identity == c.wire
    {
      var i :| 0 <= i < |chunk| && chunk[i] == c;
      assert specs[i] in specs;
    }
  }

  lemma CandidatesAreOfRows(policy: Policy, probe: map<Text, Wire>, covered: seq<CoveredFile>,
                            sources: map<Text, SourceRecord>)
    requires Run.CoveredRows(covered, sources)
    ensures forall spec <- CandidatesOf(policy, probe, covered) :: Vouched(sources, spec) ==> OfRow(sources, spec)
  {
    hide Prunable, Backs;
    CandidatesExact(policy, probe, covered);
    forall spec <- CandidatesOf(policy, probe, covered) | Vouched(sources, spec)
      ensures OfRow(sources, spec)
    {
      var c :| c in covered && Prunable(policy, probe, c) && spec == SpecFor(policy, c);
    }
  }

  lemma CandidatesAreSafe(policy: Policy, probe: map<Text, Wire>, covered: seq<CoveredFile>)
    requires policy.Sane()
    ensures forall spec <- CandidatesOf(policy, probe, covered) :: spec.quarantine != spec.wire.path && !spec.recovery
  {
    CandidatesExact(policy, probe, covered);
    forall spec <- CandidatesOf(policy, probe, covered)
      ensures spec.quarantine != spec.wire.path && !spec.recovery
    {
      var c :| c in covered && Prunable(policy, probe, c) && spec == SpecFor(policy, c);
    }
  }

  /** The batch of freshly recorded requests is ready for the node. */
  lemma RecordedReady(store: CheckpointStore, specs: seq<PruneSpec>, batch: seq<Request>)
    requires |batch| == |specs| && KeysKnown(store.intents, batch)
    requires forall i :: 0 <= i < |batch| ==> batch[i].spec == specs[i]
    requires forall spec <- specs :: Vouched(store.sources, spec) && spec.quarantine != spec.wire.path
    ensures BatchReady(store, batch)
  {
    hide Vouched;
  }

  /** Record the intents of a batch in the store and in the books. */
  method BookIntents(run: RetentionRun, specs: seq<PruneSpec>, ghost first: map<IntentKey, PruneIntent>,
                     ghost deleted: seq<Deletion>)
    returns (alive: bool, batch: seq<Request>)
    requires run.Balanced(first, deleted)
    requires forall spec <- specs :: Vouched(run.store.sources, spec) && spec.quarantine != spec.wire.path
    modifies run`recorded, run`requested, run.store`intents
    ensures run.Balanced(first, deleted)
    ensures alive ==> BatchReady(run.store, batch) && |batch| == |specs|
  {
    hide Booked, LedgerOf, DeletionsOf, DeletedBacked, KeysMatch, Vouched, Recorded, BatchReady;
    ghost var now := run.store.intents;
    alive, batch := RecordPruneIntents(run.store, specs);
    RecordingKeepsKeys(now, run.store.intents, specs);
    ghost var more :=
      map k | k in run.store.intents :: if k in run.recorded then run.recorded[k] else run.store.intents[k];
    RecordedLater(first, run.recorded, run.requested, now, run.ledger, run.exchanges, run.store.intents, specs, more);
    run.recorded, run.requested := more, run.requested + specs;
    if alive {
      RecordedReady(run.store, specs, batch);
    }
  }

  /** Delete due files in batches, each decided again against a fresh look at the guest. */
  method PruneAll(run: RetentionRun, candidates: seq<PruneSpec>, ghost first: map<IntentKey, PruneIntent>,
                  ghost deleted: seq<Deletion>)
    returns (alive: bool, bytes: nat, files: nat, failed: bool)
    requires run.Balanced(first, deleted) && run.policy.Sane()
    requires forall spec <- candidates :: Vouched(run.store.sources, spec) && OfRow(run.store.sources, spec)
    modifies run`owned, run`recorded, run`requested, run`ledger, run`exchanges, run.store`intents, run.node
    ensures run.BooksOk(first, deleted)
    ensures alive ==> run.Balanced(first, deleted) && old(run.ledger) <= run.ledger
    ensures alive ==>
      bytes == DoneBytes(run.ledger[|old(run.ledger)|..]) && files == DoneCount(run.ledger[|old(run.ledger)|..])
  {
    hide Booked, LedgerOf, DeletionsOf, DeletedBacked, KeysMatch, SettledBy, DoneCount, DoneBytes, Vouched, BatchReady,
         CandidatesOf, OfRow, Run.CoveredRows;
    alive, failed, bytes, files := true, false, 0, 0;
    NothingNew(run.ledger);
    var offset := 0;
    while offset < |candidates|
      invariant run.Balanced(first, deleted) && old(run.ledger) <= run.ledger
      invariant bytes == DoneBytes(run.ledger[|old(run.ledger)|..])
             && files == DoneCount(run.ledger[|old(run.ledger)|..])
      decreases |candidates| - offset
    {
      var end := F.Min(offset + PRUNE_BATCH, |candidates|);
      var chunk := AsCovered(candidates[offset..end]);
      ChunkIsCovered(run.store.sources, candidates[offset..end]);
      offset := end;
      var observed: bool := *;
      var probe: seq<Wire> := *;
      if !observed {
        return true, bytes, files, true;
      }
      var authorised, specs := AuthorizeDeletion(run.store, run.policy, probe, chunk, run.owned);
      if !authorised {
        return true, bytes, files, true;
      }
      CandidatesAreSafe(run.policy, ByPath(probe), chunk);
      var batch;
      alive, batch := BookIntents(run, specs, first, deleted);
      if !alive {
        return false, bytes, files, true;
      }
      ghost var before := run.ledger;
      var batchBytes, batchFiles;
      alive, batchBytes, batchFiles, failed := RunPrune(run, batch, first, deleted);
      if !alive {
        return;
      }
      NewPart(old(run.ledger), before, run.ledger);
      bytes, files := bytes + batchBytes, files + batchFiles;
      if failed {
        return;
      }
    }
  }

  /** What a retention run reports. */
  datatype RetentionResult = RetentionResult(bytesReclaimed: nat, filesPruned: nat, failed: bool)

  /**
   One retention run over the files an import reported as covered, where the journal measures `journal.0` bytes before
   the vacuum and `journal.1` after it. On every return the files reported are those settled as done and the bytes the
   measured decrease and theirs; the books say what became of every intent; and whatever was deleted, even by a run
   that died, was the exact file its row vouched for: it decodes to its end, and every byte of it had been delivered.
   */
  method ApplyGuestRetention(run: RetentionRun, covered: seq<CoveredFile>, journal: (nat, nat), ghost codec: Codec,
                             ghost log: seq<Body>)
    returns (alive: bool, result: RetentionResult, ghost measured: bool)
    requires Inv(codec, log, run.store.State()) && run.policy.Sane() && KeysMatch(run.store.intents)
    requires Run.CoveredRows(covered, run.store.sources) && run.Unwritten()
    modifies run`owned, run`recorded, run`requested, run`ledger, run`exchanges, run.store`intents, run.node
    ensures run.BooksOk(old(run.store.intents), old(run.node.deleted))
    ensures alive ==>
      && run.Balanced(old(run.store.intents), old(run.node.deleted))
      && result.filesPruned == DoneCount(run.ledger)
      && result.bytesReclaimed == (if measured then F.Max(journal.0 - journal.1, 0) else 0) + DoneBytes(run.ledger)
      && (!measured ==> run.ledger == [])
    ensures Inv(codec, log, run.store.State())
    ensures forall d <- DeletionsOf(run.exchanges) ::
      && Vouched(run.store.sources, d.spec) && Matches(d.spec, d.file)
      && Archived(codec, log, d.spec.wire.compression, d.file.content)
  {
    hide Inv, Archived, Booked, LedgerOf, DeletionsOf, KeysMatch, DoneCount, DoneBytes, Vouched, Matches, DeletedBacked,
         Run.CoveredRows;
    alive, result, measured := SettleAndPrune(run, covered, journal);
    IntentsDoNotMatter(codec, log, old(run.store.State()), run.store.State());
    DeliveredAll(codec, log, old(run.store.State()), DeletionsOf(run.exchanges));
  }

  /** What the store remembers of prunings plays no part in what was delivered. */
  lemma IntentsDoNotMatter(codec: Codec, log: seq<Body>, before: Db, after: Db)
    requires Inv(codec, log, before) && after == before.(intents := after.intents)
    ensures Inv(codec, log, after)
  {
    hide RowOk, BatchOk;
    forall id <- after.sources
      ensures RowOk(codec, log, id, after.sources[id], BlobContent(after, after.sources[id]))
    {
      assert BlobContent(after, after.sources[id]) == BlobContent(before, before.sources[id]);
    }
  }

  lemma NothingBooked(run: RetentionRun)
    requires run.Unwritten() && KeysMatch(run.store.intents)
    ensures run.Balanced(run.store.intents, run.node.deleted)
    ensures DoneBytes(run.ledger) == 0 && DoneCount(run.ledger) == 0
  {
    assert run.node.deleted + [] == run.node.deleted;
  }

  lemma WholeLedger(ledger: seq<Settlement>)
    ensures ledger[0..] == ledger
  {
  }

  /** The run's steps: gate, vacuum, recover, look again, prune; each return adds up its own counters. */
  method SettleAndPrune(run: RetentionRun, covered: seq<CoveredFile>, journal: (nat, nat))
    returns (alive: bool, result: RetentionResult, ghost measured: bool)
    requires run.policy.Sane() && KeysMatch(run.store.intents) && Run.CoveredRows(covered, run.store.sources)
    requires run.Unwritten()
    modifies run`owned, run`recorded, run`requested, run`ledger, run`exchanges, run.store`intents, run.node
    ensures run.BooksOk(old(run.store.intents), old(run.node.deleted))
    ensures alive ==>
      && run.Balanced(old(run.store.intents), old(run.node.deleted))
      && result.filesPruned == DoneCount(run.ledger)
      && result.bytesReclaimed == (if measured then F.Max(journal.0 - journal.1, 0) else 0) + DoneBytes(run.ledger)
      && (!measured ==> run.ledger == [])
  {
    hide Booked, LedgerOf, DeletionsOf, DeletedBacked, KeysMatch, DoneCount, DoneBytes, Run.CoveredRows, Vouched,
         CandidatesOf, OfRow;
    ghost var first, deleted := run.store.intents, run.node.deleted;
    NothingBooked(run);
    Run.NothingCovered(run.store.sources);
    measured := false;
    var open := OpenIntents(run.store);
    run.owned := OwnedIntents(run.store);
    var ready: bool := *;
    var authorised, none := AuthorizeDeletion(run.store, run.policy, [], [], run.owned);
    var vacuumed: bool := *;
    if !ready || !authorised || !vacuumed {
      return true, RetentionResult(0, 0, true), false;
    }
    var bytesReclaimed := F.Max(journal.0 - journal.1, 0);
    measured := true;
    var probe: seq<Wire> := *;
    authorised, none := AuthorizeDeletion(run.store, run.policy, probe, covered, run.owned);
    if !authorised {
      return true, RetentionResult(bytesReclaimed, 0, true), true;
    }
    var failed, recoveredBytes, recoveredFiles;
    ghost var before := run.ledger;
    alive, recoveredBytes, recoveredFiles, failed := RecoverAll(run, open, first, deleted);
    WholeLedger(run.ledger);
    if !alive || failed {
      return alive, RetentionResult(bytesReclaimed + recoveredBytes, recoveredFiles, true), true;
    }
    bytesReclaimed := bytesReclaimed + recoveredBytes;
    ghost var recovered := run.ledger;
    var observed: bool := *;
    probe := *;
    if !observed {
      return true, RetentionResult(bytesReclaimed, recoveredFiles, true), true;
    }
    var candidates;
    authorised, candidates := AuthorizeDeletion(run.store, run.policy, probe, covered, run.owned);
    if !authorised {
      return true, RetentionResult(bytesReclaimed, recoveredFiles, true), true;
    }
    CandidatesAreOfRows(run.policy, ByPath(probe), covered, run.store.sources);
    var prunedBytes, prunedFiles;
    alive, prunedBytes, prunedFiles, failed := PruneAll(run, candidates, first, deleted);
    bytesReclaimed := bytesReclaimed + prunedBytes;
    if alive {
      NewPart(before, recovered, run.ledger);
      WholeLedger(run.ledger);
    }
    result := RetentionResult(bytesReclaimed, prunedFiles + recoveredFiles, failed);
  }

  // ---- What the books say --------------------------------------------------------------------------

  lemma {:induction false} FromExchange(exchanges: seq<Exchange>, s: Settlement)
    requires s in LedgerOf(exchanges)
    ensures exists x <- exchanges, i: nat :: Grounded(x.batch, x.outcomes, s, i)
  {
    hide Grounded, Settlements;
    var n := |exchanges| - 1;
    var last := exchanges[n];
    if s in Settlements(last.batch, last.outcomes) {
      SettledOnGrounds(last.batch, last.outcomes);
      var i: nat :| Grounded(last.batch, last.outcomes, s, i);
      assert last in exchanges;
    } else {
      FromExchange(exchanges[..n], s);
      var x, i: nat :| x in exchanges[..n] && Grounded(x.batch, x.outcomes, s, i);
      assert x in exchanges;
    }
  }

  /**
   Over a whole run: an intent that no exchange answered for with exactly its file is as the run found it, or as the run
   recorded it, pending.
   */
  lemma RunLeavesUnmatched(first: map<IntentKey, PruneIntent>, recorded: map<IntentKey, PruneIntent>,
                           requested: seq<PruneSpec>, now: map<IntentKey, PruneIntent>, ledger: seq<Settlement>,
                           exchanges: seq<Exchange>, k: IntentKey)
    requires Booked(first, recorded, requested, now, ledger, exchanges) && k in now
    requires forall x <- exchanges, i: nat | i < |x.batch| && i < |x.outcomes| && x.batch[i].key == k ::
      x.outcomes[i].None? || x.outcomes[i].value.wire != x.batch[i].spec.wire
    ensures if k in first then now[k] == first[k] else exists spec <- requested :: now[k] == IntentOf(spec)
  {
    hide Settlements, LastFor, Faithful, LedgerOf, IntentOf;
    LastIsMember(ledger, k);
    if LastFor(ledger, k).Some? {
      var s := LastFor(ledger, k).value;
      assert s in LedgerOf(exchanges);
      FromExchange(exchanges, s);
    }
  }

  /** Nothing is counted that the node did not delete. */
  lemma {:induction false} CountedWasDeleted(exchanges: seq<Exchange>)
    requires forall x <- exchanges :: Faithful(x)
    ensures DoneCount(LedgerOf(exchanges)) <= |DeletionsOf(exchanges)|
  {
    hide Conserved, Elsewhere, Matches, Settlements;
    if exchanges != [] {
      var n := |exchanges| - 1;
      CountedWasDeleted(exchanges[..n]);
      assert exchanges[n] in exchanges;
      LedgerSums(LedgerOf(exchanges[..n]), Settlements(exchanges[n].batch, exchanges[n].outcomes));
    }
  }

  lemma DeliveredAll(codec: Codec, log: seq<Body>, db: Db, deletions: seq<Deletion>)
    requires Inv(codec, log, db) && DeletedBacked(db.sources, deletions)
    ensures forall d <- deletions ::
      && Vouched(db.sources, d.spec) && Matches(d.spec, d.file)
      && Archived(codec, log, d.spec.wire.compression, d.file.content)
  {
    hide Inv, Archived, Matches, Vouched;
    forall d <- deletions
      ensures Archived(codec, log, d.spec.wire.compression, d.file.content)
    {
      DeletedWasDelivered(codec, log, db, d.spec, d.file);
    }
  }
}
