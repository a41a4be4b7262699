/** A whole import run: planning every probed file, then settling each plan, in any order, until the run is stopped. */
module Run {
  import opened Utf8
  import opened LogEntry
  import opened Sources
  import opened Tables
  import opened Delivery
  import opened Coverage
  import opened Planner
  import opened Probing
  import opened Planning
  import opened Import
  import opened Importer
  import opened Tidy
  import opened LiveInput
  import opened Pending
  import opened CaptureRun
  import Json

  // ---- One plan ------------------------------------------------------------------------------------

  /** The raw bytes a plan is to read: the live prefix as probed, or the captured blob. */
  function WindowOf(blobs: map<BlobKey, BlobState>, live: Wire -> Bytes, p: FilePlan): Bytes {
    match p.input
    case NoInput => []
    case Live(wire) => live(wire)
    case Frozen(key) => if key in blobs && blobs[key].sha256.Some? then blobs[key].sha256.value.content else []
  }

  /** Every file keeps, during the run, the prefix it was probed with. */
  ghost predicate ProbedSizes(live: Wire -> Bytes) {
    forall w: Wire :: |live(w)| == w.size
  }

  lemma FrozenWindow(codec: Codec, db: Db, live: Wire -> Bytes, p: FilePlan)
    requires PlanOk(db, p) && SpoolOk(db) && p.input.Frozen?
    ensures InputOk(codec, db, p, WindowOf(db.blobs, live, p))
  {
    FrozenInput(db, p, codec);
  }

  /** The plan's live prefix, if it counts on one, is still the front of the file. */
  predicate Proves(p: FilePlan, live: Wire -> Bytes) {
    p.ReadsLive() ==> p.wire.Some? && PrefixHolds(p, live(p.wire.value))
  }

  /** The row after its live prefix was proved, if there was one to prove. */
  predicate ProvedFrom(before: SourceRecord, after: SourceRecord, p: FilePlan, live: Wire -> Bytes) {
    if p.ReadsLive() && p.wire.Some? then
      after == Proved(before, live(p.wire.value), after.updatedNs)
    else after == before
  }

  /** Prove the live prefix where the plan counts on it; the plan's window is then what its row counts in. */
  method ProveInput(state: ImportState, p: FilePlan, live: Wire -> Bytes) returns (alive: bool, ok: bool)
    requires state.Ok() && state.store.pending.None? && !state.stopped
    requires PlanOk(state.store.State(), p) && SpoolOk(state.store.State()) && ProbedSizes(live)
    modifies state`failed, state`stopped, state.store`sources
    ensures state.Ok()
    ensures OthersKept(p.sourceId, old(state.store.sources), state.store.sources)
    ensures p.sourceId in old(state.store.sources) && p.sourceId in state.store.sources
    ensures alive ==> (state.stopped <==> !ok) && (!ok ==> state.failed)
    ensures alive && ok ==>
      && ProvedFrom(old(state.store.sources)[p.sourceId], state.store.sources[p.sourceId], p, live)
      && (!p.input.NoInput? ==>
            InputOk(state.codec, state.store.State(), p, WindowOf(state.store.blobs, live, p)))
    ensures state.calm ==> alive
    ensures state.calm && Proves(p, live) ==> ok
  {
    hide Inv, TidyLog, InputOk, PrefixHolds, SpoolOk, RowOk, Proved;
    assert p.sourceId in state.store.sources;
    var content := if p.wire.Some? then live(p.wire.value) else [];
    if p.input.Frozen? {
      FrozenWindow(state.codec, state.store.State(), live, p);
    }
    alive, ok := PrepareLiveInput(state, p, content);
  }

  lemma CoveredPlan(db: Db, p: FilePlan)
    requires PlanOk(db, p)
    ensures p.completeForCurrent ==> p.input.NoInput?
    ensures p.sourceId in db.sources
    ensures p.wire.Some? ==> p.wire == Some(db.sources[p.sourceId].identity)
  {
  }

  /**
   Everything a plan needs to be settled when nothing outside fails: the proof of its live prefix holds, and what it
   reads decodes to its end and fits its entries.
   */
  ghost predicate PlanGood(codec: Codec, db: Db, live: Wire -> Bytes, p: FilePlan) {
    && Proves(p, live)
    && (!p.input.NoInput? ==> CanRead(codec, db.sources, p, WindowOf(db.blobs, live, p)))
  }

  /** How settling a plan leaves its row, by the way it ended: `middle` is the row once its live prefix was proved. */
  predicate Left(codec: Codec, before: SourceRecord, middle: SourceRecord, after: SourceRecord, p: FilePlan,
                 live: Wire -> Bytes, window: Bytes, ending: Ending)
  {
    && ProvedFrom(before, middle, p, live)
    && (ending == Skipped <==> p.input.NoInput?)
    && match ending
       case Skipped => after == middle
       case Finished => ClosedFor(codec, after, window) && SameVerification(middle, after)
       case _ => Advanced(middle, after)
  }

  lemma ReadableStays(codec: Codec, before: map<Text, SourceRecord>, after: map<Text, SourceRecord>, p: FilePlan,
                      live: Wire -> Bytes, window: Bytes)
    requires CanRead(codec, before, p, window) && p.sourceId in after
    requires ProvedFrom(before[p.sourceId], after[p.sourceId], p, live)
    ensures CanRead(codec, after, p, window)
  {
  }

  lemma ProvedKeeps(before: SourceRecord, after: SourceRecord, p: FilePlan, live: Wire -> Bytes)
    requires ProvedFrom(before, after, p, live)
    ensures after.progress == before.progress && after.identity == before.identity && after.blob == before.blob
    ensures after.acknowledged == before.acknowledged
  {
  }

  /** Settle one plan: prove the live prefix, then import what is to be read. */
  method SettlePlan(state: ImportState, p: FilePlan, live: Wire -> Bytes)
    returns (alive: bool, ending: Ending, ghost middle: SourceRecord)
    requires state.Ok() && state.store.pending.None? && !state.stopped
    requires PlanOk(state.store.State(), p) && SpoolOk(state.store.State()) && ProbedSizes(live)
    modifies state`bytesArchived, state`bodyBytes, state`pending, state`failed, state`stopped, state`boundExceeded,
             state`timestamp, state`labels, state`covered, state.store`sources, state.store`pending, state.loki`log
    ensures state.Ok()
    ensures OthersKept(p.sourceId, old(state.store.sources), state.store.sources)
    ensures CoveredStep(old(state.covered), state.covered, p)
    ensures state.boundExceeded == old(state.boundExceeded)
    ensures old(state.WithinBudget()) ==> state.WithinBudget()
    ensures p.sourceId in old(state.store.sources) && p.sourceId in state.store.sources
    ensures alive && ending != PushStopped ==> state.store.pending.None?
    ensures alive ==> (state.stopped <==> ending in {PushStopped, BudgetStopped, Unproved})
    ensures alive && ending in {PushStopped, ReadBroken, Unproved} ==> state.failed
    ensures alive && ending != Unproved ==> (ending == Skipped <==> p.input.NoInput?)
    ensures alive && ending in {Skipped, BudgetStopped, Finished, ReadBroken} ==>
      Left(state.codec, old(state.store.sources)[p.sourceId], middle, state.store.sources[p.sourceId], p, live,
           WindowOf(state.store.blobs, live, p), ending)
    ensures alive && ending == BudgetStopped && old(state.FreshStart()) && state.timestamp < Json.PowerOfTen(20) ==>
      state.store.sources[p.sourceId].progress.offset > old(state.store.sources)[p.sourceId].progress.offset
    ensures alive && ending in {Skipped, BudgetStopped, Finished, ReadBroken} ==>
      var before, now := old(state.store.sources)[p.sourceId].progress.offset,
        state.store.sources[p.sourceId].progress.offset;
      && now >= before
      && (now > before
          || (state.bytesArchived == old(state.bytesArchived) && state.bodyBytes == old(state.bodyBytes)))
      && (now > before ==>
            !p.input.NoInput?
            && now <= |state.codec.decoded(state.store.sources[p.sourceId].identity.compression,
                                           WindowOf(state.store.blobs, live, p))|)
    ensures state.calm ==> alive
    ensures state.calm && PlanGood(state.codec, old(state.store.State()), live, p) ==>
      ending in {Skipped, BudgetStopped, Finished}
  {
    hide Inv, TidyLog, InputOk, ClosedFor, OthersKept, Json.PowerOfTen, SpoolOk, RowOk, CanRead, Proves, ProvedFrom,
         SameSource, Advanced, SameVerification, CoveredStep;
    CoveredPlan(state.store.State(), p);
    hide PlanOk;
    NoneCovered(state.covered, p);
    middle := state.store.sources[p.sourceId];
    var ok;
    alive, ok := ProveInput(state, p, live);
    if !alive || !ok {
      return alive, Unproved, middle;
    }
    middle := state.store.sources[p.sourceId];
    ghost var proved := state.store.sources;
    ProvedKeeps(old(state.store.sources)[p.sourceId], middle, p, live);
    var window := WindowOf(state.store.blobs, live, p);
    if !p.input.NoInput? && CanRead(state.codec, old(state.store.sources), p, window) {
      ReadableStays(state.codec, old(state.store.sources), proved, p, live, window);
    }
    if p.completeForCurrent {
      if p.wire.Some? {
        state.AddCovered(p.wire.value, p.sourceId, state.store.sources[p.sourceId]);
        OneCovered(old(state.covered), state.covered, p, middle);
      }
      return true, Skipped, middle;
    }
    var predecessor: Option<Text> := *;
    if state.store.sources[p.sourceId].identity.compression == Plain {
      predecessor := None;
    }
    alive, ending := ImportSource(state, p, predecessor, window);
    OthersKeptSteps(p.sourceId, old(state.store.sources), proved, state.store.sources);
  }

  lemma OneCovered(before: seq<CoveredFile>, after: seq<CoveredFile>, p: FilePlan, r: SourceRecord)
    requires p.wire.Some?
    requires after == before || (r.digest.Some?
                                 && after == before + [CoveredFile(p.wire.value, p.sourceId, r.digest.value)])
    ensures CoveredStep(before, after, p)
  {
  }

  // ---- The run's loop ------------------------------------------------------------------------------

  /** No source has fallen back. */
  ghost predicate NoRegress(before: map<Text, SourceRecord>, after: map<Text, SourceRecord>) {
    forall k: Text :: OffsetOf(after, k) >= OffsetOf(before, k)
  }

  /** Some source has moved on. */
  ghost predicate Progressed(before: map<Text, SourceRecord>, after: map<Text, SourceRecord>) {
    exists k: Text :: OffsetOf(after, k) > OffsetOf(before, k)
  }

  lemma Onward(a: map<Text, SourceRecord>, b: map<Text, SourceRecord>, c: map<Text, SourceRecord>)
    requires NoRegress(a, b) && NoRegress(b, c)
    ensures NoRegress(a, c)
    ensures Progressed(a, b) || Progressed(b, c) ==> Progressed(a, c)
  {
    if Progressed(a, b) {
      var k: Text :| OffsetOf(b, k) > OffsetOf(a, k);
      assert OffsetOf(c, k) > OffsetOf(a, k);
    } else if Progressed(b, c) {
      var k: Text :| OffsetOf(c, k) > OffsetOf(b, k);
      assert OffsetOf(c, k) > OffsetOf(a, k);
    }
  }

  lemma OneStep(before: map<Text, SourceRecord>, after: map<Text, SourceRecord>, id: Text)
    requires OthersKept(id, before, after)
    requires id in before && id in after && after[id].progress.offset >= before[id].progress.offset
    ensures NoRegress(before, after)
    ensures after[id].progress.offset > before[id].progress.offset ==> Progressed(before, after)
  {
    assert OffsetOf(after, id) == after[id].progress.offset && OffsetOf(before, id) == before[id].progress.offset;
  }

  /** The plan's file is acknowledged in full: it had nothing left to read, or its row is complete for what it read. */
  predicate PlanSettled(codec: Codec, db: Db, live: Wire -> Bytes, p: FilePlan) {
    && p.sourceId in db.sources && db.sources[p.sourceId].acknowledged
    && (p.input.NoInput? || ClosedFor(codec, db.sources[p.sourceId], WindowOf(db.blobs, live, p)))
  }

  /** The plan reads nothing although its row is not acknowledged: nothing in the run will ever acknowledge it. */
  predicate Stranded(planned: Db, p: FilePlan) {
    p.input.NoInput? && !(p.sourceId in planned.sources && planned.sources[p.sourceId].acknowledged)
  }

  /** Every plan is still to come, or settled unless it was stranded from the start. */
  ghost predicate DoneSoFar(codec: Codec, planned: Db, db: Db, live: Wire -> Bytes, plans: seq<FilePlan>,
                            rest: seq<FilePlan>) {
    forall p <- plans :: p in rest || (PlanSettled(codec, db, live, p) <==> !Stranded(planned, p))
  }

  /** The rows of the plans still to come are as they were planned. */
  ghost predicate RestUntouched(planned: map<Text, SourceRecord>, now: map<Text, SourceRecord>, rest: seq<FilePlan>) {
    forall p <- rest :: p.sourceId in planned && p.sourceId in now && now[p.sourceId] == planned[p.sourceId]
  }

  /** Each row moved only within what its plan read. */
  ghost predicate WithinPlans(codec: Codec, planned: map<Text, SourceRecord>, now: map<Text, SourceRecord>,
                              blobs: map<BlobKey, BlobState>, live: Wire -> Bytes, plans: seq<FilePlan>)
  {
    && planned.Keys == now.Keys
    && forall id <- now ::
         && SameSource(planned[id], now[id])
         && ((forall p <- plans :: p.sourceId != id) ==> now[id] == planned[id])
         && (now[id].progress.offset > planned[id].progress.offset ==>
               exists p <- plans ::
                 && p.sourceId == id && !p.input.NoInput?
                 && now[id].progress.offset <= |codec.decoded(now[id].identity.compression, WindowOf(blobs, live, p))|)
  }

  /** How each settled row was left by its plan. */
  ghost predicate LeftBy(codec: Codec, planned: map<Text, SourceRecord>, now: map<Text, SourceRecord>,
                         blobs: map<BlobKey, BlobState>, live: Wire -> Bytes, p: FilePlan)
  {
    && p.sourceId in planned && p.sourceId in now
    && exists middle: SourceRecord, ending: Ending ::
         && ending in {Skipped, BudgetStopped, Finished}
         && Left(codec, planned[p.sourceId], middle, now[p.sourceId], p, live, WindowOf(blobs, live, p), ending)
  }

  /** A smooth run: nothing fell back from where planning left it, and every row moved as its plan had it move. */
  ghost predicate Smooth(codec: Codec, planned: Db, now: Db, live: Wire -> Bytes, plans: seq<FilePlan>) {
    && now.pending.None?
    && NoRegress(planned.sources, now.sources)
    && WithinPlans(codec, planned.sources, now.sources, planned.blobs, live, plans)
    && RowsLeft(codec, planned.sources, now.sources, planned.blobs, live, plans)
  }

  /** Every planned row is as it was planned, or as its plan left it. */
  ghost predicate RowsLeft(codec: Codec, planned: map<Text, SourceRecord>, now: map<Text, SourceRecord>,
                           blobs: map<BlobKey, BlobState>, live: Wire -> Bytes, plans: seq<FilePlan>)
  {
    forall p <- plans ::
      && p.sourceId in now && p.sourceId in planned
      && (now[p.sourceId] == planned[p.sourceId] || LeftBy(codec, planned, now, blobs, live, p))
  }

  /** Every plan is settled, exactly but for those that were stranded from the start. */
  ghost predicate AllSettled(codec: Codec, planned: Db, now: Db, live: Wire -> Bytes, plans: seq<FilePlan>) {
    forall p <- plans :: PlanSettled(codec, now, live, p) <==> !Stranded(planned, p)
  }

  function Without(rest: seq<FilePlan>, i: nat): seq<FilePlan>
    requires i < |rest|
  {
    rest[..i] + rest[i + 1..]
  }

  lemma WithoutAt(rest: seq<FilePlan>, i: nat)
    requires i < |rest|
    ensures |Without(rest, i)| == |rest| - 1
    ensures forall k :: 0 <= k < |rest| - 1 ==> Without(rest, i)[k] == rest[if k < i then k else k + 1]
  {
  }

  lemma WithoutHas(rest: seq<FilePlan>, i: nat, p: FilePlan)
    requires i < |rest| && p in rest
    ensures p == rest[i] || p in Without(rest, i)
  {
    hide Without;
    WithoutAt(rest, i);
    var k :| 0 <= k < |rest| && rest[k] == p;
    var less := Without(rest, i);
    assert k < i ==> less[k] == p;
    assert k > i ==> less[k - 1] == p;
  }

  lemma StillDistinct(rest: seq<FilePlan>, i: nat)
    requires DistinctPlans(rest) && i < |rest|
    ensures DistinctPlans(Without(rest, i))
    ensures forall p <- Without(rest, i) :: p in rest && p.sourceId != rest[i].sourceId
    ensures forall p <- rest :: p == rest[i] || p in Without(rest, i)
  {
    hide Without;
    WithoutAt(rest, i);
    forall p <- rest
      ensures p == rest[i] || p in Without(rest, i)
    {
      WithoutHas(rest, i, p);
    }
  }

  lemma DifferentPlans(plans: seq<FilePlan>, p: FilePlan, q: FilePlan)
    requires DistinctPlans(plans) && p in plans && q in plans && p != q
    ensures p.sourceId != q.sourceId
  {
  }

  /** Settling one plan leaves the others as they were. */
  lemma OthersStand(codec: Codec, planned: Db, before: Db, after: Db, live: Wire -> Bytes, plans: seq<FilePlan>,
                    rest: seq<FilePlan>, i: nat)
    requires DistinctPlans(plans) && DistinctPlans(rest) && i < |rest| && (forall p <- rest :: p in plans)
    requires before.blobs == after.blobs && OthersKept(rest[i].sourceId, before.sources, after.sources)
    requires AllPlansOk(before, rest)
    ensures AllPlansOk(after, Without(rest, i)) && DistinctPlans(Without(rest, i))
    ensures forall p <- Without(rest, i) :: p in plans
    ensures (DoneSoFar(codec, planned, before, live, plans, rest)
             && (PlanSettled(codec, after, live, rest[i]) <==> !Stranded(planned, rest[i]))) ==>
      DoneSoFar(codec, planned, after, live, plans, Without(rest, i))
    ensures RestUntouched(planned.sources, before.sources, rest) ==>
      RestUntouched(planned.sources, after.sources, Without(rest, i))
  {
    hide PlanOk, ClosedFor, WindowOf, DistinctPlans, Without, Stranded, SameSource;
    StillDistinct(rest, i);
    forall p <- Without(rest, i)
      ensures PlanOk(after, p)
    {
      PlanStands(before, after, p);
    }
    if DoneSoFar(codec, planned, before, live, plans, rest)
       && (PlanSettled(codec, after, live, rest[i]) <==> !Stranded(planned, rest[i])) {
      forall p <- plans
        ensures p in Without(rest, i) || (PlanSettled(codec, after, live, p) <==> !Stranded(planned, p))
      {
        if p !in rest {
          DifferentPlans(plans, p, rest[i]);
        }
      }
    }
  }

  /** The plan just settled is settled for good, unless it was stranded. */
  lemma OneSettled(codec: Codec, planned: Db, before: Db, after: Db, live: Wire -> Bytes, p: FilePlan,
                   middle: SourceRecord, ending: Ending)
    requires p.sourceId in before.sources && p.sourceId in after.sources && before.blobs == after.blobs
    requires p.sourceId in planned.sources && before.sources[p.sourceId] == planned.sources[p.sourceId]
    requires ending in {Skipped, Finished} && (ending == Skipped <==> p.input.NoInput?)
    requires Left(codec, before.sources[p.sourceId], middle, after.sources[p.sourceId], p, live,
                  WindowOf(after.blobs, live, p), ending)
    ensures PlanSettled(codec, after, live, p) <==> !Stranded(planned, p)
  {
    hide WindowOf, SameVerification;
    ProvedKeeps(before.sources[p.sourceId], middle, p, live);
  }

  /** Settling one plan moves its own row, within what it read. */
  lemma WithinStep(codec: Codec, planned: map<Text, SourceRecord>, before: map<Text, SourceRecord>,
                   after: map<Text, SourceRecord>, blobs: map<BlobKey, BlobState>, live: Wire -> Bytes,
                   plans: seq<FilePlan>, p: FilePlan)
    requires WithinPlans(codec, planned, before, blobs, live, plans) && p in plans
    requires OthersKept(p.sourceId, before, after) && p.sourceId in before
    requires before[p.sourceId] == planned[p.sourceId]
    requires after[p.sourceId].progress.offset > before[p.sourceId].progress.offset ==>
      && !p.input.NoInput?
      && after[p.sourceId].progress.offset
         <= |codec.decoded(after[p.sourceId].identity.compression, WindowOf(blobs, live, p))|
    ensures WithinPlans(codec, planned, after, blobs, live, plans)
  {
    hide WindowOf, SameSource;
    assert SameSource(before[p.sourceId], after[p.sourceId]);
    forall id <- after
      ensures SameSource(planned[id], after[id])
      ensures (forall q <- plans :: q.sourceId != id) ==> after[id] == planned[id]
      ensures after[id].progress.offset > planned[id].progress.offset ==>
        exists q <- plans ::
          && q.sourceId == id && !q.input.NoInput?
          && after[id].progress.offset <= |codec.decoded(after[id].identity.compression, WindowOf(blobs, live, q))|
    {
      assert id in before && SameSource(planned[id], before[id]);
    }
  }

  /** Every file reported as covered is the one its row stands for. */
  predicate CoveredRows(covered: seq<CoveredFile>, sources: map<Text, SourceRecord>) {
    forall c <- covered :: c.sourceId in sources && sources[c.sourceId].identity == c.wire
  }

  lemma CoveredStays(before: map<Text, SourceRecord>, after: map<Text, SourceRecord>, covered: seq<CoveredFile>,
                     more: seq<CoveredFile>, p: FilePlan)
    requires CoveredRows(covered, before) && OthersKept(p.sourceId, before, after) && CoveredStep(covered, more, p)
    requires p.sourceId in before && (p.wire.Some? ==> p.wire == Some(before[p.sourceId].identity))
    ensures CoveredRows(more, after)
  {
    if more != covered {
      assert more == covered + [more[|covered|]];
    }
  }

  /** Up to here the run was smooth. */
  ghost predicate SmoothSoFar(codec: Codec, planned: Db, now: Db, live: Wire -> Bytes, plans: seq<FilePlan>,
                              rest: seq<FilePlan>) {
    && now.pending.None? && planned.blobs == now.blobs
    && NoRegress(planned.sources, now.sources)
    && WithinPlans(codec, planned.sources, now.sources, now.blobs, live, plans)
    && forall p <- plans :: p in rest || LeftBy(codec, planned.sources, now.sources, now.blobs, live, p)
  }

  /** It stays so when one more plan is settled smoothly. */
  lemma SmoothStep(codec: Codec, planned: Db, before: Db, after: Db, live: Wire -> Bytes, plans: seq<FilePlan>,
                   rest: seq<FilePlan>, i: nat, middle: SourceRecord, ending: Ending)
    requires SmoothSoFar(codec, planned, before, live, plans, rest) && after.pending.None?
          && before.blobs == after.blobs
    requires DistinctPlans(plans) && DistinctPlans(rest) && i < |rest| && (forall p <- rest :: p in plans)
    requires OthersKept(rest[i].sourceId, before.sources, after.sources)
    requires RestUntouched(planned.sources, before.sources, rest) && ending in {Skipped, BudgetStopped, Finished}
    requires rest[i].sourceId in before.sources && rest[i].sourceId in after.sources
    requires Left(codec, before.sources[rest[i].sourceId], middle, after.sources[rest[i].sourceId], rest[i], live,
                  WindowOf(after.blobs, live, rest[i]), ending)
    requires var was, now := before.sources[rest[i].sourceId], after.sources[rest[i].sourceId];
      && now.progress.offset >= was.progress.offset
      && (now.progress.offset > was.progress.offset ==>
            !rest[i].input.NoInput?
            && now.progress.offset <= |codec.decoded(now.identity.compression, WindowOf(after.blobs, live, rest[i]))|)
    ensures SmoothSoFar(codec, planned, after, live, plans, Without(rest, i))
    ensures Progressed(planned.sources, before.sources) ==> Progressed(planned.sources, after.sources)
    ensures after.sources[rest[i].sourceId].progress.offset > before.sources[rest[i].sourceId].progress.offset ==>
      Progressed(planned.sources, after.sources)
  {
    hide OthersKept, WindowOf, NoRegress, Progressed, DistinctPlans, Without, WithinPlans, RestUntouched, Left, LeftBy;
    var p := rest[i];
    UntouchedRow(planned.sources, before.sources, rest, p);
    OneStep(before.sources, after.sources, p.sourceId);
    Onward(planned.sources, before.sources, after.sources);
    WithinStep(codec, planned.sources, before.sources, after.sources, after.blobs, live, plans, p);
    LeftStep(codec, planned.sources, before.sources, after.sources, after.blobs, live, plans, rest, i, middle, ending);
  }

  /** Where the settling stands: the rest untouched, what is done settled unless stranded, all of it smooth so far. */
  ghost predicate Going(codec: Codec, planned: Db, now: Db, live: Wire -> Bytes, plans: seq<FilePlan>,
                        rest: seq<FilePlan>, stopped: bool, smooth: bool)
  {
    && planned.blobs == now.blobs && planned.capture == now.capture
    && RestUntouched(planned.sources, now.sources, rest)
    && (!stopped ==>
          && now.pending.None? && AllPlansOk(now, rest) && DistinctPlans(rest)
          && forall p <- rest :: p in plans)
    && (smooth ==> SmoothSoFar(codec, planned, now, live, plans, rest))
    && (smooth && !stopped ==> DoneSoFar(codec, planned, now, live, plans, rest))
  }

  lemma GoingStep(codec: Codec, planned: Db, before: Db, after: Db, live: Wire -> Bytes, plans: seq<FilePlan>,
                  rest: seq<FilePlan>, i: nat, middle: SourceRecord, ending: Ending, stopped: bool, smooth: bool)
    requires Going(codec, planned, before, live, plans, rest, false, smooth) && DistinctPlans(plans) && i < |rest|
    requires after.blobs == before.blobs && after.capture == before.capture && (!stopped ==> after.pending.None?)
    requires OthersKept(rest[i].sourceId, before.sources, after.sources)
    requires rest[i].sourceId in before.sources && rest[i].sourceId in after.sources
    requires (ending == Skipped && !stopped) || ending == Finished ==> (ending == Skipped <==> rest[i].input.NoInput?)
    requires ending in {Skipped, BudgetStopped, Finished} ==>
      && after.pending.None?
      && Left(codec, before.sources[rest[i].sourceId], middle, after.sources[rest[i].sourceId], rest[i], live,
              WindowOf(after.blobs, live, rest[i]), ending)
      && var was, now := before.sources[rest[i].sourceId], after.sources[rest[i].sourceId];
         && now.progress.offset >= was.progress.offset
         && (now.progress.offset > was.progress.offset ==>
               !rest[i].input.NoInput?
               && now.progress.offset <= |codec.decoded(now.identity.compression,
                                                        WindowOf(after.blobs, live, rest[i]))|)
    requires stopped <==> ending !in {Skipped, Finished, ReadBroken}
    ensures Going(codec, planned, after, live, plans, Without(rest, i), stopped,
                  smooth && ending in {Skipped, BudgetStopped, Finished})
    ensures smooth && ending in {Skipped, BudgetStopped, Finished} ==>
      && (Progressed(planned.sources, before.sources) ==> Progressed(planned.sources, after.sources))
      && (after.sources[rest[i].sourceId].progress.offset > before.sources[rest[i].sourceId].progress.offset ==>
            Progressed(planned.sources, after.sources))
  {
    hide OthersKept, WindowOf, Progressed, DistinctPlans, Without, RestUntouched, Left, SmoothSoFar, DoneSoFar,
         AllPlansOk, PlanSettled, Stranded;
    var p := rest[i];
    if ending in {Skipped, Finished} {
      UntouchedRow(planned.sources, before.sources, rest, p);
      OneSettled(codec, planned, before, after, live, p, middle, ending);
    }
    OthersStand(codec, planned, before, after, live, plans, rest, i);
    if smooth && ending in {Skipped, BudgetStopped, Finished} {
      SmoothStep(codec, planned, before, after, live, plans, rest, i, middle, ending);
    }
  }

  /** Settle the next plan. */
  method SettleNext(state: ImportState, live: Wire -> Bytes, ghost planned: Db, ghost plans: seq<FilePlan>,
                    rest: seq<FilePlan>, i: nat, smooth0: bool)
    returns (alive: bool, smooth: bool)
    requires state.Ok() && !state.stopped && SpoolOk(state.store.State()) && ProbedSizes(live)
    requires CoveredRows(state.covered, state.store.sources) && DistinctPlans(plans) && i < |rest|
    requires Going(state.codec, planned, state.store.State(), live, plans, rest, false, smooth0)
    modifies state`bytesArchived, state`bodyBytes, state`pending, state`failed, state`stopped, state`boundExceeded,
             state`timestamp, state`labels, state`covered, state.store`sources, state.store`pending, state.loki`log
    ensures state.Ok() && SpoolOk(state.store.State()) && CoveredRows(state.covered, state.store.sources)
    ensures SameRows(old(state.store.sources), state.store.sources)
    ensures state.boundExceeded == old(state.boundExceeded)
    ensures old(state.WithinBudget()) ==> state.WithinBudget()
    ensures alive ==> Going(state.codec, planned, state.store.State(), live, plans, Without(rest, i), state.stopped,
                            smooth)
    ensures alive && smooth ==>
      && smooth0
      && (Progressed(planned.sources, old(state.store.sources)) ==> Progressed(planned.sources, state.store.sources))
      && (old(state.FreshStart()) && !state.stopped ==>
            Progressed(planned.sources, state.store.sources) || state.FreshStart())
      && (old(state.FreshStart()) && state.stopped && state.timestamp < Json.PowerOfTen(20) ==>
            Progressed(planned.sources, state.store.sources))
    ensures state.calm ==> alive
    ensures state.calm && smooth0 && PlanGood(state.codec, planned, live, rest[i]) ==> smooth
  {
    hide Inv, TidyLog, PlanOk, OthersKept, Json.PowerOfTen, SpoolOk, WindowOf, Progressed, Without, CoveredRows,
         CoveredStep, PlanGood, Left, Going, SameSource, ProbedSizes, DistinctPlans, ClosedFor;
    var p := rest[i];
    ghost var before, covered := state.store.State(), state.covered;
    var ending;
    ghost var middle;
    NextPlan(state.codec, planned, before, live, plans, rest, i, smooth0);
    alive, ending, middle := SettlePlan(state, p, live);
    CoveredStays(before.sources, state.store.sources, covered, state.covered, p);
    KeptIsSame(p.sourceId, before.sources, state.store.sources);
    SpoolStays(before, state.store.State());
    smooth := smooth0 && ending in {Skipped, BudgetStopped, Finished};
    if alive {
      GoingStep(state.codec, planned, before, state.store.State(), live, plans, rest, i, middle, ending, state.stopped,
                smooth0);
    }
  }

  lemma NextPlan(codec: Codec, planned: Db, now: Db, live: Wire -> Bytes, plans: seq<FilePlan>, rest: seq<FilePlan>,
                 i: nat, smooth: bool)
    requires Going(codec, planned, now, live, plans, rest, false, smooth) && i < |rest|
    ensures now.pending.None? && PlanOk(now, rest[i]) && rest[i].sourceId in now.sources
    ensures rest[i].wire.Some? ==> rest[i].wire == Some(now.sources[rest[i].sourceId].identity)
    ensures PlanGood(codec, planned, live, rest[i]) ==> PlanGood(codec, now, live, rest[i])
  {
    hide PlanOk, PlanGood, SmoothSoFar, DoneSoFar, RestUntouched, DistinctPlans;
    PlanOfAll(now, rest, rest[i]);
    PlanId(now, rest[i]);
    GoodStays(codec, planned, now, live, rest, rest[i]);
  }

  /**
   Settle the plans one by one, in whatever order, until one stops the run. `smooth` tells that nothing failed: then
   either every plan is settled that was not stranded, or the budget ran out and some source has moved on. Good plans
   are settled smoothly in a calm run.
   */
  method SettlePlans(state: ImportState, plans: seq<FilePlan>, live: Wire -> Bytes) returns (alive: bool, smooth: bool)
    requires state.Ok() && state.store.pending.None? && !state.stopped
    requires AllPlansOk(state.store.State(), plans) && DistinctPlans(plans)
    requires SpoolOk(state.store.State()) && ProbedSizes(live) && CoveredRows(state.covered, state.store.sources)
    modifies state`bytesArchived, state`bodyBytes, state`pending, state`failed, state`stopped, state`boundExceeded,
             state`timestamp, state`labels, state`covered, state.store`sources, state.store`pending, state.loki`log
    ensures state.Ok() && SpoolOk(state.store.State())
    ensures SameRows(old(state.store.sources), state.store.sources)
    ensures state.boundExceeded == old(state.boundExceeded)
    ensures old(state.WithinBudget()) ==> state.WithinBudget()
    ensures alive ==> CoveredRows(state.covered, state.store.sources)
    ensures alive && smooth ==> Smooth(state.codec, old(state.store.State()), state.store.State(), live, plans)
    ensures alive && smooth && !state.stopped ==>
      AllSettled(state.codec, old(state.store.State()), state.store.State(), live, plans)
    ensures alive && smooth && state.stopped && old(state.FreshStart()) && state.timestamp < Json.PowerOfTen(20) ==>
      Progressed(old(state.store.sources), state.store.sources)
    ensures state.calm && (forall p <- plans :: PlanGood(state.codec, old(state.store.State()), live, p)) ==> smooth
    ensures state.calm ==> alive
  {
    hide Inv, TidyLog, PlanOk, Json.PowerOfTen, SpoolOk, Progressed, DistinctPlans, Without, CoveredRows, PlanGood,
         Going, ProbedSizes, AllPlansOk, AllSettled, Smooth, SameRows;
    RowsAreSame(state.store.sources);
    alive, smooth := true, true;
    var rest := plans;
    ghost var planned := state.store.State();
    LoopStarts(state.codec, planned, live, plans);
    while rest != [] && !state.stopped
      invariant state.Ok() && SpoolOk(state.store.State()) && CoveredRows(state.covered, state.store.sources)
      invariant Going(state.codec, planned, state.store.State(), live, plans, rest, state.stopped, smooth)
      invariant forall p <- rest :: p in plans
      invariant SameRows(planned.sources, state.store.sources)
      invariant state.boundExceeded == old(state.boundExceeded)
      invariant old(state.WithinBudget()) ==> state.WithinBudget()
      invariant smooth && !state.stopped && old(state.FreshStart()) ==>
        Progressed(planned.sources, state.store.sources) || state.FreshStart()
      invariant smooth && state.stopped && old(state.FreshStart()) && state.timestamp < Json.PowerOfTen(20) ==>
        Progressed(planned.sources, state.store.sources)
      invariant state.calm && (forall p <- plans :: PlanGood(state.codec, planned, live, p)) ==> smooth
      decreases |rest|
    {
      var i :| 0 <= i < |rest|;
      ghost var before := state.store.sources;
      alive, smooth := SettleNext(state, live, planned, plans, rest, i, smooth);
      SameRowsSteps(planned.sources, before, state.store.sources);
      if !alive {
        return;
      }
      WithoutIsShorter(rest, i);
      rest := Without(rest, i);
    }
    LoopEnds(state.codec, planned, state.store.State(), live, plans, rest, state.stopped, smooth);
  }

  lemma LoopEnds(codec: Codec, planned: Db, now: Db, live: Wire -> Bytes, plans: seq<FilePlan>, rest: seq<FilePlan>,
                 stopped: bool, smooth: bool)
    requires Going(codec, planned, now, live, plans, rest, stopped, smooth) && (rest == [] || stopped)
    ensures smooth ==> Smooth(codec, planned, now, live, plans)
    ensures smooth && !stopped ==> AllSettled(codec, planned, now, live, plans)
  {
    hide SmoothSoFar, Smooth, AllSettled, DoneSoFar, RestUntouched;
    if smooth {
      SmoothEnd(codec, planned, now, live, plans, rest);
      if !stopped {
        AllDone(codec, planned, now, live, plans);
      }
    }
  }

  lemma PlanOfAll(db: Db, plans: seq<FilePlan>, p: FilePlan)
    requires AllPlansOk(db, plans) && p in plans
    ensures PlanOk(db, p)
  {
    hide PlanOk;
  }

  lemma LoopStarts(codec: Codec, planned: Db, live: Wire -> Bytes, plans: seq<FilePlan>)
    requires AllPlansOk(planned, plans) && DistinctPlans(plans) && planned.pending.None?
    ensures Going(codec, planned, planned, live, plans, plans, false, true)
  {
    hide PlanOk, PlanSettled, Stranded, WindowOf;
    forall p <- plans
      ensures p.sourceId in planned.sources
    {
      PlanId(planned, p);
    }
  }

  lemma AllDone(codec: Codec, planned: Db, db: Db, live: Wire -> Bytes, plans: seq<FilePlan>)
    requires DoneSoFar(codec, planned, db, live, plans, [])
    ensures AllSettled(codec, planned, db, live, plans)
  {
    hide PlanSettled, Stranded;
  }

  lemma UntouchedRow(planned: map<Text, SourceRecord>, now: map<Text, SourceRecord>, rest: seq<FilePlan>, p: FilePlan)
    requires RestUntouched(planned, now, rest) && p in rest
    ensures p.sourceId in planned && p.sourceId in now && now[p.sourceId] == planned[p.sourceId]
  {
  }

  /** A good plan is still good when its turn comes. */
  lemma GoodStays(codec: Codec, planned: Db, now: Db, live: Wire -> Bytes, rest: seq<FilePlan>, p: FilePlan)
    requires RestUntouched(planned.sources, now.sources, rest) && p in rest && planned.blobs == now.blobs
    ensures PlanGood(codec, planned, live, p) ==> PlanGood(codec, now, live, p)
    ensures p.sourceId in now.sources
  {
    hide WindowOf, Proves, Readable;
  }

  /** The plan just settled has left its row in one of the ways it may; the plans before it left theirs. */
  lemma LeftStep(codec: Codec, planned: map<Text, SourceRecord>, before: map<Text, SourceRecord>,
                 after: map<Text, SourceRecord>, blobs: map<BlobKey, BlobState>, live: Wire -> Bytes,
                 plans: seq<FilePlan>, rest: seq<FilePlan>, i: nat, middle: SourceRecord, ending: Ending)
    requires DistinctPlans(plans) && DistinctPlans(rest) && i < |rest| && (forall p <- rest :: p in plans)
    requires OthersKept(rest[i].sourceId, before, after) && RestUntouched(planned, before, rest)
    requires forall p <- plans :: p in rest || LeftBy(codec, planned, before, blobs, live, p)
    requires rest[i].sourceId in after && ending in {Skipped, BudgetStopped, Finished}
    requires Left(codec, before[rest[i].sourceId], middle, after[rest[i].sourceId], rest[i], live,
                  WindowOf(blobs, live, rest[i]), ending)
    ensures forall p <- plans :: p in Without(rest, i) || LeftBy(codec, planned, after, blobs, live, p)
  {
    hide Left, WindowOf, Without, DistinctPlans, SameSource;
    StillDistinct(rest, i);
    forall p <- plans | p !in Without(rest, i)
      ensures LeftBy(codec, planned, after, blobs, live, p)
    {
      if p == rest[i] {
        assert Left(codec, planned[p.sourceId], middle, after[p.sourceId], p, live, WindowOf(blobs, live, p), ending);
      } else {
        assert p !in rest;
        DifferentPlans(plans, p, rest[i]);
        assert LeftBy(codec, planned, before, blobs, live, p);
      }
    }
  }

  lemma SmoothEnd(codec: Codec, planned: Db, now: Db, live: Wire -> Bytes, plans: seq<FilePlan>, rest: seq<FilePlan>)
    requires RestUntouched(planned.sources, now.sources, rest)
    requires SmoothSoFar(codec, planned, now, live, plans, rest)
    ensures Smooth(codec, planned, now, live, plans)
  {
    hide NoRegress, WithinPlans, Left, WindowOf;
  }

  lemma PlanId(db: Db, p: FilePlan)
    requires PlanOk(db, p)
    ensures p.sourceId in db.sources
    ensures p.wire.Some? ==> p.wire == Some(db.sources[p.sourceId].identity)
  {
  }

  lemma WithoutIsShorter(rest: seq<FilePlan>, i: nat)
    requires i < |rest|
    ensures |Without(rest, i)| == |rest| - 1
    ensures forall p <- Without(rest, i) :: p in rest
  {
  }

  /** Blobs may have been released, and hold what they held. */
  predicate SameContents(before: map<BlobKey, BlobState>, after: map<BlobKey, BlobState>) {
    before.Keys == after.Keys && forall key <- before :: after[key].sha256 == before[key].sha256
  }

  // ---- Files that are never acknowledged -----------------------------------------------------------

  /** When a plan reads nothing: its file is complete as it is, or is left to the live reader from the blob's end on. */
  predicate NothingToRead(db: Db, r: SourceRecord, wire: Option<Wire>) {
    var frozen := r.blob.Some? && IsCaptured(db, r.blob.value);
    match wire
    case Some(w) => PrefixCompleteForCurrent(r, w) || (frozen && IsPrefixComplete(r) && w.isActive)
    case None => !frozen || IsPrefixComplete(r)
  }

  lemma ReadsNothingExactly(db: Db, p: FilePlan)
    requires PlanOk(db, p)
    ensures p.sourceId in db.sources
    ensures p.input.NoInput? <==> NothingToRead(db, db.sources[p.sourceId], p.wire)
  {
    hide IdentityCompatible;
  }

  /**
   A stranded row stays so: while its file is probed as it is, the next run's plan for it is stranded again, and with
   it every run's. So a file is acknowledged by a run that settles all its plans exactly if its row was acknowledged
   before or there was something to read.
   */
  lemma StrandedForEver(planned: Db, after: SourceRecord, later: Db, live: Wire -> Bytes, p: FilePlan, q: FilePlan)
    requires PlanOk(planned, p) && Stranded(planned, p)
    requires ProvedFrom(planned.sources[p.sourceId], after, p, live)
    requires PlanOk(later, q) && q.sourceId == p.sourceId && q.wire == p.wire && later.sources[q.sourceId] == after
    requires SameContents(planned.blobs, later.blobs)
    ensures Stranded(later, q)
  {
    hide PlanOk, SameLogicalSource, SelectInput;
    ReadsNothingExactly(planned, p);
    ReadsNothingExactly(later, q);
  }

  /** What was completed is as long as the file is, or the file was frozen and is active. */
  predicate SeemsDone(db: Db, r: SourceRecord, done: SourceRecord, raw: Digest) {
    || (IdentityCompatible(done, r.identity) && r.identity.size == |raw.content|)
    || (r.blob.Some? && IsCaptured(db, r.blob.value) && r.identity.isActive)
  }

  /**
   How a row gets there: the process dies after the first of a completion's three transactions, and the row had a digest
   already; without one the file is read again.
   */
  lemma CrashAfterFirstStrands(codec: Codec, log: seq<Body>, db: Db, p: FilePlan, raw: Digest, decoded: Digest,
                               lineage: Option<Text>, now: nat, q: FilePlan)
    requires CompletionEvidence(codec, log, db, p, raw, decoded)
    requires var id := p.sourceId;
      var done := Completed(db.sources[id], p, raw, decoded, lineage).(updatedNs := now);
      var crashed := db.(sources := db.sources[id := done]);
      PlanOk(crashed, q) && q.sourceId == id && q.wire == Some(db.sources[id].identity)
    ensures var id := p.sourceId;
      var r := db.sources[id];
      var done := Completed(r, p, raw, decoded, lineage).(updatedNs := now);
      Stranded(db.(sources := db.sources[id := done]), q) <==>
        !r.acknowledged && r.digest.Some? && SeemsDone(db, r, done, raw)
  {
    hide PlanOk, IdentityCompatible, Archived;
    var id := p.sourceId;
    var done := Completed(db.sources[id], p, raw, decoded, lineage).(updatedNs := now);
    ReadsNothingExactly(db.(sources := db.sources[id := done]), q);
  }

  /**
   Or it dies after the second, which sets the digest. Exactly the rows that no completing batch had acknowledged are
   stranded then, and of those the ones whose file is no longer than what was completed, or is active and was frozen.
   */
  lemma CrashStrandsExactly(codec: Codec, log: seq<Body>, db: Db, p: FilePlan, raw: Digest, decoded: Digest,
                            lineage: Option<Text>, now: nat, q: FilePlan)
    requires CompletionEvidence(codec, log, db, p, raw, decoded)
    requires var id := p.sourceId;
      var crashed := db.(sources := db.sources[id := Completed(db.sources[id], p, raw, decoded, lineage)
                                                       .(digest := Some(raw), updatedNs := now)]);
      PlanOk(crashed, q) && q.sourceId == id && q.wire == Some(db.sources[id].identity)
    ensures var id := p.sourceId;
      var r := db.sources[id];
      var done := Completed(r, p, raw, decoded, lineage).(digest := Some(raw), updatedNs := now);
      Stranded(db.(sources := db.sources[id := done]), q) <==> !r.acknowledged && SeemsDone(db, r, done, raw)
  {
    hide PlanOk, IdentityCompatible, Archived;
    var id := p.sourceId;
    var done := Completed(db.sources[id], p, raw, decoded, lineage).(digest := Some(raw), updatedNs := now);
    ReadsNothingExactly(db.(sources := db.sources[id := done]), q);
  }

  // ---- The run -------------------------------------------------------------------------------------

  /**
   What one run meets: the probed files, what they hold, the file behind a batch left pending, and the time at which
   that batch is looked at.
   */
  datatype Day = Day(captureId: Text, wires: seq<Wire>, live: Wire -> Bytes, stale: Bytes, clock: nat)

  /** Files keep their probed prefix while the run lasts, and their names tell their compression. */
  ghost predicate DayOk(day: Day) {
    ProbedSizes(day.live) && WiresOk(day.wires)
  }

  /** Take up the newest timestamp of any row, so that the run's own are later. */
  method ObserveRows(state: ImportState)
    modifies state`timestamp
    ensures state.timestamp >= old(state.timestamp)
    ensures forall r <- state.store.sources.Values :: r.streamTsNs.Some? ==> r.streamTsNs.value <= state.timestamp
  {
    var todo := state.store.sources.Values;
    while todo != {}
      invariant todo <= state.store.sources.Values && state.timestamp >= old(state.timestamp)
      invariant forall r <- state.store.sources.Values ::
        r in todo || (r.streamTsNs.Some? ==> r.streamTsNs.value <= state.timestamp)
      decreases |todo|
    {
      var r :| r in todo;
      todo := todo - {r};
      if r.streamTsNs.Some? {
        state.ObserveTimestamp(r.streamTsNs.value);
      }
    }
  }

  /** Releasing blobs changes nothing of it. */
  lemma SettledStays(codec: Codec, planned: Db, before: Db, after: Db, live: Wire -> Bytes, plans: seq<FilePlan>)
    requires AllSettled(codec, planned, before, live, plans)
    requires before.sources == after.sources && SameContents(before.blobs, after.blobs)
    ensures AllSettled(codec, planned, after, live, plans)
  {
    hide ClosedFor, Stranded;
    forall p <- plans
      ensures PlanSettled(codec, after, live, p) == PlanSettled(codec, before, live, p)
    {
    }
  }

  /**
   What a run has planned, over the log as it was then, and what that did to the rows and their births: nothing but a
   planned file starts a row, and no row goes.
   */
  ghost predicate RunPlanned(codec: Codec, before: map<Text, SourceRecord>, start: Db, l: Listing, wires: seq<Wire>,
                             done: seq<Match>, log: seq<Body>, born: map<Text, nat>, bornAfter: map<Text, nat>,
                             after: map<Text, SourceRecord>)
  {
    && SameRows(before, start.sources)
    && (done != [] ==> ListingOk(start, l) && Inv(codec, log, start) && TidyLog(born, log, start.sources, None))
    && (forall m <- done :: PlannedFrom(start, l, wires, m))
    && bornAfter == BornAfter(born, |log|, done, l.Existing())
    && after.Keys == start.sources.Keys + IdsPlanned(done, l.Existing())
  }

  lemma RowsAreSame(sources: map<Text, SourceRecord>)
    ensures SameRows(sources, sources)
  {
  }

  lemma RunHasPlanned(codec: Codec, start: Db, l: Listing, wires: seq<Wire>, done: seq<Match>, log: seq<Body>,
                      born: map<Text, nat>, bornAfter: map<Text, nat>, after: map<Text, SourceRecord>)
    requires ListingOk(start, l) && forall m <- done :: PlannedFrom(start, l, wires, m)
    requires Inv(codec, log, start) && TidyLog(born, log, start.sources, None)
    requires bornAfter == BornAfter(born, |log|, done, l.Existing())
    requires after.Keys == start.sources.Keys + IdsPlanned(done, l.Existing())
    ensures RunPlanned(codec, start.sources, start, l, wires, done, log, born, bornAfter, after)
  {
    hide ListingOk, PlannedFrom, BornAfter, IdsPlanned, Inv, TidyLog;
  }

  lemma StillPlanned(codec: Codec, before: map<Text, SourceRecord>, start: Db, l: Listing, wires: seq<Wire>,
                     done: seq<Match>, log: seq<Body>, born: map<Text, nat>, bornAfter: map<Text, nat>,
                     planned: map<Text, SourceRecord>, after: map<Text, SourceRecord>)
    requires RunPlanned(codec, before, start, l, wires, done, log, born, bornAfter, planned) && SameRows(planned, after)
    ensures RunPlanned(codec, before, start, l, wires, done, log, born, bornAfter, after)
  {
    hide ListingOk, PlannedFrom, BornAfter, IdsPlanned, SameSource, Inv, TidyLog;
  }

  /**
   Plan every file, settle the plans, release what is delivered. `start` are the rows before planning and `planned`
   those after it.
   */
  method PlanAndSettle(state: ImportState, day: Day)
    returns (alive: bool, smooth: bool, clash: bool, ghost planned: Db, ghost probe: Probe, ghost l: Listing,
             ghost plans: seq<FilePlan>, ghost done: seq<Match>)
    requires state.Ok() && SpoolOk(state.store.State()) && DayOk(day)
    requires state.store.pending.None? && CaptureDone(state.store.State()) && !state.stopped && state.covered == []
    modifies state`bytesArchived, state`bodyBytes, state`pending, state`failed, state`stopped, state`boundExceeded,
             state`timestamp, state`labels, state`covered, state`floor, state.store`sources, state.store`pending,
             state.store`blobs, state.loki
    ensures state.Ok() && SpoolOk(state.store.State())
    ensures state.boundExceeded == old(state.boundExceeded)
    ensures old(state.WithinBudget()) ==> state.WithinBudget()
    ensures alive ==> CoveredRows(state.covered, state.store.sources)
    ensures ListingOk(old(state.store.State()), l)
    ensures RunPlanned(state.codec, old(state.store.sources), old(state.store.State()), l, day.wires, done, state.floor,
                       old(state.loki.born), state.loki.born, state.store.sources)
    ensures clash <==>
      !DistinctIds(Matches(old(state.store.capture).value, l, PathsOf(day.wires), day.wires), l.Existing())
    ensures clash && alive ==> state.store.sources == old(state.store.sources) && !smooth
    ensures alive && smooth ==>
      && AllPlanned(old(state.store.State()), planned, day.wires, l, probe, plans)
      && planned.blobs == old(state.store.blobs)
      && Smooth(state.codec, planned, state.store.State(), day.live, plans)
      && (if state.stopped then
            old(state.FreshStart()) && state.timestamp < Json.PowerOfTen(20) ==>
              Progressed(planned.sources, state.store.sources)
          else AllSettled(state.codec, planned, state.store.State(), day.live, plans))
    ensures SameContents(old(state.store.blobs), state.store.blobs) && state.store.capture == old(state.store.capture)
    ensures state.calm && !clash ==>
      && alive && AllPlanned(old(state.store.State()), planned, day.wires, l, probe, plans)
      && planned.blobs == old(state.store.blobs) && Inv(state.codec, old(state.loki.log), planned)
      && ((forall p <- plans :: PlanGood(state.codec, planned, day.live, p)) ==> smooth)
  {
    hide Smooth, Inv, TidyLog, SpoolOk, Json.PowerOfTen, NoRegress, Progressed, AllPlanned, ListingOk, Releasable,
         AllSettled, PlanSettled, Stranded, WithinPlans, LeftBy, CoveredRows, PlanGood, AllPlansOk, Matches, PathsOf,
         DistinctIds, RunPlanned, SameRows, PlannedFrom;
    ghost var start := state.store.State();
    planned := start;
    var made;
    state.floor := state.loki.log;
    alive, clash, made, probe, l, done := PlanSources(state, day.wires);
    plans := made;
    RunHasPlanned(state.codec, start, l, day.wires, done, state.floor, old(state.loki.born), state.loki.born,
                  state.store.sources);
    NothingCovered(state.store.sources);
    if !alive || clash {
      smooth := false;
      return;
    }
    planned := state.store.State();
    PlannedParts(start, planned, day.wires, l, probe, made);
    assert planned.blobs == old(state.store.blobs);
    alive, smooth := SettlePlans(state, made, day.live);
    StillPlanned(state.codec, start.sources, start, l, day.wires, done, state.floor, old(state.loki.born),
                 state.loki.born, planned.sources, state.store.sources);
    if !alive {
      return;
    }
    if state.stopped && !state.failed {
      state.pending := true;
    }
    ghost var settled := state.store.State();
    alive := MaybeRelease(state);
    if smooth {
      SmoothStays(state.codec, planned, settled, state.store.State(), day.live, made);
    }
    if smooth && !state.stopped {
      SettledStays(state.codec, planned, settled, state.store.State(), day.live, made);
    }
  }

  lemma SmoothStays(codec: Codec, planned: Db, before: Db, after: Db, live: Wire -> Bytes, plans: seq<FilePlan>)
    requires Smooth(codec, planned, before, live, plans)
    requires before.sources == after.sources && before.pending == after.pending
    ensures Smooth(codec, planned, after, live, plans)
  {
  }

  lemma NothingCovered(sources: map<Text, SourceRecord>)
    ensures CoveredRows([], sources)
  {
  }

  lemma PlannedParts(start: Db, planned: Db, wires: seq<Wire>, l: Listing, probe: Probe, plans: seq<FilePlan>)
    requires AllPlanned(start, planned, wires, l, probe, plans)
    ensures AllPlansOk(planned, plans) && DistinctPlans(plans)
    ensures planned == start.(sources := planned.sources)
  {
    hide ListingOk, Matches, OnlyTakenFall, OnlyPlanned, PlannedRows, PlanOk, DistinctIds, LeftoverOf, Handled;
  }

  lemma NotPlanned(codec: Codec, start: Db, after: map<Text, SourceRecord>, l: Listing, wires: seq<Wire>,
                   log: seq<Body>, born: map<Text, nat>)
    requires start.sources == after || SameRows(start.sources, after)
    ensures RunPlanned(codec, start.sources, start, l, wires, [], log, born, born, after)
  {
    hide ListingOk, Inv, TidyLog;
    NobodyBorn(born, |log|, l.Existing());
  }

  lemma PlannedSince(codec: Codec, first: map<Text, SourceRecord>, start: Db, l: Listing, wires: seq<Wire>,
                     done: seq<Match>, log: seq<Body>, born: map<Text, nat>, bornAfter: map<Text, nat>,
                     after: map<Text, SourceRecord>)
    requires SameRows(first, start.sources)
          && RunPlanned(codec, start.sources, start, l, wires, done, log, born, bornAfter, after)
    ensures RunPlanned(codec, first, start, l, wires, done, log, born, bornAfter, after)
  {
    hide ListingOk, PlannedFrom, BornAfter, IdsPlanned, SameSource, Inv, TidyLog;
  }

  /**
   One import run: resume or make the capture, settle the batch left pending, plan, import, release. Whatever
   fails and wherever the process dies, the invariant holds afterwards. A run in which nothing fails either settles
   every plan that was not stranded or moves some source on; a calm run over good plans is such a run.
   */
  method ImportGuestLogs(state: ImportState, day: Day)
    returns (alive: bool, smooth: bool, clash: bool, ghost start: Db, ghost planned: Db, ghost probe: Probe,
             ghost l: Listing, ghost plans: seq<FilePlan>, ghost done: seq<Match>)
    requires state.Ok() && SpoolOk(state.store.State()) && DayOk(day)
    requires RebuildIsSafe(state.codec, state.store.State(), day.stale, day.clock)
    requires state.bytesArchived == 0 && state.bodyBytes == 0 && !state.stopped && !state.boundExceeded
          && state.budget >= 0
    requires state.covered == []
    modifies state`bytesArchived, state`bodyBytes, state`pending, state`failed, state`stopped, state`boundExceeded,
             state`timestamp, state`labels, state`covered, state`floor, state.store`sources, state.store`pending,
             state.store`blobs, state.store`capture, state.loki
    ensures state.Ok() && SpoolOk(state.store.State())
    ensures RunPlanned(state.codec, old(state.store.sources), start, l, day.wires, done, state.floor,
                       old(state.loki.born), state.loki.born, state.store.sources)
    ensures !state.boundExceeded
    ensures old(state.store.pending).None? ==> state.WithinBudget()
    ensures alive ==> CoveredRows(state.covered, state.store.sources)
    ensures CaptureDone(old(state.store.State())) && old(state.store.pending).None? ==>
      && start == old(state.store.State()) && ListingOk(start, l)
      && (clash <==> !DistinctIds(Matches(start.capture.value, l, PathsOf(day.wires), day.wires), l.Existing()))
      && state.store.capture == start.capture && SameContents(start.blobs, state.store.blobs)
    ensures alive && smooth && old(state.store.pending).None? ==>
      && start.sources == old(state.store.sources)
      && AllPlanned(start, planned, day.wires, l, probe, plans) && planned.blobs == start.blobs
      && Smooth(state.codec, planned, state.store.State(), day.live, plans)
      && (if state.stopped then
            old(state.FreshStart()) && state.timestamp < Json.PowerOfTen(20) ==>
              Progressed(planned.sources, state.store.sources)
          else AllSettled(state.codec, planned, state.store.State(), day.live, plans))
    ensures state.calm && CaptureDone(old(state.store.State())) && old(state.store.pending).None? && !clash ==>
      && alive && AllPlanned(start, planned, day.wires, l, probe, plans) && planned.blobs == start.blobs
      && Inv(state.codec, old(state.loki.log), planned)
      && ((forall p <- plans :: PlanGood(state.codec, planned, day.live, p)) ==> smooth)
  {
    hide Inv, TidyLog, SpoolOk, WiresOk, ProbedSizes, RebuildIsSafe, Settled, Json.PowerOfTen, Progressed, AllSettled,
         AllCaptured, AllPlanned, Smooth, CoveredRows, PlanGood, NoRegress, ListingOk, Matches, PathsOf, DistinctIds,
         RowOk, RunPlanned, SameRows;
    smooth, clash, start, planned := false, false, state.store.State(), state.store.State();
    probe, l, plans, done := Probe([], [], map[]), Listing([], map[], map[], map[], map[]), [], [];
    NothingCovered(state.store.sources);
    NotPlanned(state.codec, start, state.store.sources, l, day.wires, state.floor, state.loki.born);
    ObserveRows(state);
    ghost var first := state.store.State();
    var ok;
    alive, ok := EnsureCapture(state, day.captureId, day.wires);
    if !alive || !ok {
      return;
    }
    StillUnchanged(state.codec, state.loki.log, first, state.store.State(), day);
    ghost var captured := state.store.State();
    alive, ok := FlushExistingPending(state, day.stale, day.clock);
    NotPlanned(state.codec, start, state.store.sources, l, day.wires, state.floor, state.loki.born);
    SpoolStays(captured, state.store.State());
    NothingCovered(state.store.sources);
    if !alive || !ok {
      return;
    }
    start := state.store.State();
    alive, smooth, clash, planned, probe, l, plans, done := PlanAndSettle(state, day);
    PlannedSince(state.codec, old(state.store.sources), start, l, day.wires, done, state.floor, old(state.loki.born),
                 state.loki.born, state.store.sources);
  }

  lemma StillUnchanged(codec: Codec, log: seq<Body>, before: Db, after: Db, day: Day)
    requires Inv(codec, log, before) && RebuildIsSafe(codec, before, day.stale, day.clock)
    requires after.sources == before.sources && after.pending == before.pending
    requires CaptureDone(before) ==> after == before
    ensures RebuildIsSafe(codec, after, day.stale, day.clock)
  {
    hide RowsOk, PendingOk;
  }
}
